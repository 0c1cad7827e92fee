/**
 * A loop of redirect gates that the code lets a run make: create a gate, create a redirect to it,
 * and re-point the redirect to itself. Resolving it never answers.
 */
module GateLoops {
  import opened Wrappers
  import opened Labels
  import opened Objects
  import opened Protocol
  import opened StoreTyping
  import opened GateResolution

  const FRESH := Sys(FRESH_STORE, map[])
  const AT_ROOT := map[0 := DirEntry(KDirectory, ROOT)]

  function GateCell(g: Gate): Cell {
    Labeled(PUBLIC, GateBody(g))
  }

  function Target(code: Function): Gate {
    Direct(DC_TRUE, DC_TRUE, DC_TRUE, code)
  }

  function Pointer(u: Uid): Gate {
    Redirect(DC_TRUE, DC_TRUE, DC_TRUE, u)
  }

  /** The only thread, run at the public label without any privilege. */
  function Runner(fds: map<nat, DirEntry>, nextFd: nat, pc: PC): Thread {
    Thread(PUBLIC, DC_TRUE, fds, nextFd, pc)
  }

  function Alone(s: Store, t: Thread): Sys {
    Sys(s, map[0 := t])
  }

  lemma ChecksPass()
    ensures Lub(PUBLIC, PUBLIC) == PUBLIC && And(DC_TRUE, DC_TRUE) == DC_TRUE
    ensures CanFlowToWith(PUBLIC, PUBLIC, DC_TRUE) && Implies(DC_TRUE, DC_TRUE)
  {
    FlowRefl(PUBLIC, DC_TRUE);
    ImpliesRefl(DC_TRUE);
    TrueIsUnit(DC_TRUE);
  }

  lemma OneTurn(schedule: seq<Turn>, s: Store, t: Thread, c: Choice)
    requires Run(FRESH, schedule) == Alone(s, t)
    ensures var f := TakeTurn(t, s, c);
            Run(FRESH, schedule + [Act(0, c)]) == Alone(Written(s, f.write), f.thread)
  {
    hide TakeTurn;
    assert (schedule + [Act(0, c)])[..|schedule|] == schedule;
    var f := TakeTurn(t, s, c);
    assert (map[0 := t])[0 := f.thread] == map[0 := f.thread];
  }

  // ----- the schedule -----

  function Started(): seq<Turn> {
    [Spawn(0, PUBLIC, DC_TRUE, None)]
  }

  /** Three turns that create a gate at the uid drawn. */
  function Creating(draft: Draft, u: Uid): seq<Turn> {
    [Act(0, Begin(CreateChecked(PUBLIC, draft)))] + [Act(0, Continue(u))] + [Act(0, Continue(0))]
  }

  function Drafted(g: Gate, fd: nat): Draft {
    match g
    case Direct(p, c, x, code) => DraftDirect(p, c, x, code)
    case Redirect(p, c, x, _) => DraftRedirect(p, c, x, fd)
  }

  /** Three turns that re-point the redirect behind a descriptor. */
  function Repointing(fd: nat, target: nat): seq<Turn> {
    [Act(0, Begin(UpdateGate(fd, PatchRedirect(None, None, target))))] + [Act(0, Continue(0))] + [Act(0, Continue(0))]
  }

  function Looping(code: Function): seq<Turn> {
    Started() + Creating(Drafted(Target(code), 0), 1) + Creating(Drafted(Pointer(1), 1), 2) + Repointing(2, 2)
  }

  /** A resolution of descriptor 2, followed for `n` further turns. */
  function Resolving(n: nat): seq<Turn> {
    if n == 0 then [Act(0, Begin(Resolve(2)))] else Resolving(n - 1) + [Act(0, Continue(0))]
  }

  // ----- its turns -----

  lemma CreateTurns(s: Store, fds: map<nat, DirEntry>, nextFd: nat, g: Gate, fd: nat, u: Uid)
    requires u !in s && g.privilege == g.clearance == g.declassify == DC_TRUE
    requires g.Redirect? ==> fd in fds && fds[fd] == DirEntry(KGate, g.target)
    ensures var cell := GateCell(g);
            var t1 := Runner(fds, nextFd, Reserving(cell, Publish(KGate)));
            var t2 := Runner(fds, nextFd, Filling(u, cell, Publish(KGate)));
            && TakeTurn(Runner(fds, nextFd, Idle), s, Begin(CreateChecked(PUBLIC, Drafted(g, fd))))
               == Effect(t1, None, None)
            && TakeTurn(t1, s, Continue(u)) == Effect(t2, Some(Update(u, Reserved)), None)
            && TakeTurn(t2, s[u := Reserved], Continue(0))
               == Effect(Runner(fds[nextFd := DirEntry(KGate, u)], nextFd + 1, Idle), Some(Update(u, cell)),
                         Some(Opened(nextFd)))
  {
    ChecksPass();
    hide Implies, CanFlowToWith, Lub;
  }

  lemma CreatingWorks(schedule: seq<Turn>, s: Store, fds: map<nat, DirEntry>, nextFd: nat, g: Gate, fd: nat, u: Uid)
    requires Run(FRESH, schedule) == Alone(s, Runner(fds, nextFd, Idle)) && u !in s
    requires g.privilege == g.clearance == g.declassify == DC_TRUE
    requires g.Redirect? ==> fd in fds && fds[fd] == DirEntry(KGate, g.target)
    ensures Run(FRESH, schedule + Creating(Drafted(g, fd), u))
            == Alone(s[u := GateCell(g)], Runner(fds[nextFd := DirEntry(KGate, u)], nextFd + 1, Idle))
  {
    hide TakeTurn;
    var draft, cell := Drafted(g, fd), GateCell(g);
    var c0, c1, c2 := Begin(CreateChecked(PUBLIC, draft)), Continue(u), Continue(0);
    var t1 := Runner(fds, nextFd, Reserving(cell, Publish(KGate)));
    var t2 := Runner(fds, nextFd, Filling(u, cell, Publish(KGate)));
    CreateTurns(s, fds, nextFd, g, fd, u);
    OneTurn(schedule, s, Runner(fds, nextFd, Idle), c0);
    OneTurn(schedule + [Act(0, c0)], s, t1, c1);
    OneTurn(schedule + [Act(0, c0)] + [Act(0, c1)], s[u := Reserved], t2, c2);
    assert s[u := Reserved][u := cell] == s[u := cell];
    assert schedule + Creating(draft, u) == schedule + [Act(0, c0)] + [Act(0, c1)] + [Act(0, c2)];
  }

  lemma RepointTurns(s: Store, fds: map<nat, DirEntry>, nextFd: nat, fd: nat, u: Uid, v: Uid)
    requires fd in fds && fds[fd] == DirEntry(KGate, u) && u in s && s[u] == GateCell(Pointer(v))
    ensures var cell := GateCell(Pointer(u));
            var t0 := Runner(fds, nextFd, Idle);
            var t1 := Runner(fds, nextFd, Rewriting(u, cell.body, false));
            var t2 := Runner(fds, nextFd, Replacing(u, cell, false));
            && TakeTurn(t0, s, Begin(UpdateGate(fd, PatchRedirect(None, None, fd)))) == Effect(t1, None, None)
            && TakeTurn(t1, s, Continue(0)) == Effect(t2, None, None)
            && TakeTurn(t2, s, Continue(0)) == Effect(t0, Some(Update(u, cell)), Some(Stored))
  {
    ChecksPass();
    hide Implies, CanFlowToWith, Lub;
  }

  lemma RepointingWorks(schedule: seq<Turn>, s: Store, fds: map<nat, DirEntry>, nextFd: nat, fd: nat, u: Uid, v: Uid)
    requires Run(FRESH, schedule) == Alone(s, Runner(fds, nextFd, Idle))
    requires fd in fds && fds[fd] == DirEntry(KGate, u) && u in s && s[u] == GateCell(Pointer(v))
    ensures Run(FRESH, schedule + Repointing(fd, fd)) == Alone(s[u := GateCell(Pointer(u))], Runner(fds, nextFd, Idle))
  {
    hide TakeTurn;
    var c0, c := Begin(UpdateGate(fd, PatchRedirect(None, None, fd))), Continue(0);
    var cell := GateCell(Pointer(u));
    var t1 := Runner(fds, nextFd, Rewriting(u, cell.body, false));
    var t2 := Runner(fds, nextFd, Replacing(u, cell, false));
    RepointTurns(s, fds, nextFd, fd, u, v);
    OneTurn(schedule, s, Runner(fds, nextFd, Idle), c0);
    OneTurn(schedule + [Act(0, c0)], s, t1, c);
    OneTurn(schedule + [Act(0, c0)] + [Act(0, c)], s, t2, c);
    assert schedule + Repointing(fd, fd) == schedule + [Act(0, c0)] + [Act(0, c)] + [Act(0, c)];
  }

  lemma StartedWorks()
    ensures Run(FRESH, Started()) == Alone(FRESH_STORE, Runner(AT_ROOT, 1, Idle))
  {
    ChecksPass();
    assert Started()[..0] == [];
  }

  function LoopedStore(code: Function): Store {
    FRESH_STORE[1 := GateCell(Target(code))][2 := GateCell(Pointer(2))]
  }

  function LoopedFds(): map<nat, DirEntry> {
    AT_ROOT[1 := DirEntry(KGate, 1)][2 := DirEntry(KGate, 2)]
  }

  lemma LoopingWorks(code: Function)
    ensures Run(FRESH, Looping(code)) == Alone(LoopedStore(code), Runner(LoopedFds(), 3, Idle))
  {
    hide Creating, Repointing, Started, TakeTurn;
    StartedWorks();
    var s0, s1 := Started(), Started() + Creating(Drafted(Target(code), 0), 1);
    CreatingWorks(s0, FRESH_STORE, AT_ROOT, 1, Target(code), 0, 1);
    var store1 := FRESH_STORE[1 := GateCell(Target(code))];
    CreatingWorks(s1, store1, AT_ROOT[1 := DirEntry(KGate, 1)], 2, Pointer(1), 1, 2);
    var store2 := store1[2 := GateCell(Pointer(1))];
    RepointingWorks(s1 + Creating(Drafted(Pointer(1), 1), 2), store2, LoopedFds(), 3, 2, 2, 1);
    assert store2[2 := GateCell(Pointer(2))] == LoopedStore(code);
  }

  /** A turn of the resolution reads the gate, which leads to itself, and changes nothing. */
  lemma LoopedTurn(code: Function, pc: PC)
    ensures ResolveAt(Runner(LoopedFds(), 3, pc), LoopedStore(code), 2, NO_AUTHORITY)
            == Effect(Runner(LoopedFds(), 3, PC.Resolving(2, NO_AUTHORITY)), None, None)
  {
    ChecksPass();
    hide Implies, Lub;
  }

  lemma LoopedChoice(code: Function, pc: PC, c: Choice)
    requires (pc.Idle? && c == Begin(Resolve(2))) || (pc == PC.Resolving(2, NO_AUTHORITY) && c == Continue(0))
    ensures TakeTurn(Runner(LoopedFds(), 3, pc), LoopedStore(code), c)
            == Effect(Runner(LoopedFds(), 3, PC.Resolving(2, NO_AUTHORITY)), None, None)
  {
    LoopedTurn(code, pc);
    hide ResolveAt;
  }

  lemma {:induction false} ResolvingGoesOn(code: Function, n: nat)
    ensures Run(FRESH, Looping(code) + Resolving(n))
            == Alone(LoopedStore(code), Runner(LoopedFds(), 3, PC.Resolving(2, NO_AUTHORITY)))
  {
    hide TakeTurn, LoopedStore, LoopedFds, Looping;
    var s := LoopedStore(code);
    var going := Runner(LoopedFds(), 3, PC.Resolving(2, NO_AUTHORITY));
    if n == 0 {
      LoopingWorks(code);
      OneTurn(Looping(code), s, Runner(LoopedFds(), 3, Idle), Begin(Resolve(2)));
      LoopedChoice(code, Idle, Begin(Resolve(2)));
    } else {
      ResolvingGoesOn(code, n - 1);
      OneTurn(Looping(code) + Resolving(n - 1), s, going, Continue(0));
      LoopedChoice(code, going.pc, Continue(0));
      assert Looping(code) + Resolving(n) == Looping(code) + Resolving(n - 1) + [Act(0, Continue(0))];
    }
  }

  /**
   * From the store that `initialize` leaves, one run without any privilege makes a chain that never
   * ends, and a resolution of it is still under way after any number of turns.
   */
  lemma GatesCanLoop(code: Function, n: nat)
    ensures Initial(FRESH) && AllTerminate(FRESH_STORE)
    ensures !AllTerminate(Run(FRESH, Looping(code)).store)
    ensures var z := Run(FRESH, Looping(code) + Resolving(n)); 0 in z.threads && z.threads[0].pc.Resolving?
  {
    FreshStoreIsTyped();
    LoopingWorks(code);
    ResolvingGoesOn(code, n);
    var s := LoopedStore(code);
    assert NodeAt(s, 2, 1) == Some(2);
    forall k: nat ensures !Ends(s, 2, k) { LoopNeverEnds(s, 2, 1, k + 1); }
    assert 2 in Gates(s) && !Terminates(s, 2);
  }
}
