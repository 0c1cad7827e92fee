/**
 * What a turn can learn and what it may change: the labelled cells it reads, and the flow check
 * that stands before every write of a labelled cell.
 */
module Exposure {
  import opened Wrappers
  import opened Labels
  import opened Objects
  import opened Protocol
  import opened StoreTyping

  // ----- what a turn reads -----

  function FdUid(t: Thread, fd: nat): set<Uid> {
    if fd in t.fds then {t.fds[fd].uid} else {}
  }

  /** The labelled cells whose contents the thread sees on this turn. */
  function Reads(t: Thread, c: Choice): set<Uid> {
    match c
    case Begin(op) =>
      if !t.pc.Idle? then {}
      else (match op
            case OpenName(fd, _) => if fd in t.fds && t.fds[fd].kind.KDirectory? then FdUid(t, fd) else {}
            case Read(fd) => if fd in t.fds && !t.fds[fd].kind.KFaceted? then FdUid(t, fd) else {}
            case Link(fd, _, target) =>
              if fd in t.fds && target in t.fds && t.fds[fd].kind.KDirectory? then FdUid(t, fd) else {}
            case Unlink(fd, _) => if fd in t.fds && t.fds[fd].kind.KDirectory? then FdUid(t, fd) else {}
            case UpdateGate(fd, _) => if fd in t.fds && t.fds[fd].kind.KGate? then FdUid(t, fd) else {}
            case Resolve(fd) => if fd in t.fds && t.fds[fd].kind.KGate? then FdUid(t, fd) else {}
            case CallService(fd, _) => if fd in t.fds && t.fds[fd].kind.KService? then FdUid(t, fd) else {}
            case _ => {})
    case Continue(_) =>
      (match t.pc
       case Editing(dir, _, _, _) => {dir}
       case Resolving(target, _) => {target}
       case _ => {})
  }

  /** The facet lists the turn looks at; they carry no label. */
  function Peeks(t: Thread, c: Choice): set<Uid> {
    match c
    case Begin(OpenFacet(fd, _)) => if fd in t.fds && t.fds[fd].kind.KFaceted? then FdUid(t, fd) else {}
    case Begin(ListFacets(fd, _)) => if fd in t.fds && t.fds[fd].kind.KFaceted? then FdUid(t, fd) else {}
    case Continue(_) => if t.pc.Appending? then {t.pc.faceted} else {}
    case _ => {}
  }

  /** The cell whose label, but not whose contents, the turn looks at. */
  function Checks(t: Thread, c: Choice): set<Uid> {
    match c
    case Begin(Replace(fd, _)) => FdUid(t, fd)
    case Continue(_) => if t.pc.Rewriting? then {t.pc.uid} else {}
    case _ => {}
  }

  /** The two stores look the same to this turn. */
  predicate SameToTurn(s: Store, s': Store, t: Thread, c: Choice) {
    && (forall u | u in Reads(t, c) + Peeks(t, c) :: Lookup(s, u) == Lookup(s', u))
    && (forall u | u in Checks(t, c) ::
          && (u in s <==> u in s')
          && (u in s && s[u].Labeled? <==> u in s' && s'[u].Labeled?)
          && (u in s && s[u].Labeled? ==> s[u].tag == s'[u].tag && BodyKind(s[u].body) == BodyKind(s'[u].body)))
    && (c.Continue? ==> (c.coin in s <==> c.coin in s'))
  }

  /** A turn depends on nothing in the store but what it reads, peeks at or checks. */
  lemma TurnsDependOnReads(s: Store, s': Store, t: Thread, c: Choice)
    requires StoreTyped(s) && ThreadTyped(s, t) && StoreTyped(s') && ThreadTyped(s', t)
    requires SameToTurn(s, s', t, c)
    ensures TakeTurn(t, s, c) == TakeTurn(t, s', c)
  {
    if c.Begin? {
      if t.pc.Idle? { BeginDependsOnReads(s, s', t, c.op); }
    } else {
      match t.pc
      case Editing(dir, _, _, _) => assert dir in Reads(t, c);
      case Resolving(target, _) => assert target in Reads(t, c);
      case Appending(faceted, _, _, _) => assert faceted in Peeks(t, c);
      case Rewriting(uid, _, _) => assert uid in Checks(t, c);
      case _ =>
    }
  }

  lemma BeginDependsOnReads(s: Store, s': Store, t: Thread, op: Op)
    requires StoreTyped(s) && ThreadTyped(s, t) && StoreTyped(s') && ThreadTyped(s', t) && t.pc.Idle?
    requires SameToTurn(s, s', t, Begin(op))
    ensures BeginOp(t, s, op) == BeginOp(t, s', op)
  {
    hide Implies, Lub, Downgrade, Accumulate, FindFacet, Visible, Apply, Blocked;
    match op
    case OpenName(fd, _) => assert fd in t.fds ==> t.fds[fd].uid in FdUid(t, fd);
    case OpenFacet(fd, _) => assert fd in t.fds ==> t.fds[fd].uid in FdUid(t, fd);
    case ListFacets(fd, _) => assert fd in t.fds ==> t.fds[fd].uid in FdUid(t, fd);
    case Read(fd) => assert fd in t.fds ==> t.fds[fd].uid in FdUid(t, fd);
    case Link(fd, _, _) => assert fd in t.fds ==> t.fds[fd].uid in FdUid(t, fd);
    case Unlink(fd, _) => assert fd in t.fds ==> t.fds[fd].uid in FdUid(t, fd);
    case Replace(fd, _) => assert fd in t.fds ==> t.fds[fd].uid in FdUid(t, fd);
    case UpdateGate(fd, _) => assert fd in t.fds ==> t.fds[fd].uid in FdUid(t, fd);
    case Resolve(fd) => assert fd in t.fds ==> t.fds[fd].uid in FdUid(t, fd);
    case CallService(fd, _) => assert fd in t.fds ==> t.fds[fd].uid in FdUid(t, fd);
    case _ =>
  }

  // ----- what a turn may write -----

  /** The flow check that a pending write has already passed still stands. */
  predicate Checked(t: Thread) {
    match t.pc
    case Editing(_, _, prev, proposed) =>
      proposed.Labeled? && CanFlowToWith(t.current, proposed.tag, t.privilege)
    case Replacing(_, cell, _) =>
      cell.Labeled? && CanFlowToWith(t.current, cell.tag, t.privilege)
    case Reserving(cell, _) => Created(cell) ==> CanFlowToWith(t.current, cell.tag, t.privilege)
    case Filling(_, cell, _) => Created(cell) ==> CanFlowToWith(t.current, cell.tag, t.privilege)
    case _ => true
  }

  /** A new cell whose contents the thread chose. */
  predicate Created(c: Cell) {
    c.Labeled? && (c.body.GateBody? || c.body.ServiceBody?)
  }

  lemma TurnChecked(s: Store, t: Thread, c: Choice)
    requires StoreTyped(s) && ThreadTyped(s, t) && Checked(t)
    ensures Checked(TakeTurn(t, s, c).thread)
  {
    if c.Begin? {
      if t.pc.Idle? { BeginChecked(s, t, c.op); }
    } else {
      match t.pc
      case Editing(_, _, _, _) =>
      case _ =>
    }
  }

  lemma BeginChecked(s: Store, t: Thread, op: Op)
    requires StoreTyped(s) && ThreadTyped(s, t) && t.pc.Idle?
    ensures Checked(BeginOp(t, s, op).thread)
  {
    match op
    case CreateChecked(_, _) =>
    case Replace(_, _) =>
    case Link(_, _, _) =>
    case Unlink(_, _) =>
    case _ =>
  }

  ghost predicate AllChecked(y: Sys) {
    forall i | i in y.threads :: Checked(y.threads[i])
  }

  lemma {:induction false} RunChecked(y: Sys, schedule: seq<Turn>)
    requires Initial(y)
    ensures AllChecked(Run(y, schedule))
  {
    if schedule != [] {
      var before := schedule[..|schedule| - 1];
      RunChecked(y, before);
      InitialIsTyped(y);
      RunTyped(y, before);
      var z, turn := Run(y, before), schedule[|schedule| - 1];
      if EffectOf(z, turn).Some? { TurnChecked(z.store, z.threads[turn.tid], turn.choice); }
    }
  }

  /** Every turn that writes a filled labelled cell does so from a label that may flow to it. */
  lemma WritesNeedFlow(y: Sys, schedule: seq<Turn>, turn: Turn, u: Uid)
    requires Initial(y) && u in Run(y, schedule).store && Run(y, schedule).store[u].Labeled?
    requires EffectOf(Run(y, schedule), turn).Some?
    requires EffectOf(Run(y, schedule), turn).value.write.Some?
    requires EffectOf(Run(y, schedule), turn).value.write.value.uid == u
    ensures var z := Run(y, schedule);
            CanFlowToWith(z.threads[turn.tid].current, z.store[u].tag, z.threads[turn.tid].privilege)
  {
    InitialIsTyped(y);
    RunTyped(y, schedule);
    RunChecked(y, schedule);
    var z := Run(y, schedule);
    var t := z.threads[turn.tid];
    assert ThreadTyped(z.store, t) && Checked(t);
    if turn.choice.Begin? && t.pc.Idle? {
      BeginWritesNothing(z.store, t, turn.choice.op);
    }
  }

  lemma BeginWritesNothing(s: Store, t: Thread, op: Op)
    ensures BeginOp(t, s, op).write.None?
  {
  }

  // ----- labels only rise -----

  predicate CallsService(t: Thread, c: Choice) {
    t.pc.Idle? && c.Begin? && c.op.CallService?
  }

  /** Without a service call, what the current label cannot reach stays out of reach. */
  lemma LabelsOnlyRise(s: Store, t: Thread, c: Choice, target: Label)
    requires StoreTyped(s) && ThreadTyped(s, t)
    requires !CallsService(t, c) && !TakeTurn(t, s, c).thread.pc.Finished?
    requires CanFlowToWith(TakeTurn(t, s, c).thread.current, target, t.privilege)
    ensures CanFlowToWith(t.current, target, t.privilege)
  {
    var f := TakeTurn(t, s, c);
    if f.thread.current != t.current {
      var read: Label :| f.thread.current == Lub(read, t.current) || f.thread.current == Lub(t.current, read) by {
        RaisedBy(s, t, c);
      }
      LubIsLeast(read, t.current, target, t.privilege);
      LubIsLeast(t.current, read, target, t.privilege);
    }
  }

  lemma RaisedBy(s: Store, t: Thread, c: Choice)
    requires StoreTyped(s) && ThreadTyped(s, t)
    requires !CallsService(t, c) && !TakeTurn(t, s, c).thread.pc.Finished?
    requires TakeTurn(t, s, c).thread.current != t.current
    ensures exists read: Label ::
              || TakeTurn(t, s, c).thread.current == Lub(read, t.current)
              || TakeTurn(t, s, c).thread.current == Lub(t.current, read)
  {
    var after := TakeTurn(t, s, c).thread.current;
    if c.Begin? {
      match c.op
      case OpenName(fd, _) => assert after == Lub(s[t.fds[fd].uid].tag, t.current);
      case Read(fd) => assert after == Lub(s[t.fds[fd].uid].tag, t.current);
      case Link(fd, _, _) => assert after == Lub(s[t.fds[fd].uid].tag, t.current);
      case Unlink(fd, _) => assert after == Lub(s[t.fds[fd].uid].tag, t.current);
      case Resolve(fd) => assert after == Lub(s[t.fds[fd].uid].tag, t.current);
      case UpdateGate(fd, _) => assert after == Lub(s[t.fds[fd].uid].tag, t.current);
      case ListFacets(_, clearance) => assert after == Lub(t.current, clearance);
      case Taint(tag) => assert after == Lub(t.current, tag);
      case TakeReply(tag, _) => assert after == Lub(t.current, tag);
      case _ =>
    } else {
      match t.pc
      case Editing(dir, _, _, _) => assert after == Lub(s[dir].tag, t.current);
      case Resolving(target, _) => assert after == Lub(s[target].tag, t.current);
      case _ =>
    }
  }

  // ----- confinement of a whole run -----

  /** From turn `a` on, thread `i` calls no service. */
  ghost predicate NoServiceSince(y: Sys, schedule: seq<Turn>, i: Tid, a: nat) {
    forall k | a <= k < |schedule| && schedule[k].Act? && schedule[k].tid == i && i in Run(y, schedule[..k]).threads ::
      !CallsService(Run(y, schedule[..k]).threads[i], schedule[k].choice)
  }

  lemma PrivilegeIsFixed(t: Thread, s: Store, c: Choice)
    ensures TakeTurn(t, s, c).thread.privilege == t.privilege
    ensures t.pc.Finished? ==> TakeTurn(t, s, c) == Effect(t, None, None)
  {
  }

  /** The thread has left the labels that may flow to `target`, or its run is over. */
  ghost predicate Confined(y: Sys, i: Tid, target: Label) {
    && i in y.threads
    && (y.threads[i].pc.Finished? || !CanFlowToWith(y.threads[i].current, target, y.threads[i].privilege))
  }

  lemma {:induction false} StaysConfined(y: Sys, schedule: seq<Turn>, a: nat, i: Tid, target: Label)
    requires Initial(y) && a <= |schedule|
    requires Confined(Run(y, schedule[..a]), i, target) && NoServiceSince(y, schedule, i, a)
    ensures Confined(Run(y, schedule), i, target)
  {
    if a == |schedule| {
      assert schedule[..a] == schedule;
    } else {
      var before := schedule[..|schedule| - 1];
      assert before[..a] == schedule[..a];
      assert forall k | a <= k < |before| :: before[..k] == schedule[..k];
      StaysConfined(y, before, a, i, target);
      InitialIsTyped(y);
      RunTyped(y, before);
      var z, turn := Run(y, before), schedule[|schedule| - 1];
      assert schedule[..|schedule| - 1] == before;
      if turn.Act? && turn.tid == i {
        var t := z.threads[i];
        PrivilegeIsFixed(t, z.store, turn.choice);
        if !t.pc.Finished? && !TakeTurn(t, z.store, turn.choice).thread.pc.Finished?
           && CanFlowToWith(TakeTurn(t, z.store, turn.choice).thread.current, target, t.privilege) {
          LabelsOnlyRise(z.store, t, turn.choice, target);
        }
      }
    }
  }

  /**
   * Once a thread's label cannot flow to a cell's label even with its privilege, no later turn of
   * that thread writes the cell, unless it calls a service in between.
   */
  lemma WholeRunConfinement(y: Sys, schedule: seq<Turn>, a: nat, turn: Turn, u: Uid)
    requires Initial(y) && a <= |schedule| && turn.Act?
    requires u in Run(y, schedule[..a]).store && Run(y, schedule[..a]).store[u].Labeled?
    requires turn.tid in Run(y, schedule[..a]).threads
    requires var t := Run(y, schedule[..a]).threads[turn.tid];
             !CanFlowToWith(t.current, Run(y, schedule[..a]).store[u].tag, t.privilege)
    requires NoServiceSince(y, schedule, turn.tid, a)
    ensures u in Run(y, schedule).store
    ensures Step(Run(y, schedule), turn).store[u] == Run(y, schedule).store[u]
  {
    var target := Run(y, schedule[..a]).store[u].tag;
    StaysConfined(y, schedule, a, turn.tid, target);
    CellsOnlyEvolve(y, schedule, a);
    var z := Run(y, schedule);
    var f := EffectOf(z, turn).value;
    PrivilegeIsFixed(z.threads[turn.tid], z.store, turn.choice);
    if f.write.Some? && f.write.value.uid == u {
      WritesNeedFlow(y, schedule, turn, u);
    }
  }
}
