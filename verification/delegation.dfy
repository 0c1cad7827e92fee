/**
 * No amplification: whatever the history of gate and service creations and replacements, the
 * privilege that resolving a gate yields is implied by the conjunction of the privileges of the last
 * writers of the gates on the chain, and a service's privilege by that of its own last writer. The
 * declassification it yields is implied by the privileges of those who created the redirects on the
 * chain, because no update changes it.
 */
module Delegation {
  import opened Wrappers
  import opened Labels
  import opened Objects
  import opened Protocol
  import opened StoreTyping
  import opened Exposure

  // ----- who wrote what -----

  /** A privilege is answered for by the last writer, a declassification by the creator. */
  datatype Aspect = Privilege | Declassification

  /** What a gate or service hands out in this respect. */
  function Share(k: Aspect, b: Body): Component {
    if k.Privilege? then Delegated(b) else if b.GateBody? then b.gate.declassify else DC_TRUE
  }

  /** What a resolution has collected in this respect. */
  function Collected(k: Aspect, a: Authority): Component {
    if k.Privilege? then a.privilege else a.declassify
  }

  /** Whether a gate on the chain adds to it. */
  predicate Adds(k: Aspect, g: Gate) {
    k.Privilege? || g.Redirect?
  }

  /** The privilege of the thread that answers for each gate and service. */
  type Backers = map<Uid, Component>

  function BackerTurn(k: Aspect, w: Backers, z: Sys, turn: Turn): Backers {
    var e := EffectOf(z, turn);
    if e.Some? && e.value.write.Some? && Created(e.value.write.value.cell)
       && (k.Privilege? || z.threads[turn.tid].pc.Filling?)
    then w[e.value.write.value.uid := z.threads[turn.tid].privilege]
    else w
  }

  /** Those who answer after a schedule, given those for the gates and services that were there before it. */
  function BackersOf(k: Aspect, y: Sys, w: Backers, schedule: seq<Turn>): Backers {
    if schedule == [] then w
    else
      var before := schedule[..|schedule| - 1];
      BackerTurn(k, BackersOf(k, y, w, before), Run(y, before), schedule[|schedule| - 1])
  }

  /** The gate that this turn of a resolution reads. */
  function GateRead(t: Thread, c: Choice): Option<Uid> {
    if c.Begin? && t.pc.Idle? && c.op.Resolve? && c.op.fd in t.fds then Some(t.fds[c.op.fd].uid)
    else if c.Continue? && t.pc.Resolving? then Some(t.pc.target)
    else None
  }

  /** What the gate at `u` adds to the conjunction of privileges along a chain. */
  function Addition(k: Aspect, w: Backers, s: Store, u: Uid): Component {
    if u in w && u in s && Fits(s[u], KGate) && Adds(k, s[u].body.gate) then w[u] else DC_TRUE
  }

  /** The conjunction of the privileges of those who answer for the chain that thread `i` is resolving. */
  function ChainOf(k: Aspect, y: Sys, w: Backers, schedule: seq<Turn>, i: Tid): Component {
    if schedule == [] then DC_TRUE
    else
      var before := schedule[..|schedule| - 1];
      var z, turn := Run(y, before), schedule[|schedule| - 1];
      var chain := ChainOf(k, y, w, before, i);
      if turn.Spawn? || turn.tid != i || i !in z.threads then chain
      else
        var u := GateRead(z.threads[i], turn.choice);
        if u.None? then chain
        else
          And(if turn.choice.Begin? then DC_TRUE else chain, Addition(k, BackersOf(k, y, w, before), z.store, u.value))
  }

  // ----- the invariant -----

  predicate CellBacked(k: Aspect, w: Backers, u: Uid, c: Cell) {
    Created(c) ==> u in w && Implies(w[u], Share(k, c.body))
  }

  /** A new or rewritten gate or service hands out no more than its thread holds; declassification only when new. */
  predicate PendingBacked(k: Aspect, t: Thread) {
    match t.pc
    case Reserving(cell, _) => Created(cell) ==> Implies(t.privilege, Share(k, cell.body))
    case Filling(_, cell, _) => Created(cell) ==> Implies(t.privilege, Share(k, cell.body))
    case Replacing(_, cell, _) => k.Privilege? && Created(cell) ==> Implies(t.privilege, Share(k, cell.body))
    case _ => true
  }

  ghost predicate Backed(k: Aspect, w: Backers, z: Sys) {
    && (forall u | u in z.store :: CellBacked(k, w, u, z.store[u]))
    && (forall i | i in z.threads :: PendingBacked(k, z.threads[i]))
  }

  lemma BeginBacked(k: Aspect, s: Store, t: Thread, op: Op)
    requires StoreTyped(s) && ThreadTyped(s, t) && t.pc.Idle?
    ensures PendingBacked(k, BeginOp(t, s, op).thread)
  {
    TrueIsUnit(t.privilege);
    match op
    case CreateChecked(_, _) =>
    case Replace(_, _) =>
    case _ =>
  }

  lemma TurnBacked(k: Aspect, s: Store, t: Thread, c: Choice)
    requires StoreTyped(s) && ThreadTyped(s, t) && PendingBacked(k, t)
    ensures var f := TakeTurn(t, s, c);
            && PendingBacked(k, f.thread) && f.thread.privilege == t.privilege
            && (f.write.Some? && Created(f.write.value.cell) ==>
                  if k.Privilege? || t.pc.Filling? then Implies(t.privilege, Share(k, f.write.value.cell.body))
                  else RewritesShape(k, s, f.write.value))
  {
    PrivilegeIsFixed(t, s, c);
    TrueIsUnit(t.privilege);
    if c.Begin? {
      BeginWritesNothing(s, t, c.op);
      if t.pc.Idle? { BeginBacked(k, s, t, c.op); }
    } else {
      match t.pc
      case Editing(_, _, _, _) =>
      case _ =>
    }
  }

  /** A replacement hands out the declassification that was there. */
  predicate RewritesShape(k: Aspect, s: Store, w: Update) {
    w.cell.Labeled? && w.uid in s && Created(s[w.uid])
    && Share(Declassification, s[w.uid].body) == Share(Declassification, w.cell.body)
  }

  lemma {:induction false} RunBacked(k: Aspect, y: Sys, w: Backers, schedule: seq<Turn>)
    requires Initial(y) && Backed(k, w, y)
    ensures Backed(k, BackersOf(k, y, w, schedule), Run(y, schedule))
  {
    if schedule != [] {
      var before := schedule[..|schedule| - 1];
      RunBacked(k, y, w, before);
      InitialIsTyped(y);
      RunTyped(y, before);
      var z, turn := Run(y, before), schedule[|schedule| - 1];
      if EffectOf(z, turn).Some? {
        TurnBacked(k, z.store, z.threads[turn.tid], turn.choice);
        StepBacked(k, BackersOf(k, y, w, before), z, turn);
      }
    }
  }

  lemma StepBacked(k: Aspect, w: Backers, z: Sys, turn: Turn)
    requires Backed(k, w, z) && EffectOf(z, turn).Some?
    requires var t, f := z.threads[turn.tid], EffectOf(z, turn).value;
             && PendingBacked(k, f.thread)
             && (f.write.Some? && Created(f.write.value.cell) ==>
                   if k.Privilege? || t.pc.Filling? then Implies(t.privilege, Share(k, f.write.value.cell.body))
                   else RewritesShape(k, z.store, f.write.value))
    ensures Backed(k, BackerTurn(k, w, z, turn), Step(z, turn))
  {
    hide TakeTurn, Implies;
    var w', z' := BackerTurn(k, w, z, turn), Step(z, turn);
    forall u | u in z'.store ensures CellBacked(k, w', u, z'.store[u]) {
      if u in z.store { assert CellBacked(k, w, u, z.store[u]); }
    }
  }

  // ----- resolution -----

  /** A step of a resolution reads one gate and adds its privilege. */
  lemma ResolveAdds(s: Store, t: Thread, c: Choice)
    requires StoreTyped(s) && ThreadTyped(s, t)
    ensures var f := TakeTurn(t, s, c);
            var after := if f.outcome.Some? && f.outcome.value.Resolved? then Some(f.outcome.value.authority)
                         else if f.thread.pc.Resolving? && !(f.thread == t && GateRead(t, c).None?)
                         then Some(f.thread.pc.authority)
                         else None;
            after.Some? ==>
              && GateRead(t, c).Some? && RefOk(s, DirEntry(KGate, GateRead(t, c).value))
              && after.value == Accumulate(if c.Begin? then NO_AUTHORITY else t.pc.authority,
                                           s[GateRead(t, c).value].body.gate)
    ensures var f := TakeTurn(t, s, c); f.thread.pc.Resolving? && f.outcome.Some? ==> !f.outcome.value.Resolved?
  {
    if c.Begin? {
      if t.pc.Idle? { BeginResolveAdds(s, t, c.op); }
    } else {
      match t.pc
      case Editing(_, _, _, _) =>
      case _ =>
    }
  }

  lemma BeginResolveAdds(s: Store, t: Thread, op: Op)
    requires StoreTyped(s) && ThreadTyped(s, t) && t.pc.Idle?
    ensures var f := BeginOp(t, s, op);
            f.thread.pc.Resolving? || (f.outcome.Some? && f.outcome.value.Resolved?) ==>
              && op.Resolve? && op.fd in t.fds && t.fds[op.fd].kind.KGate?
              && f == ResolveAt(t, s, t.fds[op.fd].uid, NO_AUTHORITY)
  {
  }

  lemma AccumulateBacked(k: Aspect, chain: Component, w: Component, a: Authority, g: Gate)
    requires Implies(chain, Collected(k, a)) && (Adds(k, g) ==> Implies(w, Share(k, GateBody(g))))
    ensures Implies(And(chain, if Adds(k, g) then w else DC_TRUE), Collected(k, Accumulate(a, g)))
  {
    if Adds(k, g) { AndMonotone(chain, Collected(k, a), w, Share(k, GateBody(g))); }
    TrueIsUnit(chain);
  }

  lemma {:induction false} RunChained(k: Aspect, y: Sys, w: Backers, schedule: seq<Turn>, i: Tid)
    requires Initial(y) && Backed(k, w, y) && i in Run(y, schedule).threads
    requires Run(y, schedule).threads[i].pc.Resolving?
    ensures Implies(ChainOf(k, y, w, schedule, i), Collected(k, Run(y, schedule).threads[i].pc.authority))
    decreases |schedule|, 0
  {
    hide TakeTurn, Implies, Accumulate, Addition;
    var before := schedule[..|schedule| - 1];
    var z, turn := Run(y, before), schedule[|schedule| - 1];
    assert schedule == before + [turn];
    InitialIsTyped(y);
    RunTyped(y, before);
    if turn.Act? && turn.tid == i {
      var t := z.threads[i];
      ResolveAdds(z.store, t, turn.choice);
      if GateRead(t, turn.choice).Some? {
        GateAdds(k, y, w, before, turn, i);
      } else {
        RunChained(k, y, w, before, i);
      }
    } else {
      RunChained(k, y, w, before, i);
    }
  }

  /** The gate read at this turn is paid for by whoever answers for it. */
  lemma {:induction false} GateAdds(k: Aspect, y: Sys, w: Backers, before: seq<Turn>, turn: Turn, i: Tid)
    requires Initial(y) && Backed(k, w, y) && turn.Act? && turn.tid == i && i in Run(y, before).threads
    requires GateRead(Run(y, before).threads[i], turn.choice).Some?
    requires RefOk(Run(y, before).store, DirEntry(KGate, GateRead(Run(y, before).threads[i], turn.choice).value))
    ensures var z := Run(y, before);
            var t := z.threads[i];
            Implies(ChainOf(k, y, w, before + [turn], i),
                    Collected(k, Accumulate(if turn.choice.Begin? then NO_AUTHORITY else t.pc.authority,
                                            z.store[GateRead(t, turn.choice).value].body.gate)))
    decreases |before|, 1
  {
    hide Implies, TakeTurn;
    var z := Run(y, before);
    var t := z.threads[i];
    var u := GateRead(t, turn.choice).value;
    var wz := BackersOf(k, y, w, before);
    RunBacked(k, y, w, before);
    assert CellBacked(k, wz, u, z.store[u]);
    assert (before + [turn])[..|before + [turn]| - 1] == before;
    if turn.choice.Begin? {
      ImpliesRefl(DC_TRUE);
      AccumulateBacked(k, DC_TRUE, wz[u], NO_AUTHORITY, z.store[u].body.gate);
    } else {
      RunChained(k, y, w, before, i);
      AccumulateBacked(k, ChainOf(k, y, w, before, i), wz[u], t.pc.authority, z.store[u].body.gate);
    }
  }

  /** What a resolution answers is implied by the privileges of those who answer for the gates it read. */
  lemma ResolutionIsBacked(k: Aspect, y: Sys, w: Backers, schedule: seq<Turn>, turn: Turn, a: Authority, code: Function)
    requires Initial(y) && Backed(k, w, y)
    requires EffectOf(Run(y, schedule), turn).Some?
    requires EffectOf(Run(y, schedule), turn).value.outcome == Some(Resolved(a, code))
    ensures Implies(ChainOf(k, y, w, schedule + [turn], turn.tid), Collected(k, a))
  {
    hide Implies;
    InitialIsTyped(y);
    RunTyped(y, schedule);
    var z := Run(y, schedule);
    ResolveAdds(z.store, z.threads[turn.tid], turn.choice);
    GateAdds(k, y, w, schedule, turn, turn.tid);
  }

  /** The privilege answered is implied by the privileges of the last writers of the gates on the chain. */
  lemma NoAmplification(y: Sys, w: Backers, schedule: seq<Turn>, turn: Turn, a: Authority, code: Function)
    requires Initial(y) && Backed(Privilege, w, y)
    requires EffectOf(Run(y, schedule), turn).Some?
    requires EffectOf(Run(y, schedule), turn).value.outcome == Some(Resolved(a, code))
    ensures Implies(ChainOf(Privilege, y, w, schedule + [turn], turn.tid), a.privilege)
  {
    ResolutionIsBacked(Privilege, y, w, schedule, turn, a, code);
  }

  /** The declassification answered is implied by the privileges of the creators of the redirects on the chain. */
  lemma DeclassificationIsBacked(y: Sys, w: Backers, schedule: seq<Turn>, turn: Turn, a: Authority, code: Function)
    requires Initial(y) && Backed(Declassification, w, y)
    requires EffectOf(Run(y, schedule), turn).Some?
    requires EffectOf(Run(y, schedule), turn).value.outcome == Some(Resolved(a, code))
    ensures Implies(ChainOf(Declassification, y, w, schedule + [turn], turn.tid), a.declassify)
  {
    ResolutionIsBacked(Declassification, y, w, schedule, turn, a, code);
  }

  /** In every reachable state a service delegates no more than its last writer held; so does each single gate. */
  lemma ServicesAreBacked(y: Sys, w: Backers, schedule: seq<Turn>, u: Uid)
    requires Initial(y) && Backed(Privilege, w, y)
    requires u in Run(y, schedule).store && Created(Run(y, schedule).store[u])
    ensures u in BackersOf(Privilege, y, w, schedule)
    ensures Implies(BackersOf(Privilege, y, w, schedule)[u], Delegated(Run(y, schedule).store[u].body))
  {
    RunBacked(Privilege, y, w, schedule);
    assert CellBacked(Privilege, BackersOf(Privilege, y, w, schedule), u, Run(y, schedule).store[u]);
  }

  /** From its creation on a gate stays direct or redirect, and keeps its declassification. */
  lemma GatesKeepTheirShape(y: Sys, schedule: seq<Turn>, k: nat, u: Uid)
    requires Initial(y) && k <= |schedule| && RefOk(Run(y, schedule[..k]).store, DirEntry(KGate, u))
    ensures RefOk(Run(y, schedule).store, DirEntry(KGate, u))
    ensures var g, g' := Run(y, schedule[..k]).store[u].body.gate, Run(y, schedule).store[u].body.gate;
            (g.Redirect? <==> g'.Redirect?) && g.declassify == g'.declassify
  {
    CellsOnlyEvolve(y, schedule, k);
    assert CellEvolves(Run(y, schedule[..k]).store[u], Run(y, schedule).store[u]);
  }
}
