/**
 * What a resolution answers, with other threads re-writing gates in between: the conjunction of what
 * the gates that it read delegated when it read them, along a chain from the gate asked for to the
 * direct gate whose code it answers.
 */
module ResolutionAnswers {
  import opened Wrappers
  import opened Labels
  import opened Objects
  import opened Protocol
  import opened StoreTyping
  import Answers

  /** A gate as it was when it was read. */
  datatype Reading = Reading(uid: Uid, gate: Gate)

  function Ahead(s: Store, u: Uid): seq<Reading> {
    if u in s && Fits(s[u], KGate) then [Reading(u, s[u].body.gate)] else []
  }

  /** What the resolution that thread `i` is at has read so far, first to last. */
  function Readings(y: Sys, schedule: seq<Turn>, i: Tid): seq<Reading> {
    if schedule == [] then []
    else
      var before, turn := schedule[..|schedule| - 1], schedule[|schedule| - 1];
      var z := Run(y, before);
      if turn.Spawn? || turn.tid != i || i !in z.threads then Readings(y, before, i)
      else ReadOn(Readings(y, before, i), z.store, z.threads[i], turn.choice)
  }

  function ReadOn(was: seq<Reading>, s: Store, t: Thread, c: Choice): seq<Reading> {
    if c.Begin? then
      if !t.pc.Idle? then was
      else if c.op.Resolve? && c.op.fd in t.fds then Ahead(s, t.fds[c.op.fd].uid) else []
    else if t.pc.Resolving? then was + Ahead(s, t.pc.target) else was
  }

  /** Each gate but the last is a redirect, and leads to the next. */
  predicate IsChain(rs: seq<Reading>) {
    forall k | 0 <= k < |rs| - 1 :: rs[k].gate.Redirect? && rs[k + 1].uid == rs[k].gate.target
  }

  /** The authority is the conjunction of what the gates delegate; only redirects contribute declassification. */
  ghost predicate IsTotal(rs: seq<Reading>, a: Authority) {
    forall c: Component ::
      && (Implies(c, a.privilege) <==> forall k | 0 <= k < |rs| :: Implies(c, rs[k].gate.privilege))
      && (Implies(c, a.clearance) <==> forall k | 0 <= k < |rs| :: Implies(c, rs[k].gate.clearance))
      && (Implies(c, a.declassify) <==>
            forall k | 0 <= k < |rs| && rs[k].gate.Redirect? :: Implies(c, rs[k].gate.declassify))
  }

  lemma NothingIsTotal()
    ensures IsTotal([], NO_AUTHORITY)
  {
    forall c: Component ensures Implies(c, DC_TRUE) { TrueIsUnit(c); }
  }

  lemma OneMoreIsTotal(rs: seq<Reading>, a: Authority, r: Reading)
    requires IsTotal(rs, a)
    ensures IsTotal(rs + [r], Accumulate(a, r.gate))
  {
    var all := rs + [r];
    assert forall k | 0 <= k < |rs| :: all[k] == rs[k];
    assert all[|rs|] == r;
    forall c: Component
      ensures Implies(c, Accumulate(a, r.gate).privilege) <==>
                forall k | 0 <= k < |all| :: Implies(c, all[k].gate.privilege)
      ensures Implies(c, Accumulate(a, r.gate).clearance) <==>
                forall k | 0 <= k < |all| :: Implies(c, all[k].gate.clearance)
      ensures Implies(c, Accumulate(a, r.gate).declassify) <==>
                forall k | 0 <= k < |all| && all[k].gate.Redirect? :: Implies(c, all[k].gate.declassify)
    {
      ImpliesAnd(c, a.privilege, r.gate.privilege);
      ImpliesAnd(c, a.clearance, r.gate.clearance);
      ImpliesAnd(c, a.declassify, r.gate.declassify);
      hide Implies, And;
    }
  }

  /** The readings lead from the gate asked for to the one that is read next. */
  ghost predicate OnTheWay(rs: seq<Reading>, call: Answers.Call, t: Thread) {
    && t.pc.Resolving? && call.op.Resolve? && call.op.fd in t.fds && rs != [] && rs[0].uid == t.fds[call.op.fd].uid
    && IsChain(rs) && rs[|rs| - 1].gate.Redirect? && rs[|rs| - 1].gate.target == t.pc.target
    && IsTotal(rs, t.pc.authority)
  }

  /** The readings lead from the gate asked for to the code that is answered. */
  ghost predicate Arrived(rs: seq<Reading>, call: Answers.Call, t: Thread, a: Authority, code: Function) {
    && call.op.Resolve? && call.op.fd in t.fds && rs != [] && rs[0].uid == t.fds[call.op.fd].uid
    && IsChain(rs) && rs[|rs| - 1].gate.Direct? && rs[|rs| - 1].gate.code == code
    && IsTotal(rs, a) && Implies(t.privilege, a.clearance)
  }

  /** Reading one more gate goes on, arrives, or is refused. */
  lemma OneGate(rs: seq<Reading>, call: Answers.Call, s: Store, t: Thread, u: Uid, a: Authority)
    requires RefOk(s, DirEntry(KGate, u)) && IsTotal(rs, a) && IsChain(rs)
    requires call.op.Resolve? && call.op.fd in t.fds
    requires if rs == [] then u == t.fds[call.op.fd].uid
             else && rs[0].uid == t.fds[call.op.fd].uid
                  && rs[|rs| - 1].gate.Redirect? && rs[|rs| - 1].gate.target == u
    ensures var f, all := ResolveAt(t, s, u, a), rs + Ahead(s, u);
            && (f.thread.pc.Resolving? && f.outcome.None? ==> OnTheWay(all, call, f.thread))
            && (f.outcome.Some? && f.outcome.value.Resolved? ==>
                  Arrived(all, call, t, f.outcome.value.authority, f.outcome.value.code))
  {
    hide Implies;
    OneMoreIsTotal(rs, a, Reading(u, s[u].body.gate));
    hide IsTotal, Accumulate;
  }

  lemma TurnLeadsOn(rs: seq<Reading>, call: Answers.Call, s: Store, t: Thread, c: Choice)
    requires StoreTyped(s) && ThreadTyped(s, t)
    requires if c.Begin? then t.pc.Idle? && call.op == c.op else t.pc.Resolving? && OnTheWay(rs, call, t)
    ensures var f, all := TakeTurn(t, s, c), ReadOn(rs, s, t, c);
            && (f.thread.pc.Resolving? ==> OnTheWay(all, call, f.thread))
            && (f.outcome.Some? && f.outcome.value.Resolved? ==>
                  Arrived(all, call, t, f.outcome.value.authority, f.outcome.value.code))
  {
    if c.Begin? {
      OnlyResolutionsResolve(s, t, c.op);
      if c.op.Resolve? && Answers.Holds(t, c.op.fd, KGate) {
        NothingIsTotal();
        assert RefOk(s, t.fds[c.op.fd]) && IsChain([]);
        OneGate([], call, s, t, t.fds[c.op.fd].uid, NO_AUTHORITY);
        assert [] + Ahead(s, t.fds[c.op.fd].uid) == Ahead(s, t.fds[c.op.fd].uid);
        hide ResolveAt, OnTheWay, Arrived, StoreTyped, ThreadTyped;
      }
    } else {
      OneGate(rs, call, s, t, t.pc.target, t.pc.authority);
      hide ResolveAt, OnTheWay, Arrived, StoreTyped, ThreadTyped;
    }
  }

  lemma OnlyResolutionsResolve(s: Store, t: Thread, op: Op)
    requires StoreTyped(s) && ThreadTyped(s, t) && t.pc.Idle?
    ensures var f := BeginOp(t, s, op);
            f.thread.pc.Resolving? || (f.outcome.Some? && f.outcome.value.Resolved?) ==>
              op.Resolve? && Answers.Holds(t, op.fd, KGate) && f == ResolveAt(t, s, t.fds[op.fd].uid, NO_AUTHORITY)
    ensures op.Resolve? && Answers.Holds(t, op.fd, KGate) ==>
              BeginOp(t, s, op) == ResolveAt(t, s, t.fds[op.fd].uid, NO_AUTHORITY)
  {
  }

  lemma OthersDoNotResolve(s: Store, t: Thread, coin: Uid)
    requires StoreTyped(s) && ThreadTyped(s, t) && !t.pc.Resolving?
    ensures var f := ContinueOp(t, s, coin);
            !f.thread.pc.Resolving? && !(f.outcome.Some? && f.outcome.value.Resolved?)
  {
    match t.pc
    case Editing(_, _, _, _) =>
    case _ =>
  }

  lemma OthersAddNothing(y: Sys, before: seq<Turn>, turn: Turn, i: Tid)
    requires !(turn.Act? && turn.tid == i) && i in Run(y, before + [turn]).threads
    requires Run(y, before + [turn]).threads[i].pc.Resolving?
    ensures i in Run(y, before).threads && Run(y, before).threads[i] == Run(y, before + [turn]).threads[i]
    ensures Readings(y, before + [turn], i) == Readings(y, before, i)
    ensures Answers.CallOf(y, before + [turn], i) == Answers.CallOf(y, before, i)
  {
    hide TakeTurn, ReadOn;
    assert (before + [turn])[..|before|] == before;
    Answers.OthersKeep(Run(y, before), turn, i);
  }

  lemma {:induction false} RunLeads(y: Sys, schedule: seq<Turn>, i: Tid)
    requires Initial(y) && i in Run(y, schedule).threads && Run(y, schedule).threads[i].pc.Resolving?
    ensures Answers.CallOf(y, schedule, i).Some?
    ensures OnTheWay(Readings(y, schedule, i), Answers.CallOf(y, schedule, i).value, Run(y, schedule).threads[i])
    decreases |schedule|, 0
  {
    assert schedule != [];
    var before, turn := schedule[..|schedule| - 1], schedule[|schedule| - 1];
    assert schedule == before + [turn];
    if turn.Act? && turn.tid == i {
      OwnTurnHappens(y, before, turn);
      OwnTurnLeads(y, before, turn);
      hide *;
    } else {
      OthersAddNothing(y, before, turn, i);
      hide *;
      RunLeads(y, before, i);
    }
  }

  lemma OwnTurnHappens(y: Sys, before: seq<Turn>, turn: Turn)
    requires turn.Act? && turn.tid in Run(y, before + [turn]).threads
    ensures turn.tid in Run(y, before).threads
    ensures TakeTurn(Run(y, before).threads[turn.tid], Run(y, before).store, turn.choice).thread
            == Run(y, before + [turn]).threads[turn.tid]
  {
    hide TakeTurn;
    assert (before + [turn])[..|before|] == before;
  }

  /** A turn of the thread itself goes on with the resolution, or begins it, or arrives. */
  lemma {:induction false} OwnTurnLeads(y: Sys, before: seq<Turn>, turn: Turn)
    requires Initial(y) && turn.Act? && turn.tid in Run(y, before).threads
    requires var f := TakeTurn(Run(y, before).threads[turn.tid], Run(y, before).store, turn.choice);
             f.thread.pc.Resolving? || (f.outcome.Some? && f.outcome.value.Resolved?)
    ensures var all, t := before + [turn], Run(y, before).threads[turn.tid];
            var call, f := Answers.CallOf(y, all, turn.tid), TakeTurn(t, Run(y, before).store, turn.choice);
            && call.Some?
            && (f.thread.pc.Resolving? ==> OnTheWay(Readings(y, all, turn.tid), call.value, f.thread))
            && (f.outcome.Some? && f.outcome.value.Resolved? ==>
                  Arrived(Readings(y, all, turn.tid), call.value, t, f.outcome.value.authority, f.outcome.value.code))
    decreases |before|, 1
  {
    hide TakeTurn, OnTheWay, Arrived, StoreTyped, ThreadTyped, Initial, ReadOn, Evolves, Step;
    var z, all, c := Run(y, before), before + [turn], turn.choice;
    var t, rs := z.threads[turn.tid], Readings(y, before, turn.tid);
    assert all[..|all| - 1] == before;
    assert Readings(y, all, turn.tid) == ReadOn(rs, z.store, t, c);
    InitialIsTyped(y);
    RunTyped(y, before);
    assert ThreadTyped(z.store, t);
    BusyThreadsIgnoreCalls(z.store, t, c);
    if c.Begin? && t.pc.Idle? {
      TurnLeadsOn(rs, Answers.Call(c.op, t, z.store), z.store, t, c);
    } else if t.pc.Resolving? {
      RunLeads(y, before, turn.tid);
      var call := Answers.CallOf(y, before, turn.tid).value;
      assert Answers.CallOf(y, all, turn.tid) == Some(call);
      if c.Begin? {
        NothingRead(rs, z.store, t, c);
      } else {
        TurnLeadsOn(rs, call, z.store, t, c);
      }
    } else {
      OthersDoNotResolve(z.store, t, if c.Continue? then c.coin else 0);
      ContinueTurn(z.store, t, c);
    }
  }

  lemma BusyThreadsIgnoreCalls(s: Store, t: Thread, c: Choice)
    ensures c.Begin? && !t.pc.Idle? ==> TakeTurn(t, s, c) == Effect(t, None, None)
  {
  }

  lemma ContinueTurn(s: Store, t: Thread, c: Choice)
    ensures c.Continue? ==> TakeTurn(t, s, c) == ContinueOp(t, s, c.coin)
  {
  }

  lemma NothingRead(rs: seq<Reading>, s: Store, t: Thread, c: Choice)
    requires c.Begin? && !t.pc.Idle?
    ensures ReadOn(rs, s, t, c) == rs
  {
  }

  /**
   * Under every interleaving: the authority that a resolution answers is the conjunction of what a
   * chain of gates, from the one asked for to the one whose code is answered, delegated when each of
   * them was read; and the run meets the clearance of all of them.
   */
  lemma ResolvedIsTheChain(y: Sys, schedule: seq<Turn>, turn: Turn, a: Authority, code: Function)
    requires Initial(y) && Answers.AnswerAt(y, schedule, turn) == Some(Resolved(a, code))
    ensures var call, rs := Answers.CallOf(y, schedule + [turn], turn.tid), Readings(y, schedule + [turn], turn.tid);
            call.Some? && Arrived(rs, call.value, Run(y, schedule).threads[turn.tid], a, code)
  {
    hide TakeTurn, Arrived, OnTheWay;
    OwnTurnLeads(y, schedule, turn);
  }
}
