/**
 * Lock-freedom of the retry loops: an operation makes at most one more cas attempt than the number
 * of times other threads changed its cell, so it can only go on while others succeed.
 */
module Progress {
  import opened Wrappers
  import opened Labels
  import opened Objects
  import opened Protocol
  import opened StoreTyping

  datatype Watch = Watch(uid: Uid, seen: Cell)

  /** The cell whose last read value an operation is going to compare against. */
  function Watching(pc: PC): Option<Watch> {
    match pc
    case Editing(dir, _, prev, _) => Some(Watch(dir, prev))
    case Reserving(_, ForFacet(faceted, _, Some(seen))) => Some(Watch(faceted, Facets(seen)))
    case Filling(_, _, ForFacet(faceted, _, Some(seen))) => Some(Watch(faceted, Facets(seen)))
    case Appending(faceted, _, Some(seen), _) => Some(Watch(faceted, Facets(seen)))
    case _ => None
  }

  predicate Busy(y: Sys, i: Tid, u: Uid) {
    && i in y.threads
    && Watching(y.threads[i].pc).Some?
    && Watching(y.threads[i].pc).value.uid == u
  }

  /** Thread `i` would fail if it tried its cas now. */
  predicate Stale(y: Sys, i: Tid, u: Uid) {
    Busy(y, i, u) && Lookup(y.store, u) != Some(Watching(y.threads[i].pc).value.seen)
  }

  predicate Attempts(y: Sys, turn: Turn, i: Tid) {
    && turn.Act? && turn.tid == i && turn.choice.Continue? && i in y.threads
    && (y.threads[i].pc.Editing? || y.threads[i].pc.Appending?)
  }

  predicate Interferes(y: Sys, turn: Turn, i: Tid, u: Uid) {
    turn.tid != i && Lookup(Step(y, turn).store, u) != Lookup(y.store, u)
  }

  /** The cas attempts of thread `i` from turn `a` on. */
  function CountAttempts(y: Sys, schedule: seq<Turn>, i: Tid, a: nat): nat {
    if |schedule| <= a then 0
    else
      var before := schedule[..|schedule| - 1];
      CountAttempts(y, before, i, a) + if Attempts(Run(y, before), schedule[|schedule| - 1], i) then 1 else 0
  }

  /** The turns of other threads, from turn `a` on, that changed cell `u`. */
  function CountInterference(y: Sys, schedule: seq<Turn>, i: Tid, u: Uid, a: nat): nat {
    if |schedule| <= a then 0
    else
      var before := schedule[..|schedule| - 1];
      CountInterference(y, before, i, u, a)
      + if Interferes(Run(y, before), schedule[|schedule| - 1], i, u) then 1 else 0
  }

  /** A turn of the operation itself: a fresh cas succeeds, a failed one leaves a fresh value behind. */
  lemma OwnTurn(y: Sys, turn: Turn, i: Tid, u: Uid)
    requires Typed(y) && turn.Act? && turn.tid == i
    requires Busy(y, i, u) && Busy(Step(y, turn), i, u)
    ensures Attempts(y, turn, i) ==> Stale(y, i, u) && !Stale(Step(y, turn), i, u)
    ensures !Attempts(y, turn, i) ==> (Stale(Step(y, turn), i, u) <==> Stale(y, i, u))
  {
    var t := y.threads[i];
    assert ThreadTyped(y.store, t);
    match t.pc
    case Reserving(_, _) =>
    case Filling(_, _, _) =>
    case Editing(_, _, _, _) =>
    case Appending(_, _, _, _) =>
  }

  /**
   * While thread `i` is in one operation on cell `u`, its failed attempts, plus the one that would
   * fail now, are paid for by changes that other threads made to that cell.
   */
  lemma {:induction false} AttemptsArePaidFor(y: Sys, schedule: seq<Turn>, i: Tid, u: Uid, a: nat)
    requires Initial(y) && a <= |schedule|
    requires forall k | a <= k <= |schedule| :: Busy(Run(y, schedule[..k]), i, u)
    requires !Stale(Run(y, schedule[..a]), i, u)
    ensures CountAttempts(y, schedule, i, a) + (if Stale(Run(y, schedule), i, u) then 1 else 0)
              <= CountInterference(y, schedule, i, u, a)
  {
    assert schedule[..|schedule|] == schedule;
    if a < |schedule| {
      var before := schedule[..|schedule| - 1];
      var turn := schedule[|schedule| - 1];
      forall k | a <= k <= |before| ensures before[..k] == schedule[..k] {
      }
      AttemptsArePaidFor(y, before, i, u, a);
      InitialIsTyped(y);
      RunTyped(y, before);
      var z := Run(y, before);
      if turn.Act? && turn.tid == i {
        OwnTurn(z, turn, i, u);
      } else if EffectOf(z, turn).Some? {
        assert Step(z, turn).threads[i] == z.threads[i];
      }
    }
  }

  /** The attempt that may end the operation is at most one more than the interference so far. */
  lemma LockFree(y: Sys, schedule: seq<Turn>, last: Turn, i: Tid, u: Uid, a: nat)
    requires Initial(y) && a <= |schedule|
    requires forall k | a <= k <= |schedule| :: Busy(Run(y, schedule[..k]), i, u)
    requires !Stale(Run(y, schedule[..a]), i, u)
    ensures CountAttempts(y, schedule + [last], i, a) <= CountInterference(y, schedule, i, u, a) + 1
    ensures CountInterference(y, schedule, i, u, a) == 0 ==> !Stale(Run(y, schedule), i, u)
  {
    AttemptsArePaidFor(y, schedule, i, u, a);
    assert schedule[..|schedule|] == schedule;
    var all := schedule + [last];
    assert all[..|all| - 1] == schedule;
  }

  lemma BeginWatchesFresh(s: Store, t: Thread, op: Op)
    requires StoreTyped(s) && ThreadTyped(s, t) && t.pc.Idle?
    ensures var f := BeginOp(t, s, op);
            f.write.None? && (Watching(f.thread.pc).Some? ==>
              Lookup(s, Watching(f.thread.pc).value.uid) == Some(Watching(f.thread.pc).value.seen))
  {
  }

  lemma ContinueKeepsWatch(s: Store, t: Thread, coin: Uid)
    requires StoreTyped(s) && ThreadTyped(s, t)
    ensures var f := ContinueOp(t, s, coin);
            Watching(f.thread.pc).Some? ==>
              Watching(t.pc).Some? && Watching(t.pc).value.uid == Watching(f.thread.pc).value.uid
  {
    match t.pc
    case Reserving(_, _) =>
    case Filling(_, _, _) =>
    case _ =>
  }

  /** An operation that starts watching a cell has just read it. */
  lemma OperationsStartFresh(y: Sys, turn: Turn, i: Tid, u: Uid)
    requires Typed(y) && Busy(Step(y, turn), i, u) && !Busy(y, i, u)
    ensures !Stale(Step(y, turn), i, u)
  {
    if turn.Act? && turn.tid == i && i in y.threads {
      var t := y.threads[i];
      if turn.choice.Begin? {
        if t.pc.Idle? { BeginWatchesFresh(y.store, t, turn.choice.op); }
      } else {
        ContinueKeepsWatch(y.store, t, turn.choice.coin);
      }
    }
  }
}
