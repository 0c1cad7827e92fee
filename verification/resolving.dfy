/**
 * Progress of gate resolution while other threads move the gates: as long as nobody closes a loop, a
 * resolution reads at most as many gates as there are, once more for each time that some gate is
 * re-pointed under way. Creating gates and rewriting them in place does not count.
 */
module ResolutionProgress {
  import opened Wrappers
  import opened Labels
  import opened Objects
  import opened Protocol
  import opened StoreTyping
  import opened GateResolution

  predicate Resolves(z: Sys, i: Tid) {
    i in z.threads && z.threads[i].pc.Resolving?
  }

  /** Thread `i` reads a gate, the first or a later one of a chain. */
  predicate ReadsGate(z: Sys, turn: Turn, i: Tid) {
    && turn.Act? && turn.tid == i && i in z.threads
    && if turn.choice.Begin? then z.threads[i].pc.Idle? && turn.choice.op.Resolve? else z.threads[i].pc.Resolving?
  }

  /** Some gate leads elsewhere after the turn. */
  ghost predicate Repoints(z: Sys, turn: Turn) {
    exists u :: u in Gates(z.store) && Target(Step(z, turn).store, u) != Target(z.store, u)
  }

  function CountReads(y: Sys, schedule: seq<Turn>, i: Tid, a: nat): nat {
    if |schedule| <= a then 0
    else
      var before := schedule[..|schedule| - 1];
      CountReads(y, before, i, a) + if ReadsGate(Run(y, before), schedule[|schedule| - 1], i) then 1 else 0
  }

  ghost function CountRepoints(y: Sys, schedule: seq<Turn>, a: nat): nat {
    if |schedule| <= a then 0
    else
      var before := schedule[..|schedule| - 1];
      CountRepoints(y, before, a) + if Repoints(Run(y, before), schedule[|schedule| - 1]) then 1 else 0
  }

  // ----- chains that others move -----

  /** A chain does not notice a turn that leaves the targets of its gates alone. */
  lemma {:induction false} ChainSame(s: Store, s': Store, u: Uid, n: nat)
    requires StoreTyped(s) && u in Gates(s)
    requires forall v | v in Gates(s) :: Target(s', v) == Target(s, v)
    ensures NodeAt(s', u, n) == NodeAt(s, u, n)
    decreases n
  {
    if n > 0 && Target(s, u).Some? {
      NodesAreGates(s, u, 1);
      assert NodeAt(s, u, 1) == Target(s, u);
      ChainSame(s, s', Target(s, u).value, n - 1);
    }
  }

  lemma {:induction false} SubsetIsSmaller<T>(a: set<T>, b: set<T>)
    requires a <= b
    ensures |a| <= |b|
  {
    if x :| x in a {
      SubsetIsSmaller(a - {x}, b - {x});
    }
  }

  lemma GatesOnlyGrow(s: Store, s': Store)
    requires Evolves(s, s')
    ensures Gates(s) <= Gates(s') && |Gates(s)| <= |Gates(s')|
  {
    forall u | u in Gates(s) ensures u in Gates(s') { assert CellEvolves(s[u], s'[u]); }
    SubsetIsSmaller(Gates(s), Gates(s'));
  }

  /** All gates once, and once more for each re-pointing. */
  function Budget(gates: nat, repoints: nat): nat {
    (repoints + 1) * gates
  }

  lemma BudgetGrows(gates: nat, gates': nat, repoints: nat)
    requires gates <= gates'
    ensures Budget(gates, repoints) <= Budget(gates', repoints)
    ensures Budget(gates', repoints + 1) == Budget(gates', repoints) + gates'
    ensures Budget(gates, 0) == gates
  {
  }

  /** What is left of the chain fits in what is left of the budget. */
  ghost predicate InReach(z: Sys, i: Tid, passes: nat, repoints: nat) {
    var budget := Budget(|Gates(z.store)|, repoints);
    Resolves(z, i) && passes < budget && Ends(z.store, z.threads[i].pc.target, budget - passes - 1)
  }

  // ----- one turn -----

  lemma FirstRead(z: Sys, turn: Turn, i: Tid)
    requires Typed(z) && AllTerminate(z.store)
    requires i in z.threads && !Resolves(z, i) && Resolves(Step(z, turn), i)
    ensures ReadsGate(z, turn, i) && !Repoints(z, turn) && InReach(Step(z, turn), i, 1, 0)
  {
    var t := z.threads[i];
    assert turn.Act? && turn.tid == i;
    StartsResolving(z.store, t, turn.choice);
    var u := t.fds[turn.choice.op.fd].uid;
    assert RefOk(z.store, t.fds[turn.choice.op.fd]);
    TerminatesIffAcyclic(z.store, u);
    BudgetGrows(|Gates(z.store)|, |Gates(z.store)|, 0);
    var target := Target(z.store, u).value;
    assert NodeAt(z.store, u, 1) == Some(target);
    NodeSplit(z.store, u, 1, |Gates(z.store)| - 1);
  }

  /** A turn after which a thread is resolving, and was not before, begins a resolution of a redirect. */
  lemma StartsResolving(s: Store, t: Thread, c: Choice)
    requires StoreTyped(s) && ThreadTyped(s, t) && !t.pc.Resolving? && TakeTurn(t, s, c).thread.pc.Resolving?
    ensures t.pc.Idle? && c.Begin? && c.op.Resolve? && c.op.fd in t.fds && t.fds[c.op.fd].kind.KGate?
    ensures Target(s, t.fds[c.op.fd].uid) == Some(TakeTurn(t, s, c).thread.pc.target)
    ensures TakeTurn(t, s, c).write.None?
  {
    if c.Begin? {
      match c.op
      case Resolve(_) =>
      case _ =>
    } else {
      match t.pc
      case Editing(_, _, _, _) =>
      case _ =>
    }
  }

  lemma OwnTurn(z: Sys, turn: Turn, i: Tid, passes: nat, repoints: nat)
    requires Typed(z) && InReach(z, i, passes, repoints) && turn.tid == i && Resolves(Step(z, turn), i)
    ensures !Repoints(z, turn)
    ensures InReach(Step(z, turn), i, passes + if ReadsGate(z, turn, i) then 1 else 0, repoints)
  {
    if ReadsGate(z, turn, i) {
      var t := z.threads[i];
      var left := Budget(|Gates(z.store)|, repoints) - passes - 1;
      assert ThreadTyped(z.store, t) && t.pc.target in Gates(z.store);
      assert Target(z.store, t.pc.target) == Some(Step(z, turn).threads[i].pc.target);
      assert NodeAt(z.store, t.pc.target, 1).Some?;
      if left == 0 { assert false; }
      NodeSplit(z.store, t.pc.target, 1, left);
    }
  }

  /** Wherever the chain leads now, all gates once more are enough for it. */
  lemma EnoughAfterRepointing(s: Store, target: Uid, left: nat)
    requires StoreTyped(s) && AllTerminate(s) && target in Gates(s) && left >= |Gates(s)|
    ensures Ends(s, target, left - 1)
  {
    TerminatesIffAcyclic(s, target);
    EndedStaysEnded(s, target, |Gates(s)|, left);
  }

  lemma EnoughAsBefore(s: Store, s': Store, target: Uid, left: nat, left': nat)
    requires StoreTyped(s) && target in Gates(s) && Ends(s, target, left) && left <= left'
    requires forall v | v in Gates(s) :: Target(s', v) == Target(s, v)
    ensures Ends(s', target, left')
  {
    ChainSame(s, s', target, left + 1);
    EndedStaysEnded(s', target, left + 1, left' + 1);
  }

  lemma OthersLeaveIt(z: Sys, turn: Turn, i: Tid)
    requires Typed(z) && Resolves(z, i) && turn.tid != i
    ensures var z' := Step(z, turn);
            && i in z'.threads && z'.threads[i] == z.threads[i] && StoreTyped(z.store) && StoreTyped(z'.store)
            && Gates(z.store) <= Gates(z'.store) && |Gates(z.store)| <= |Gates(z'.store)|
            && z.threads[i].pc.target in Gates(z.store)
  {
    assert ThreadTyped(z.store, z.threads[i]);
    hide TakeTurn, StoreTyped;
    StepTyped(z, turn);
    GatesOnlyGrow(z.store, Step(z, turn).store);
  }

  lemma OthersTurn(z: Sys, turn: Turn, i: Tid, passes: nat, repoints: nat)
    requires Typed(z) && InReach(z, i, passes, repoints) && turn.tid != i && AllTerminate(Step(z, turn).store)
    ensures InReach(Step(z, turn), i, passes, repoints + if Repoints(z, turn) then 1 else 0)
  {
    hide TakeTurn, AllTerminate, Budget, StoreTyped, ThreadTyped, Typed, Step, Evolves, Ends, Gates, NodeAt;
    OthersLeaveIt(z, turn, i);
    var s, s', target := z.store, Step(z, turn).store, z.threads[i].pc.target;
    BudgetGrows(|Gates(s)|, |Gates(s')|, repoints);
    if Repoints(z, turn) {
      EnoughAfterRepointing(s', target, Budget(|Gates(s')|, repoints + 1) - passes);
    } else {
      var before, after := Budget(|Gates(s)|, repoints), Budget(|Gates(s')|, repoints);
      EnoughAsBefore(s, s', target, before - passes - 1, after - passes - 1);
    }
  }

  lemma ReachStep(z: Sys, turn: Turn, i: Tid, passes: nat, repoints: nat)
    requires Typed(z) && InReach(z, i, passes, repoints)
    requires Resolves(Step(z, turn), i) && AllTerminate(Step(z, turn).store)
    ensures InReach(Step(z, turn), i, passes + (if ReadsGate(z, turn, i) then 1 else 0),
                    repoints + if Repoints(z, turn) then 1 else 0)
  {
    hide Typed, InReach, Resolves, AllTerminate, Step, Repoints;
    if turn.tid == i { OwnTurn(z, turn, i, passes, repoints); } else { OthersTurn(z, turn, i, passes, repoints); }
  }

  // ----- whole runs -----

  /** Thread `i` begins a resolution at turn `a`, and is at it ever since. */
  ghost predicate ResolvesSince(y: Sys, schedule: seq<Turn>, i: Tid, a: nat) {
    && a < |schedule| && i in Run(y, schedule[..a]).threads && !Resolves(Run(y, schedule[..a]), i)
    && forall k | a < k <= |schedule| :: Resolves(Run(y, schedule[..k]), i)
  }

  lemma {:induction false} StaysInReach(y: Sys, schedule: seq<Turn>, i: Tid, a: nat)
    requires Initial(y) && AlwaysTerminates(y, schedule) && ResolvesSince(y, schedule, i, a)
    ensures InReach(Run(y, schedule), i, CountReads(y, schedule, i, a), CountRepoints(y, schedule, a))
  {
    hide AllTerminate, Initial, Repoints, ReadsGate, InReach, Step, Typed;
    var before, turn := schedule[..|schedule| - 1], schedule[|schedule| - 1];
    InitialIsTyped(y);
    RunTyped(y, before);
    assert schedule[..|schedule|] == schedule && Run(y, schedule) == Step(Run(y, before), turn);
    if a == |before| {
      assert schedule[..a] == before;
      assert CountReads(y, before, i, a) == 0 == CountRepoints(y, before, a);
      FirstRead(Run(y, before), turn, i);
    } else {
      assert forall k | 0 <= k <= |before| :: before[..k] == schedule[..k];
      StaysInReach(y, before, i, a);
      ReachStep(Run(y, before), turn, i, CountReads(y, before, i, a), CountRepoints(y, before, a));
    }
  }

  lemma ReachIsWithin(z: Sys, i: Tid, passes: nat, repoints: nat)
    requires InReach(z, i, passes, repoints)
    ensures passes < (repoints + 1) * |Gates(z.store)|
  {
  }

  lemma OwnTurnWritesNothing(z: Sys, turn: Turn, i: Tid)
    requires Resolves(z, i) && turn.tid == i
    ensures Step(z, turn).store == z.store
  {
  }

  /**
   * As long as no turn closes a loop, the reads of a resolution, the one that ends it included, are at
   * most the gates there are, once more for each re-pointing under way; it goes on only below that.
   */
  lemma ResolutionIsBounded(y: Sys, schedule: seq<Turn>, last: Turn, i: Tid, a: nat)
    requires Initial(y) && AllTerminate(y.store) && NeverCloses(y, schedule) && ResolvesSince(y, schedule, i, a)
    ensures CountReads(y, schedule + [last], i, a)
              <= (CountRepoints(y, schedule, a) + 1) * |Gates(Run(y, schedule).store)|
    ensures Resolves(Run(y, schedule + [last]), i) && last.tid == i ==>
              CountReads(y, schedule + [last], i, a)
                < (CountRepoints(y, schedule, a) + 1) * |Gates(Run(y, schedule).store)|
  {
    hide AllTerminate, Initial, Repoints, ReadsGate, InReach, Step, Typed;
    RunsTerminateIff(y, schedule);
    StaysInReach(y, schedule, i, a);
    var z, all := Run(y, schedule), schedule + [last];
    var passes, repoints := CountReads(y, schedule, i, a), CountRepoints(y, schedule, a);
    assert all[..|all| - 1] == schedule;
    ReachIsWithin(z, i, passes, repoints);
    if Resolves(Run(y, all), i) && last.tid == i {
      InitialIsTyped(y);
      RunTyped(y, schedule);
      assert schedule[..|schedule|] == schedule;
      OwnTurn(z, last, i, passes, repoints);
      OwnTurnWritesNothing(z, last, i);
      ReachIsWithin(Step(z, last), i, passes + if ReadsGate(z, last, i) then 1 else 0, repoints);
    }
  }
}
