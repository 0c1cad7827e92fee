/**
 * No privilege out of nothing, for the whole system: when an invoked run gets what a resolution of
 * its invoker answered, as the code does, then whatever runs, gates and services ever hold, and
 * whatever any resolution ever answers, is implied by the conjunction of the privileges that were
 * granted from outside. That conjunction therefore bounds every flow of information as well.
 */
module Granting {
  import opened Wrappers
  import opened Labels
  import opened Objects
  import opened Protocol
  import opened StoreTyping
  import opened Exposure
  import opened Delegation
  import opened FloatingLabel
  import opened Accountability

  /** The privileges that resolutions of thread `i` have answered. */
  function Answered(y: Sys, schedule: seq<Turn>, i: Tid): set<Component> {
    if schedule == [] then {}
    else
      var before, turn := schedule[..|schedule| - 1], schedule[|schedule| - 1];
      Answered(y, before, i) + if turn.tid == i then AnswerOf(Run(y, before), turn) else {}
  }

  function AnswerOf(z: Sys, turn: Turn): set<Component> {
    var e := EffectOf(z, turn);
    if e.Some? && e.value.outcome.Some? && e.value.outcome.value.Resolved?
    then {e.value.outcome.value.authority.privilege} else {}
  }

  /** A run that another one starts gets a privilege that a resolution answered the invoker. */
  ghost predicate InvokedByGates(y: Sys, schedule: seq<Turn>) {
    schedule != [] ==>
      var before, turn := schedule[..|schedule| - 1], schedule[|schedule| - 1];
      && InvokedByGates(y, before)
      && (turn.Spawn? && turn.invoker.Some? ==> turn.privilege in Answered(y, before, turn.invoker.value))
  }

  /** What was there at first, and what runs started from outside were given. */
  function Granted(origin: Component, y: Sys, schedule: seq<Turn>): Component {
    if schedule == [] then origin
    else
      var before, turn := schedule[..|schedule| - 1], schedule[|schedule| - 1];
      var granted := Granted(origin, y, before);
      if turn.Spawn? && turn.invoker.None? && turn.tid !in Run(y, before).threads
      then And(granted, turn.privilege) else granted
  }

  // ----- the invariant -----

  ghost predicate CellsUnder(g: Component, s: Store) {
    forall u | u in s && Created(s[u]) :: Implies(g, Delegated(s[u].body))
  }

  ghost predicate ThreadUnder(g: Component, t: Thread) {
    && Implies(g, t.privilege) && PendingBacked(Privilege, t)
    && (t.pc.Resolving? ==> Implies(g, t.pc.authority.privilege))
  }

  ghost predicate Under(g: Component, z: Sys) {
    CellsUnder(g, z.store) && forall i | i in z.threads :: ThreadUnder(g, z.threads[i])
  }

  ghost predicate AllUnder(g: Component, ps: set<Component>) {
    forall p | p in ps :: Implies(g, p)
  }

  /** More is granted as time goes on. */
  lemma UnderMore(g: Component, g': Component, z: Sys)
    requires Under(g, z) && Implies(g', g)
    ensures Under(g', z)
  {
    hide Implies;
    forall u | u in z.store && Created(z.store[u]) ensures Implies(g', Delegated(z.store[u].body)) {
      ImpliesTrans(g', g, Delegated(z.store[u].body));
    }
    forall i | i in z.threads ensures ThreadUnder(g', z.threads[i]) {
      var t := z.threads[i];
      assert ThreadUnder(g, t);
      ImpliesTrans(g', g, t.privilege);
      if t.pc.Resolving? { ImpliesTrans(g', g, t.pc.authority.privilege); }
    }
  }

  lemma AllUnderMore(g: Component, g': Component, ps: set<Component>)
    requires AllUnder(g, ps) && Implies(g', g)
    ensures AllUnder(g', ps)
  {
    forall p | p in ps ensures Implies(g', p) { ImpliesTrans(g', g, p); }
  }

  // ----- one turn -----

  /** A gate read adds what the store delegates, and that was granted already. */
  lemma CollectedUnder(g: Component, s: Store, t: Thread, c: Choice)
    requires StoreTyped(s) && ThreadTyped(s, t) && CellsUnder(g, s) && ThreadUnder(g, t)
    ensures var f := TakeTurn(t, s, c);
            && (f.thread.pc.Resolving? ==> Implies(g, f.thread.pc.authority.privilege))
            && (f.outcome.Some? && f.outcome.value.Resolved? ==> Implies(g, f.outcome.value.authority.privilege))
  {
    hide Implies, TakeTurn;
    ResolveAdds(s, t, c);
    if GateRead(t, c).Some? && RefOk(s, DirEntry(KGate, GateRead(t, c).value)) {
      var u := GateRead(t, c).value;
      var a := if c.Begin? then NO_AUTHORITY else t.pc.authority;
      assert Created(s[u]) && Implies(g, Delegated(s[u].body));
      TrueIsUnit(g);
      ImpliesAnd(g, a.privilege, s[u].body.gate.privilege);
    }
  }

  lemma TurnUnder(g: Component, z: Sys, turn: Turn)
    requires Typed(z) && Under(g, z) && EffectOf(z, turn).Some?
    ensures Under(g, Step(z, turn)) && AllUnder(g, AnswerOf(z, turn))
  {
    hide Implies, TakeTurn, StoreTyped, PendingBacked;
    var t, f, z' := z.threads[turn.tid], EffectOf(z, turn).value, Step(z, turn);
    assert ThreadUnder(g, t);
    TurnBacked(Privilege, z.store, t, turn.choice);
    CollectedUnder(g, z.store, t, turn.choice);
    if f.write.Some? && Created(f.write.value.cell) {
      ImpliesTrans(g, t.privilege, Delegated(f.write.value.cell.body));
    }
  }

  lemma SpawnUnder(g: Component, z: Sys, turn: Turn)
    requires Under(g, z) && turn.Spawn? && Implies(g, turn.privilege)
    ensures Under(g, Step(z, turn))
  {
    hide Implies;
  }

  // ----- every run -----

  /** Nobody holds, hands out or is answered more than was granted from outside. */
  lemma {:induction false} NothingFromNothing(y: Sys, origin: Component, schedule: seq<Turn>, i: Tid)
    requires Initial(y) && CellsUnder(origin, y.store) && InvokedByGates(y, schedule)
    ensures Under(Granted(origin, y, schedule), Run(y, schedule))
    ensures AllUnder(Granted(origin, y, schedule), Answered(y, schedule, i))
  {
    hide Implies, Under, AllUnder, AnswerOf;
    if schedule == [] {
      NothingYet(origin, y);
    } else {
      var before, turn := schedule[..|schedule| - 1], schedule[|schedule| - 1];
      var g, g', z := Granted(origin, y, before), Granted(origin, y, schedule), Run(y, before);
      NothingFromNothing(y, origin, before, i);
      InitialIsTyped(y);
      RunTyped(y, before);
      if turn.Spawn? {
        ImpliesRefl(g);
        if turn.invoker.Some? { NothingFromNothing(y, origin, before, turn.invoker.value); }
        SpawnGrants(g, g', z, turn, if turn.invoker.Some? then Answered(y, before, turn.invoker.value) else {});
        NoAnswer(z, turn);
        assert Answered(y, schedule, i) == Answered(y, before, i);
        AllUnderMore(g, g', Answered(y, before, i));
      } else if EffectOf(z, turn).Some? {
        TurnUnder(g, z, turn);
        AllUnderUnion(g, Answered(y, before, i), AnswerOf(z, turn));
        assert turn.tid != i ==> Answered(y, schedule, i) == Answered(y, before, i);
      } else {
        NoAnswer(z, turn);
        assert Answered(y, schedule, i) == Answered(y, before, i);
      }
    }
  }

  lemma NothingYet(origin: Component, y: Sys)
    requires Initial(y) && CellsUnder(origin, y.store)
    ensures Under(origin, y) && AllUnder(origin, {})
  {
  }

  lemma AllUnderUnion(g: Component, a: set<Component>, b: set<Component>)
    requires AllUnder(g, a) && AllUnder(g, b)
    ensures AllUnder(g, a + b)
  {
  }

  lemma NoAnswer(z: Sys, turn: Turn)
    requires EffectOf(z, turn).None?
    ensures AnswerOf(z, turn) == {} && (turn.Act? ==> Step(z, turn) == z)
  {
  }

  lemma SpawnGrants(g: Component, g': Component, z: Sys, turn: Turn, answered: set<Component>)
    requires Under(g, z) && turn.Spawn?
    requires g' == if turn.invoker.None? && turn.tid !in z.threads then And(g, turn.privilege) else g
    requires turn.invoker.Some? ==> AllUnder(g, answered) && turn.privilege in answered
    ensures Under(g', Step(z, turn)) && Implies(g', g)
  {
    hide Under, Implies;
    AndImplies(g, turn.privilege);
    ImpliesRefl(g);
    UnderMore(g, g', z);
    if turn.tid !in z.threads { SpawnUnder(g', z, turn); }
  }

  // ----- what the grants say about flows -----

  predicate AllPaid(g: Component, ds: set<Debt>) {
    forall d | d in ds :: Implies(g, d.paid)
  }

  ghost predicate LedgerUnder(g: Component, l: Ledger) {
    && (forall u | u in l.cells :: AllPaid(g, l.cells[u]))
    && (forall i | i in l.threads :: AllPaid(g, l.threads[i]))
  }

  lemma AllPaidMore(g: Component, g': Component, ds: set<Debt>)
    requires AllPaid(g, ds) && Implies(g', g)
    ensures AllPaid(g', ds)
  {
    forall d | d in ds ensures Implies(g', d.paid) { ImpliesTrans(g', g, d.paid); }
  }

  lemma LedgerUnderMore(g: Component, g': Component, l: Ledger)
    requires LedgerUnder(g, l) && Implies(g', g)
    ensures LedgerUnder(g', l)
  {
    forall u | u in l.cells ensures AllPaid(g', l.cells[u]) { AllPaidMore(g, g', l.cells[u]); }
    forall i | i in l.threads ensures AllPaid(g', l.threads[i]) { AllPaidMore(g, g', l.threads[i]); }
  }

  lemma SourcesPaid(g: Component, ls: set<Label>)
    ensures AllPaid(g, Sources(ls))
  {
    TrueIsUnit(g);
  }

  lemma PayingStaysUnder(g: Component, ds: set<Debt>, p: Component)
    requires AllPaid(g, ds) && Implies(g, p)
    ensures AllPaid(g, Paid(ds, p))
  {
    forall d | d in Paid(ds, p) ensures Implies(g, d.paid) {
      var d0 :| d0 in ds && d == Debt(d0.source, And(d0.paid, p));
      ImpliesAnd(g, d0.paid, p);
    }
  }

  lemma ReceivedUnder(g: Component, l: Ledger, z: Sys, i: Tid, c: Choice)
    requires LedgerUnder(g, l) && i in z.threads
    ensures AllPaid(g, Received(l, z, i, c))
  {
    hide Implies;
    SourcesPaid(g, Told(z.threads[i], c));
    assert AllPaid(g, CellDebts(l, Reads(z.threads[i], c)));
    assert AllPaid(g, Of(l.threads, i)) && AllPaid(g, Replied(l, z, z.threads[i], c));
  }

  lemma AccountUnder(g: Component, l: Ledger, z: Sys, turn: Turn)
    requires LedgerUnder(g, l) && Under(g, z)
    ensures LedgerUnder(g, Account(l, z, turn))
  {
    hide Implies, TakeTurn, Received;
    if turn.Spawn? {
      SourcesPaid(g, {PUBLIC, turn.tag});
    } else if turn.tid in z.threads {
      var t, c := z.threads[turn.tid], turn.choice;
      assert ThreadUnder(g, t);
      var got := Received(l, z, turn.tid, c);
      ReceivedUnder(g, l, z, turn.tid, c);
      KeptUnder(g, z, t, c, got);
      PayingStaysUnder(g, got, t.privilege);
      var w := TakeTurn(t, z.store, c).write;
      if w.Some? && w.value.cell.Labeled? { SourcesPaid(g, {w.value.cell.tag}); }
      hide LedgerOf, Kept, Paid;
    }
  }

  lemma KeptUnder(g: Component, z: Sys, t: Thread, c: Choice, got: set<Debt>)
    requires AllPaid(g, got) && ThreadUnder(g, t) && CellsUnder(g, z.store)
    ensures AllPaid(g, Kept(got, z.store, t, c))
  {
    hide Implies;
    PayingStaysUnder(g, got, t.privilege);
    if Serves(z.store, t, c).Some? {
      var u := t.fds[c.op.fd].uid;
      assert Created(z.store[u]);
      PayingStaysUnder(g, got, z.store[u].body.service.privilege);
      SourcesPaid(g, {z.store[u].body.service.taint});
    }
  }

  lemma {:induction false} DebtsAreGranted(y: Sys, origin: Component, schedule: seq<Turn>)
    requires Initial(y) && CellsUnder(origin, y.store) && InvokedByGates(y, schedule)
    ensures LedgerUnder(Granted(origin, y, schedule), LedgerOf(y, schedule))
  {
    hide Implies, Under, LedgerUnder, Account, Step, And, CellsUnder, AllUnder, Initial;
    if schedule == [] {
      FirstLedgerUnder(y, origin);
    } else {
      var before, turn := schedule[..|schedule| - 1], schedule[|schedule| - 1];
      var g, g', z := Granted(origin, y, before), Granted(origin, y, schedule), Run(y, before);
      DebtsAreGranted(y, origin, before);
      NothingFromNothing(y, origin, before, 0);
      AccountUnder(g, LedgerOf(y, before), z, turn);
      ImpliesRefl(g);
      if turn.Spawn? { AndImplies(g, turn.privilege); }
      LedgerUnderMore(g, g', LedgerOf(y, schedule));
    }
  }

  lemma FirstLedgerUnder(y: Sys, origin: Component)
    ensures LedgerUnder(origin, LedgerOf(y, []))
  {
    hide Implies;
    forall l: Label ensures AllPaid(origin, Sources({l})) { SourcesPaid(origin, {l}); }
  }

  /**
   * Whatever source reaches a cell or a thread may flow there under what was granted from outside,
   * through however many threads, cells, gates and services it went.
   */
  lemma GrantsBoundFlows(y: Sys, origin: Component, schedule: seq<Turn>, d: Debt)
    requires Initial(y) && CellsUnder(origin, y.store) && InvokedByGates(y, schedule)
    ensures var g, l, z := Granted(origin, y, schedule), LedgerOf(y, schedule), Run(y, schedule);
            && (forall u | u in l.cells && d in l.cells[u] ::
                  u in z.store && z.store[u].Labeled? && CanFlowToWith(d.source, z.store[u].tag, g))
            && (forall i | i in z.threads && d in Of(l.threads, i) :: CanFlowToWith(d.source, z.threads[i].current, g))
  {
    hide Implies, CanFlowToWith;
    FlowsAreAccountedFor(y, schedule);
    DebtsAreGranted(y, origin, schedule);
    var g, l, z := Granted(origin, y, schedule), LedgerOf(y, schedule), Run(y, schedule);
    forall u | u in l.cells && d in l.cells[u] ensures CanFlowToWith(d.source, z.store[u].tag, g) {
      assert AllPaid(g, l.cells[u]) && Owed(l.cells[u], z.store[u].tag);
      FlowWeaken(d.source, z.store[u].tag, d.paid, g);
    }
    forall i | i in z.threads && d in Of(l.threads, i) ensures CanFlowToWith(d.source, z.threads[i].current, g) {
      assert AllPaid(g, l.threads[i]) && Owed(Of(l.threads, i), z.threads[i].current);
      FlowWeaken(d.source, z.threads[i].current, d.paid, g);
    }
  }
}
