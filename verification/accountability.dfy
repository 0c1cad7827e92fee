/**
 * Flow accountability: whatever information reaches a cell or a thread, from whichever source and
 * through however many threads and cells, is allowed there under the conjunction of the privileges
 * that the threads and services on its way exercised. Information passes between threads through
 * cells, in the payload with which one run invokes another, and in the response it gets back. Facet
 * lists carry no label and are left out; `facetleaks.dfy` says what they tell.
 */
module Accountability {
  import opened Wrappers
  import opened Labels
  import opened Objects
  import opened Protocol
  import opened StoreTyping
  import opened Exposure
  import opened FloatingLabel

  // ----- the ledger -----

  /** Information labelled `source` arrived, and `paid` is the conjunction of privileges that let it through. */
  datatype Debt = Debt(source: Label, paid: Component)

  datatype Ledger = Ledger(cells: map<Uid, set<Debt>>, threads: map<Tid, set<Debt>>)

  function Of<K>(m: map<K, set<Debt>>, k: K): set<Debt> {
    if k in m then m[k] else {}
  }

  function Sources(ls: set<Label>): set<Debt> {
    set l | l in ls :: Debt(l, DC_TRUE)
  }

  function Paid(ds: set<Debt>, p: Component): set<Debt> {
    set d | d in ds :: Debt(d.source, And(d.paid, p))
  }

  function CellDebts(g: Ledger, us: set<Uid>): set<Debt> {
    set u, d | u in us && u in g.cells && d in g.cells[u] :: d
  }

  /** The labels a turn is explicitly told to take on. */
  function Told(t: Thread, c: Choice): set<Label> {
    (if t.pc.Idle? && c.Begin? && (c.op.Taint? || c.op.TakeReply?) then {c.op.tag} else {})
    + (if t.pc.Idle? && c.Begin? && c.op.ListFacets? && c.op.fd in t.fds && t.fds[c.op.fd].kind.KFaceted?
       then {c.op.clearance} else {})
  }

  /** The response that the turn takes is that of the finished run named, and brings all that run held. */
  function Replied(g: Ledger, z: Sys, t: Thread, c: Choice): set<Debt> {
    if t.pc.Idle? && c.Begin? && c.op.TakeReply? && c.op.from in z.threads
       && z.threads[c.op.from].pc.Finished? && z.threads[c.op.from].current == c.op.tag
    then Of(g.threads, c.op.from)
    else {}
  }

  /** A run that another one starts at its own current label gets all that the invoker held. */
  function Invoked(g: Ledger, z: Sys, tag: Label, invoker: Option<Tid>): set<Debt> {
    if invoker.Some? && invoker.value in z.threads && z.threads[invoker.value].current == tag
    then Of(g.threads, invoker.value)
    else {}
  }

  /** What the thread has received once the turn has read. */
  function Received(g: Ledger, z: Sys, i: Tid, c: Choice): set<Debt>
    requires i in z.threads
  {
    var t := z.threads[i];
    Of(g.threads, i) + CellDebts(g, Reads(t, c)) + Sources(Told(t, c)) + Replied(g, z, t, c)
  }

  /** What it holds at the end of the turn, after a service or its own response has lowered its label. */
  function Kept(got: set<Debt>, s: Store, t: Thread, c: Choice): set<Debt> {
    if Serves(s, t, c).Some? then
      Paid(got, Serves(s, t, c).value.privilege) + Sources({Serves(s, t, c).value.taint})
    else if t.pc.Idle? && c.Begin? && c.op.Respond? then Paid(got, t.privilege)
    else got
  }

  /** A write carries everything the writer holds into the cell; an empty new object carries nothing. */
  function Carried(g: Ledger, z: Sys, i: Tid, c: Choice, w: Update): set<Debt>
    requires w.cell.Labeled? && i in z.threads
  {
    Of(g.cells, w.uid) + Sources({w.cell.tag})
    + (if z.threads[i].pc.Filling? && !Created(w.cell) then {} else Paid(Received(g, z, i, c), z.threads[i].privilege))
  }

  function Account(g: Ledger, z: Sys, turn: Turn): Ledger {
    if turn.Spawn? then
      if turn.tid in z.threads then g
      else
        var got := Sources({PUBLIC, turn.tag}) + Invoked(g, z, turn.tag, turn.invoker);
        g.(threads := g.threads[turn.tid := got])
    else if turn.tid !in z.threads then g
    else
      var t, c := z.threads[turn.tid], turn.choice;
      var w := TakeTurn(t, z.store, c).write;
      Ledger(
        if w.Some? && w.value.cell.Labeled?
        then g.cells[w.value.uid := Carried(g, z, turn.tid, c, w.value)] else g.cells,
        g.threads[turn.tid := Kept(Received(g, z, turn.tid, c), z.store, t, c)])
  }

  function LedgerOf(y: Sys, schedule: seq<Turn>): Ledger {
    if schedule == [] then
      Ledger(map u | u in y.store && y.store[u].Labeled? :: Sources({y.store[u].tag}), map[])
    else
      var before := schedule[..|schedule| - 1];
      Account(LedgerOf(y, before), Run(y, before), schedule[|schedule| - 1])
  }

  // ----- the invariant -----

  predicate Owed(ds: set<Debt>, to: Label) {
    forall d | d in ds :: CanFlowToWith(d.source, to, d.paid)
  }

  ghost predicate Accounted(g: Ledger, z: Sys) {
    && (forall u | u in g.cells :: u in z.store && z.store[u].Labeled? && Owed(g.cells[u], z.store[u].tag))
    && (forall i | i in z.threads ::
          && Owed(Of(g.threads, i), z.threads[i].current)
          && EditsBelow(z.threads[i]))
  }

  /** A pending edit has already raised the label past the directory. */
  predicate EditsBelow(t: Thread) {
    t.pc.Editing? ==> t.pc.prev.Labeled? && CanFlowToWith(t.pc.prev.tag, t.current, DC_TRUE)
  }

  lemma OwedHigher(ds: set<Debt>, l: Label, l': Label)
    requires Owed(ds, l) && CanFlowToWith(l, l', DC_TRUE)
    ensures Owed(ds, l')
  {
    forall d | d in ds ensures CanFlowToWith(d.source, l', d.paid) {
      TrueIsUnit(d.paid);
      FlowTrans(d.source, l, l', d.paid, DC_TRUE);
    }
  }

  lemma OwedPaid(ds: set<Debt>, l: Label, l': Label, p: Component)
    requires Owed(ds, l) && CanFlowToWith(l, l', p)
    ensures Owed(Paid(ds, p), l')
  {
    forall d | d in ds ensures CanFlowToWith(d.source, l', And(d.paid, p)) {
      FlowTrans(d.source, l, l', d.paid, p);
    }
  }

  lemma OwedSources(ls: set<Label>, to: Label)
    requires AllFlow(ls, to, DC_TRUE)
    ensures Owed(Sources(ls), to)
  {
  }

  // ----- one turn: what the thread receives -----

  /** The label of the thread after the turn has read and before anything lowers it. */
  function Peak(s: Store, t: Thread, c: Choice): Label {
    if t.pc.Idle? && c.Begin? && c.op.Respond? then t.current
    else if Serves(s, t, c).Some? then Lub(s[t.fds[c.op.fd].uid].tag, t.current)
    else TakeTurn(t, s, c).thread.current
  }

  lemma PeakOfBegin(s: Store, t: Thread, op: Op)
    requires StoreTyped(s) && ThreadTyped(s, t) && t.pc.Idle?
    ensures AllFlow(TagsOf(s, Reads(t, Begin(op))) + Told(t, Begin(op)) + {t.current}, Peak(s, t, Begin(op)), DC_TRUE)
  {
    var c := Begin(op);
    FlowRefl(t.current, DC_TRUE);
    if op.Taint? || op.TakeReply? || op.ListFacets? {
      var x := if op.ListFacets? then op.clearance else op.tag;
      LubIsUpper(t.current, x, DC_TRUE);
    } else if Reads(t, c) == {} {
      assert TagsOf(s, Reads(t, c)) == {};
      BeginRaises(s, t, op);
    } else {
      BeginRaises(s, t, op);
      var u := t.fds[op.fd].uid;
      assert TagsOf(s, Reads(t, c)) == {s[u].tag};
      LubIsUpper(s[u].tag, t.current, DC_TRUE);
    }
  }

  /** An operation raises the label by exactly the label of the cell it reads first, if it reads one. */
  lemma BeginRaises(s: Store, t: Thread, op: Op)
    requires StoreTyped(s) && ThreadTyped(s, t) && t.pc.Idle? && !op.Taint? && !op.TakeReply? && !op.ListFacets?
    ensures Reads(t, Begin(op)) == {} ==> Peak(s, t, Begin(op)) == t.current
    ensures Reads(t, Begin(op)) != {} ==>
              && op.fd in t.fds && Reads(t, Begin(op)) == {t.fds[op.fd].uid}
              && t.fds[op.fd].uid in s && s[t.fds[op.fd].uid].Labeled?
              && Peak(s, t, Begin(op)) == Lub(s[t.fds[op.fd].uid].tag, t.current)
  {
    if op.OpenName? || op.Read? || op.Link? || op.Unlink? || op.UpdateGate? || op.Resolve? || op.CallService? {
      assert op.fd in t.fds ==> t.fds[op.fd].uid in FdUid(t, op.fd);
    }
  }

  lemma ContinueRaises(s: Store, t: Thread, coin: Uid)
    requires StoreTyped(s) && ThreadTyped(s, t) && (t.pc.Editing? || t.pc.Resolving?)
    ensures var u := if t.pc.Editing? then t.pc.dir else t.pc.target;
            && u in s && s[u].Labeled? && Reads(t, Continue(coin)) == {u}
            && (ContinueOp(t, s, coin).thread.current == Lub(s[u].tag, t.current)
                || (t.pc.Editing? && s[u].tag == t.pc.prev.tag && ContinueOp(t, s, coin).thread.current == t.current))
  {
  }

  lemma PeakIsAbove(s: Store, t: Thread, c: Choice)
    requires StoreTyped(s) && ThreadTyped(s, t) && EditsBelow(t)
    ensures AllFlow(TagsOf(s, Reads(t, c)) + Told(t, c) + {t.current}, Peak(s, t, c), DC_TRUE)
  {
    FlowRefl(t.current, DC_TRUE);
    if t.pc.Idle? && c.Begin? {
      PeakOfBegin(s, t, c.op);
    } else if c.Continue? && (t.pc.Editing? || t.pc.Resolving?) {
      ContinueRaises(s, t, c.coin);
      var u := if t.pc.Editing? then t.pc.dir else t.pc.target;
      assert TagsOf(s, Reads(t, c)) == {s[u].tag};
      LubIsUpper(s[u].tag, t.current, DC_TRUE);
      assert Peak(s, t, c) == ContinueOp(t, s, c.coin).thread.current;
    } else {
      QuietTurn(s, t, c);
    }
  }

  lemma ReceivedIsOwed(g: Ledger, z: Sys, i: Tid, c: Choice)
    requires Typed(z) && Accounted(g, z) && i in z.threads
    ensures Owed(Received(g, z, i, c), Peak(z.store, z.threads[i], c))
  {
    var t := z.threads[i];
    var peak := Peak(z.store, t, c);
    PeakIsAbove(z.store, t, c);
    assert t.current in TagsOf(z.store, Reads(t, c)) + Told(t, c) + {t.current};
    OwedHigher(Of(g.threads, i), t.current, peak);
    OwedSources(Told(t, c), peak);
    if Replied(g, z, t, c) != {} {
      assert c.op.tag in TagsOf(z.store, Reads(t, c)) + Told(t, c) + {t.current};
      OwedHigher(Of(g.threads, c.op.from), c.op.tag, peak);
    }
    forall d | d in CellDebts(g, Reads(t, c)) ensures CanFlowToWith(d.source, peak, d.paid) {
      var u :| u in Reads(t, c) && u in g.cells && d in g.cells[u];
      assert z.store[u].tag in TagsOf(z.store, Reads(t, c));
      OwedHigher(g.cells[u], z.store[u].tag, peak);
    }
  }

  lemma ServiceLowers(s: Store, t: Thread, c: Choice)
    requires StoreTyped(s) && ThreadTyped(s, t) && Serves(s, t, c).Some?
    ensures var v := Serves(s, t, c).value;
            TakeTurn(t, s, c).thread.current == Lub(Downgrade(Peak(s, t, c), v.privilege), v.taint)
  {
  }

  lemma ServedIsOwed(got: set<Debt>, peak: Label, v: Service)
    requires Owed(got, peak)
    ensures Owed(Paid(got, v.privilege) + Sources({v.taint}), Lub(Downgrade(peak, v.privilege), v.taint))
  {
    var lowered := Downgrade(peak, v.privilege);
    DowngradeFlows(peak, v.privilege);
    OwedPaid(got, peak, lowered, v.privilege);
    LubIsUpper(lowered, v.taint, DC_TRUE);
    OwedHigher(Paid(got, v.privilege), lowered, Lub(lowered, v.taint));
    OwedSources({v.taint}, Lub(lowered, v.taint));
  }

  lemma KeptIsOwed(got: set<Debt>, s: Store, t: Thread, c: Choice)
    requires StoreTyped(s) && ThreadTyped(s, t) && Owed(got, Peak(s, t, c))
    ensures Owed(Kept(got, s, t, c), TakeTurn(t, s, c).thread.current)
  {
    if Serves(s, t, c).Some? {
      ServiceLowers(s, t, c);
      ServedIsOwed(got, Peak(s, t, c), Serves(s, t, c).value);
    } else if t.pc.Idle? && c.Begin? && c.op.Respond? {
      DowngradeFlows(t.current, t.privilege);
      OwedPaid(got, t.current, Downgrade(t.current, t.privilege), t.privilege);
      assert TakeTurn(t, s, c).thread.current == Downgrade(t.current, t.privilege);
    }
  }

  // ----- one turn: what it writes -----

  lemma WritesInLabel(s: Store, t: Thread, c: Choice)
    requires StoreTyped(s) && ThreadTyped(s, t) && Checked(t)
    requires TakeTurn(t, s, c).write.Some? && TakeTurn(t, s, c).write.value.cell.Labeled?
    ensures var w := TakeTurn(t, s, c).write.value;
            && Peak(s, t, c) == t.current
            && (w.uid in s && s[w.uid].Labeled? ==> s[w.uid].tag == w.cell.tag)
            && ((t.pc.Filling? && !Created(w.cell)) || CanFlowToWith(t.current, w.cell.tag, t.privilege))
  {
    if c.Begin? && t.pc.Idle? { BeginWritesNothing(s, t, c.op); }
  }

  lemma CarriedIsOwed(g: Ledger, z: Sys, i: Tid, c: Choice)
    requires Typed(z) && Accounted(g, z) && AllChecked(z) && i in z.threads
    requires TakeTurn(z.threads[i], z.store, c).write.Some?
    requires TakeTurn(z.threads[i], z.store, c).write.value.cell.Labeled?
    ensures var w := TakeTurn(z.threads[i], z.store, c).write.value;
            Owed(Carried(g, z, i, c, w), w.cell.tag)
  {
    var t := z.threads[i];
    var w := TakeTurn(t, z.store, c).write.value;
    WritesInLabel(z.store, t, c);
    ReceivedIsOwed(g, z, i, c);
    FlowRefl(w.cell.tag, DC_TRUE);
    OwedSources({w.cell.tag}, w.cell.tag);
    if !(t.pc.Filling? && !Created(w.cell)) {
      OwedPaid(Received(g, z, i, c), t.current, w.cell.tag, t.privilege);
    }
  }

  lemma TurnEditsBelow(s: Store, t: Thread, c: Choice)
    requires StoreTyped(s) && ThreadTyped(s, t) && EditsBelow(t)
    ensures EditsBelow(TakeTurn(t, s, c).thread)
  {
    if t.pc.Idle? && c.Begin? && (c.op.Link? || c.op.Unlink?) && c.op.fd in t.fds && t.fds[c.op.fd].kind.KDirectory? {
      LubIsUpper(s[t.fds[c.op.fd].uid].tag, t.current, DC_TRUE);
    } else if c.Continue? && t.pc.Editing? {
      LubIsUpper(s[t.pc.dir].tag, t.current, DC_TRUE);
    } else if t.pc.Idle? && c.Begin? {
      OnlyEditsEdit(s, t, c.op);
    }
  }

  lemma OnlyEditsEdit(s: Store, t: Thread, op: Op)
    requires StoreTyped(s) && ThreadTyped(s, t) && t.pc.Idle?
    requires !((op.Link? || op.Unlink?) && op.fd in t.fds && t.fds[op.fd].kind.KDirectory?)
    ensures !BeginOp(t, s, op).thread.pc.Editing?
  {
  }

  lemma ActAccounted(g: Ledger, z: Sys, i: Tid, c: Choice)
    requires Typed(z) && Accounted(g, z) && AllChecked(z) && i in z.threads
    ensures var f := TakeTurn(z.threads[i], z.store, c);
            && Owed(Kept(Received(g, z, i, c), z.store, z.threads[i], c), f.thread.current)
            && EditsBelow(f.thread)
            && (f.write.Some? && f.write.value.cell.Labeled? ==>
                  Owed(Carried(g, z, i, c, f.write.value), f.write.value.cell.tag))
  {
    hide TakeTurn, Kept, Carried, Received, Owed;
    var t := z.threads[i];
    ReceivedIsOwed(g, z, i, c);
    KeptIsOwed(Received(g, z, i, c), z.store, t, c);
    TurnEditsBelow(z.store, t, c);
    var w := TakeTurn(t, z.store, c).write;
    if w.Some? && w.value.cell.Labeled? { CarriedIsOwed(g, z, i, c); }
  }

  lemma AccountStep(g: Ledger, z: Sys, turn: Turn)
    requires Typed(z) && Accounted(g, z) && AllChecked(z)
    ensures Accounted(Account(g, z, turn), Step(z, turn))
  {
    hide TakeTurn, Kept, Carried, Received, Lub, Owed, EditsBelow, Typed, AllChecked;
    var g', z' := Account(g, z, turn), Step(z, turn);
    StepTyped(z, turn);
    if turn.Spawn? {
      SpawnAccounted(g, z, turn.tag, turn.privilege, turn.invoker);
    } else if turn.tid in z.threads {
      ActAccounted(g, z, turn.tid, turn.choice);
      forall u | u in g'.cells ensures u in z'.store && z'.store[u].Labeled? && Owed(g'.cells[u], z'.store[u].tag) {
        if u in g.cells { assert CellEvolves(z.store[u], z'.store[u]); }
      }
    }
  }

  lemma SpawnAccounted(g: Ledger, z: Sys, tag: Label, privilege: Component, invoker: Option<Tid>)
    requires Accounted(g, z)
    ensures Owed(Sources({PUBLIC, tag}) + Invoked(g, z, tag, invoker), Start(tag, privilege).current)
    ensures EditsBelow(Start(tag, privilege))
  {
    LubIsUpper(PUBLIC, tag, DC_TRUE);
    OwedSources({PUBLIC, tag}, Lub(PUBLIC, tag));
    if Invoked(g, z, tag, invoker) != {} { OwedHigher(Of(g.threads, invoker.value), tag, Lub(PUBLIC, tag)); }
  }

  /** What a run holds when it invokes another is in the account of the run it starts. */
  lemma PayloadIsAccounted(y: Sys, schedule: seq<Turn>, i: Tid, j: Tid, privilege: Component)
    requires Initial(y) && i in Run(y, schedule).threads && j !in Run(y, schedule).threads
    ensures var z := Run(y, schedule);
            var more := schedule + [Spawn(j, z.threads[i].current, privilege, Some(i))];
            && Of(LedgerOf(y, schedule).threads, i) <= Of(LedgerOf(y, more).threads, j)
            && Owed(Of(LedgerOf(y, schedule).threads, i), Run(y, more).threads[j].current)
  {
    var z := Run(y, schedule);
    var more := schedule + [Spawn(j, z.threads[i].current, privilege, Some(i))];
    assert more[..|more| - 1] == schedule;
    FlowsAreAccountedFor(y, more);
    var got := Of(LedgerOf(y, more).threads, j);
    assert Owed(got, Run(y, more).threads[j].current);
    assert forall d | d in Of(LedgerOf(y, schedule).threads, i) :: d in got;
  }

  /** The response that a run takes brings all that the responding run held, with its payment. */
  lemma ResponseIsAccounted(y: Sys, schedule: seq<Turn>, i: Tid, j: Tid)
    requires Initial(y) && i in Run(y, schedule).threads && j in Run(y, schedule).threads
    requires Run(y, schedule).threads[i].pc.Idle? && Run(y, schedule).threads[j].pc.Finished?
    ensures var z := Run(y, schedule);
            var more := schedule + [Act(i, Begin(TakeReply(z.threads[j].current, j)))];
            && Of(LedgerOf(y, schedule).threads, j) <= Of(LedgerOf(y, more).threads, i)
            && Owed(Of(LedgerOf(y, schedule).threads, j), Run(y, more).threads[i].current)
  {
    var z := Run(y, schedule);
    var more := schedule + [Act(i, Begin(TakeReply(z.threads[j].current, j)))];
    assert more[..|more| - 1] == schedule;
    FlowsAreAccountedFor(y, more);
    var got := Of(LedgerOf(y, more).threads, i);
    assert Owed(got, Run(y, more).threads[i].current);
    assert forall d | d in Of(LedgerOf(y, schedule).threads, j) :: d in got;
  }

  // ----- every run -----

  /**
   * In every reachable state, each source that reached a cell may flow to its label, and each source
   * that reached a thread may flow to its current label, under the privileges exercised on the way.
   */
  lemma {:induction false} FlowsAreAccountedFor(y: Sys, schedule: seq<Turn>)
    requires Initial(y)
    ensures Accounted(LedgerOf(y, schedule), Run(y, schedule))
  {
    if schedule == [] {
      forall l: Label ensures CanFlowToWith(l, l, DC_TRUE) { FlowRefl(l, DC_TRUE); }
    } else {
      var before := schedule[..|schedule| - 1];
      FlowsAreAccountedFor(y, before);
      InitialIsTyped(y);
      RunTyped(y, before);
      RunChecked(y, before);
      AccountStep(LedgerOf(y, before), Run(y, before), schedule[|schedule| - 1]);
    }
  }

  /** No cell drops out of the ledger: every filled labelled cell is accounted for. */
  lemma {:induction false} EveryCellIsInTheLedger(y: Sys, schedule: seq<Turn>, u: Uid)
    requires Initial(y) && u in Run(y, schedule).store && Run(y, schedule).store[u].Labeled?
    ensures u in LedgerOf(y, schedule).cells
    ensures Debt(Run(y, schedule).store[u].tag, DC_TRUE) in LedgerOf(y, schedule).cells[u]
  {
    hide TakeTurn, Typed, Kept, Received;
    if schedule != [] {
      var before := schedule[..|schedule| - 1];
      var z, turn := Run(y, before), schedule[|schedule| - 1];
      InitialIsTyped(y);
      RunTyped(y, before);
      StepTyped(z, turn);
      if u in z.store && z.store[u].Labeled? {
        EveryCellIsInTheLedger(y, before, u);
        assert Debt(z.store[u].tag, DC_TRUE) in LedgerOf(y, before).cells[u];
        assert CellEvolves(z.store[u], Step(z, turn).store[u]);
      }
    }
  }
}
