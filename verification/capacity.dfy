/**
 * What the scheduler's view is good for: as long as no clean node promises more cached machines
 * than it has idle workers, the scheduler never overlooks an idle worker; the view of a node agrees
 * with the node's last report; and no worker is ever lost or invented.
 */
module Capacity {
  import opened Wrappers
  import opened Placement
  import opened Sums

  // ----- counting cached machines -----

  function CountOf(slots: seq<Slot>, n: Node): nat {
    if slots == [] then 0
    else (if slots[0].node == n then slots[0].count else 0) + CountOf(slots[1..], n)
  }

  /** How many machines the view holds at node `n` for function `f`. */
  function View(m: State, n: Node, f: Function): nat {
    CountIn(m.cached, n, f)
  }

  function CountIn(c: Cached, n: Node, f: Function): nat {
    if f in c then CountOf(c[f], n) else 0
  }

  function Counts(c: Cached, n: Node): map<Function, nat> {
    map f | f in c :: CountOf(c[f], n)
  }

  /** The machines that the view holds at node `n`, over all functions. */
  ghost function Promised(c: Cached, n: Node): nat {
    Sum(Counts(c, n))
  }

  lemma PromisedSet(c: Cached, n: Node, f: Function, slots: seq<Slot>)
    ensures Promised(c[f := slots], n) + CountIn(c, n, f) == Promised(c, n) + CountOf(slots, n)
  {
    SumSet(Counts(c, n), f, CountOf(slots, n));
    assert Counts(c[f := slots], n) == Counts(c, n)[f := CountOf(slots, n)];
  }

  lemma PromisedAtLeast(c: Cached, n: Node, f: Function)
    requires f in c
    ensures CountOf(c[f], n) <= Promised(c, n)
  {
    SumOut(Counts(c, n), f);
  }

  /** Two views with equal counts for a node promise the same there. */
  lemma PromisedSame(c: Cached, d: Cached, n: Node)
    requires forall f :: CountIn(c, n, f) == CountIn(d, n, f)
    ensures Promised(c, n) == Promised(d, n)
  {
    forall f ensures At(Counts(c, n), f) == At(Counts(d, n), f) { assert CountIn(c, n, f) == CountIn(d, n, f); }
    SumSame(Counts(c, n), Counts(d, n));
  }

  // ----- counts after each operation -----

  lemma {:induction false} CountConcat(a: seq<Slot>, b: seq<Slot>, n: Node)
    ensures CountOf(a + b, n) == CountOf(a, n) + CountOf(b, n)
  {
    if a == [] {
      assert a + b == b;
    } else {
      assert (a + b)[1..] == a[1..] + b;
      CountConcat(a[1..], b, n);
    }
  }

  lemma {:induction false} CountPositive(slots: seq<Slot>, n: Node)
    ensures CountOf(Positive(slots), n) == CountOf(slots, n)
  {
    if slots != [] {
      CountPositive(slots[1..], n);
      CountConcat(if slots[0].count > 0 then [slots[0]] else [], Positive(slots[1..]), n);
    }
  }

  lemma {:induction false} CountAbsent(slots: seq<Slot>, n: Node)
    requires forall i | 0 <= i < |slots| :: slots[i].node != n
    ensures CountOf(slots, n) == 0
  {
    if slots != [] { CountAbsent(slots[1..], n); }
  }

  lemma {:induction false} CountReplace(slots: seq<Slot>, p: nat, slot: Slot, n: Node)
    requires p < |slots|
    ensures CountOf(slots[p := slot], n) + (if slots[p].node == n then slots[p].count else 0)
            == CountOf(slots, n) + if slot.node == n then slot.count else 0
  {
    if p > 0 {
      assert slots[p := slot][1..] == slots[1..][p - 1 := slot];
      CountReplace(slots[1..], p - 1, slot, n);
    }
  }

  /** A node listed once counts what its slot says. */
  lemma CountListed(slots: seq<Slot>, p: nat)
    requires p < |slots| && forall i, j | 0 <= i < j < |slots| :: slots[i].node != slots[j].node
    ensures CountOf(slots, slots[p].node) == slots[p].count
  {
    var n := slots[p].node;
    assert slots == slots[..p] + [slots[p]] + slots[p + 1..];
    CountConcat(slots[..p] + [slots[p]], slots[p + 1..], n);
    CountConcat(slots[..p], [slots[p]], n);
    CountAbsent(slots[..p], n);
    CountAbsent(slots[p + 1..], n);
  }

  lemma CountReported(slots: seq<Slot>, n: Node, count: nat, k: Node)
    requires forall i, j | 0 <= i < j < |slots| :: slots[i].node != slots[j].node
    ensures CountOf(Reported(slots, n, count), k) == if k == n then count else CountOf(slots, k)
  {
    var p := Position(slots, n);
    if p < |slots| {
      CountPositive(slots[p := Slot(n, count)], k);
      CountReplace(slots, p, Slot(n, count), k);
      CountListed(slots, p);
    } else {
      CountPositive(slots + [Slot(n, count)], k);
      CountConcat(slots, [Slot(n, count)], k);
      CountAbsent(slots, n);
    }
  }

  lemma CountDropped(slots: seq<Slot>, n: Node, k: Node)
    requires forall i, j | 0 <= i < j < |slots| :: slots[i].node != slots[j].node
    ensures CountOf(Dropped(slots, n), k) == if k == n then 0 else CountOf(slots, k)
  {
    var p := Position(slots, n);
    if p == |slots| {
      CountAbsent(slots, n);
    } else {
      var last := slots[|slots| - 1];
      var moved := slots[p := last];
      CountReplace(slots, p, last, k);
      assert moved == moved[..|slots| - 1] + [last];
      CountConcat(moved[..|slots| - 1], [last], k);
      CountPositive(moved[..|slots| - 1], k);
      CountListed(slots, p);
      if k == n && p < |slots| - 1 { CountAbsent(moved[..|slots| - 1], n); }
    }
  }

  // ----- the view of a node -----

  /** A report replaces exactly the counts it mentions, and only at its own node. */
  lemma UpdateView(m: State, n: Node, r: Report, k: Node, f: Function)
    requires IndexOk(m)
    ensures View(Update(m, n, r), k, f) == if k == n && f in r.stats then r.stats[f] else View(m, k, f)
  {
    if f in r.stats {
      if f in m.cached {
        CountReported(m.cached[f], n, r.stats[f], k);
      } else {
        var only := [Slot(n, r.stats[f])];
        assert only[1..] == [];
        assert CountOf(only, k) == if k == n then r.stats[f] else 0;
        assert f in Update(m, n, r).cached <==> r.stats[f] > 0;
      }
    }
  }

  lemma RemoveView(m: State, n: Node, k: Node, f: Function)
    requires IndexOk(m)
    ensures View(RemoveNode(m, n), k, f) == if k == n then 0 else View(m, k, f)
  {
    if f in m.cached { CountDropped(m.cached[f], n, k); }
  }

  /** A node that was dropped is unknown, idle nowhere and listed nowhere; the others are as they were. */
  lemma RemovedIsForgotten(m: State, n: Node)
    requires IndexOk(m)
    ensures var m' := RemoveNode(m, n);
            && n !in m'.info && n !in m'.idle
            && (forall f, i | f in m'.cached && 0 <= i < |m'.cached[f]| :: m'.cached[f][i].node != n)
            && forall k | k != n ::
                 && (k in m'.info <==> k in m.info) && (k in m.info ==> m'.info[k] == m.info[k])
                 && IdleAt(m', k) == IdleAt(m, k)
  {
    RemoveOk(m, n);
    assert forall f | f in RemoveNode(m, n).cached :: SlotsOk(m.info - {n}, RemoveNode(m, n).cached[f]);
  }

  /** Serving a function from a clean cached node uses up one machine of that function there. */
  lemma FindIdleView(m: State, f: Function, pick: Node, k: Node, g: Function)
    requires IndexOk(m) && (m.idle != map[] ==> pick in m.idle)
    ensures var used := if f == g && Chosen(m, f).Some? && m.cached[f][Chosen(m, f).value].node == k then 1 else 0;
            View(m, k, g) == View(FindIdle(m, f, pick).0, k, g) + used
  {
    if Chosen(m, f).Some? {
      var slots, i := m.cached[f], Chosen(m, f).value;
      var slot := Slot(slots[i].node, slots[i].count - 1);
      CountPositive(slots[i := slot], k);
      CountReplace(slots, i, slot, k);
    }
  }

  // ----- work conservation -----

  /** A clean node promises no more cached machines than it has idle workers. */
  ghost predicate CoversNode(m: State, n: Node) {
    Promised(m.cached, n) <= |IdleAt(m, n)|
  }

  ghost predicate Conserving(m: State) {
    forall n | n in m.info && !m.info[n].dirty :: CoversNode(m, n)
  }

  lemma UnknownPromisesNothing(info: map<Node, NodeInfo>, c: Cached, n: Node)
    requires n !in info && forall f | f in c :: SlotsOk(info, c[f])
    ensures Promised(c, n) == 0
  {
    forall f ensures CountIn(c, n, f) == CountIn(map[], n, f) { if f in c { CountAbsent(c[f], n); } }
    PromisedSame(c, map[], n);
  }

  lemma AddIdleConserves(m: State, w: Worker)
    requires IndexOk(m) && Conserving(m)
    ensures Conserving(AddIdle(m, w))
  {
    var m' := AddIdle(m, w);
    forall n | n in m'.info && !m'.info[n].dirty ensures CoversNode(m', n) {
      if n in m.info { assert CoversNode(m, n); } else { UnknownPromisesNothing(m.info, m.cached, n); }
    }
  }

  lemma OneWorkerLess(m: State, n: Node, k: Node)
    requires n in m.idle && m.idle[n] != []
    ensures |IdleAt(m.(idle := WithoutLast(m.idle, n)), k)| == |IdleAt(m, k)| - if k == n then 1 else 0
  {
  }

  /** Serving from a cached node takes one machine off its promise, and at most one of its workers. */
  lemma ServingCovers(m: State, f: Function, pick: Node, k: Node)
    requires IndexOk(m) && (m.idle != map[] ==> pick in m.idle) && Chosen(m, f).Some? && CoversNode(m, k)
    ensures CoversNode(FindIdle(m, f, pick).0, k)
  {
    var m' := FindIdle(m, f, pick).0;
    var n := m.cached[f][Chosen(m, f).value].node;
    FindIdleView(m, f, pick, k, f);
    PromisedSet(m.cached, k, f, m'.cached[f]);
    if n in m.idle { OneWorkerLess(m, n, k); }
    hide Promised, CountOf, Used, Chosen, IndexOk, WithoutLast;
  }

  lemma FindIdleConserves(m: State, f: Function, pick: Node)
    requires IndexOk(m) && Conserving(m) && (m.idle != map[] ==> pick in m.idle)
    ensures Conserving(FindIdle(m, f, pick).0)
  {
    var m' := FindIdle(m, f, pick).0;
    forall n | n in m'.info && !m'.info[n].dirty ensures CoversNode(m', n) {
      assert CoversNode(m, n);
      if Chosen(m, f).Some? { ServingCovers(m, f, pick, n); }
      hide Promised, CountOf, Used;
    }
  }

  lemma RemoveConserves(m: State, n: Node)
    requires IndexOk(m) && Conserving(m)
    ensures Conserving(RemoveNode(m, n))
  {
    var m' := RemoveNode(m, n);
    forall k | k in m'.info && !m'.info[k].dirty ensures CoversNode(m', k) {
      assert CoversNode(m, k);
      forall f ensures CountIn(m'.cached, k, f) == CountIn(m.cached, k, f) { RemoveView(m, n, k, f); }
      PromisedSame(m.cached, m'.cached, k);
    }
  }

  /** What a report makes the view promise at its node: what it mentions, and what it is silent about. */
  ghost function PromisedBy(m: State, n: Node, r: Report): nat {
    Sum(r.stats) + Promised(m.cached - r.stats.Keys, n)
  }

  lemma UpdatePromises(m: State, n: Node, r: Report)
    requires IndexOk(m)
    ensures Promised(Update(m, n, r).cached, n) == PromisedBy(m, n, r)
  {
    var silent, m' := m.cached - r.stats.Keys, Update(m, n, r);
    forall f ensures At(Counts(m'.cached, n), f) == At(r.stats, f) + At(Counts(silent, n), f) {
      UpdateView(m, n, r, n, f);
      assert At(Counts(m'.cached, n), f) == View(m', n, f);
    }
    SumAdd(r.stats.Keys + silent.Keys + m'.cached.Keys, r.stats, Counts(silent, n), Counts(m'.cached, n));
  }

  /**
   * A report keeps the view conserving exactly when the machines it mentions, and those the view keeps
   * at the node for functions it is silent about, are covered by the workers idle there.
   */
  lemma UpdateConservesIff(m: State, n: Node, r: Report)
    requires IndexOk(m) && Conserving(m)
    ensures Conserving(Update(m, n, r)) <==> PromisedBy(m, n, r) <= |IdleAt(m, n)|
  {
    var m' := Update(m, n, r);
    forall k | k in m'.info && !m'.info[k].dirty && k != n ensures CoversNode(m', k) {
      assert CoversNode(m, k);
      forall f ensures CountIn(m'.cached, k, f) == CountIn(m.cached, k, f) { UpdateView(m, n, r, k, f); }
      PromisedSame(m.cached, m'.cached, k);
    }
    UpdatePromises(m, n, r);
    assert n in m'.info && !m'.info[n].dirty;
    assert CoversNode(m', n) <==> PromisedBy(m, n, r) <= |IdleAt(m, n)|;
  }

  lemma {:induction false} FirstCleanIsClean(info: map<Node, NodeInfo>, slots: seq<Slot>)
    ensures match FirstClean(info, slots)
            case Some(i) => slots[i].node in info && !info[slots[i].node].dirty
                            && forall j | 0 <= j < i :: slots[j].node !in info || info[slots[j].node].dirty
            case None => forall j | 0 <= j < |slots| :: slots[j].node !in info || info[slots[j].node].dirty
  {
    if slots != [] && !(slots[0].node in info && !info[slots[0].node].dirty) {
      FirstCleanIsClean(info, slots[1..]);
      match FirstClean(info, slots[1..])
      case Some(i) =>
        forall j | 0 <= j < i + 1 ensures slots[j].node !in info || info[slots[j].node].dirty {
          if j > 0 { assert slots[j] == slots[1..][j - 1]; }
        }
      case None =>
        forall j | 0 <= j < |slots| ensures slots[j].node !in info || info[slots[j].node].dirty {
          if j > 0 { assert slots[j] == slots[1..][j - 1]; }
        }
    }
  }

  predicate Clean(m: State, n: Node) {
    n in m.info && !m.info[n].dirty
  }

  /**
   * While some worker is idle, the scheduler overlooks them all exactly when the first clean node that
   * is listed for the function has no idle worker of its own.
   */
  lemma OverlooksIff(m: State, f: Function, pick: Node)
    requires IndexOk(m) && (m.idle != map[] ==> pick in m.idle)
    ensures m.idle != map[] ==>
              (FindIdle(m, f, pick).1.None? <==>
                 && f in m.cached
                 && exists i :: 0 <= i < |m.cached[f]| && Clean(m, m.cached[f][i].node)
                                && m.cached[f][i].node !in m.idle
                                && forall j | 0 <= j < i :: !Clean(m, m.cached[f][j].node))
  {
    FindIdleNoneIff(m, f, pick);
    if f in m.cached {
      var slots := m.cached[f];
      FirstCleanIsClean(m.info, slots);
      if Chosen(m, f).Some? {
        var i := Chosen(m, f).value;
        assert Clean(m, slots[i].node) && forall j | 0 <= j < i :: !Clean(m, slots[j].node);
      } else {
        assert forall j | 0 <= j < |slots| :: !Clean(m, slots[j].node);
      }
    }
  }

  /**
   * Who serves: a worker of the first clean node that is listed for the function, and nothing is marked;
   * or, if no clean node is listed, a worker of the node picked, which becomes dirty.
   */
  lemma ServedBy(m: State, f: Function, pick: Node)
    requires IndexOk(m) && m.idle != map[] && pick in m.idle && FindIdle(m, f, pick).1.Some?
    ensures var (m', w) := FindIdle(m, f, pick);
            var n := NodeOf(w.value);
            if f in m.cached && exists i :: 0 <= i < |m.cached[f]| && Clean(m, m.cached[f][i].node) then
              && m'.info == m.info
              && exists i :: 0 <= i < |m.cached[f]| && n == m.cached[f][i].node && Clean(m, n)
                             && forall j | 0 <= j < i :: !Clean(m, m.cached[f][j].node)
            else n == pick && m'.info == m.info[pick := m.info[pick].(dirty := true)]
  {
    if f in m.cached { FirstCleanIsClean(m.info, m.cached[f]); }
    if Chosen(m, f).Some? {
      var i := Chosen(m, f).value;
      assert Clean(m, m.cached[f][i].node);
    } else if f in m.cached {
      assert forall j | 0 <= j < |m.cached[f]| :: !Clean(m, m.cached[f][j].node);
    }
  }

  /** Workers of a node serve last in, first out: whoever joined last is taken, and the others wait as before. */
  lemma LastInFirstOut(m: State, w: Worker, f: Function)
    requires IndexOk(m)
    requires FindIdle(AddIdle(m, w), f, NodeOf(w)).1.Some?
    requires NodeOf(FindIdle(AddIdle(m, w), f, NodeOf(w)).1.value) == NodeOf(w)
    ensures var (m', taken) := FindIdle(AddIdle(m, w), f, NodeOf(w)); taken == Some(w) && m'.idle == m.idle
  {
    var added, n := AddIdle(m, w), NodeOf(w);
    AddIdleOk(m, w);
    assert added.idle[n][..|added.idle[n]| - 1] == IdleAt(m, n);
    assert WithoutLast(added.idle, n) == m.idle;
    if Chosen(added, f).Some? {
      var k := added.cached[f][Chosen(added, f).value].node;
      assert k in added.idle && NodeOf(added.idle[k][|added.idle[k]| - 1]) == k;
    }
  }

  /** Under a conserving view the scheduler comes back empty-handed only when no worker is idle anywhere. */
  lemma NoneMeansNoneIdle(m: State, f: Function, pick: Node)
    requires IndexOk(m) && Conserving(m) && (m.idle != map[] ==> pick in m.idle)
    ensures FindIdle(m, f, pick).1.None? <==> m.idle == map[]
  {
    FindIdleNoneIff(m, f, pick);
    if Chosen(m, f).Some? {
      var slots, i := m.cached[f], Chosen(m, f).value;
      FirstCleanIsClean(m.info, slots);
      var n := slots[i].node;
      assert CoversNode(m, n);
      CountListed(slots, i);
      PromisedAtLeast(m.cached, n, f);
      assert n in m.idle;
    }
  }

  // ----- whole histories -----

  datatype Call =
    | Adds(worker: Worker)
    | Finds(f: Function, pick: Node)
    | Updates(node: Node, report: Report)
    | Removes(node: Node)

  /** The pick stands for whichever idle node the map iterator meets first. */
  predicate Enabled(m: State, c: Call) {
    c.Finds? && m.idle != map[] ==> c.pick in m.idle
  }

  ghost function Do(m: State, c: Call): State {
    if !IndexOk(m) || !Enabled(m, c) then m
    else (match c
          case Adds(w) => AddIdle(m, w)
          case Finds(f, pick) => FindIdle(m, f, pick).0
          case Updates(n, r) => Update(m, n, r)
          case Removes(n) => RemoveNode(m, n))
  }

  ghost function History(calls: seq<Call>): State {
    if calls == [] then EMPTY else Do(History(calls[..|calls| - 1]), calls[|calls| - 1])
  }

  /** No unwrap, decrement or pop of the manager can fail, whatever was called before. */
  lemma {:induction false} HistoryIsOk(calls: seq<Call>)
    ensures IndexOk(History(calls))
  {
    if calls != [] {
      var m, c := History(calls[..|calls| - 1]), calls[|calls| - 1];
      HistoryIsOk(calls[..|calls| - 1]);
      if Enabled(m, c) {
        match c
        case Adds(w) => AddIdleOk(m, w);
        case Finds(f, pick) => FindIdleOk(m, f, pick);
        case Updates(n, r) => UpdateOk(m, n, r);
        case Removes(n) => RemoveOk(m, n);
      }
    }
  }

  // ----- conserving histories -----

  ghost predicate AlwaysConserving(calls: seq<Call>) {
    && Conserving(History(calls))
    && (calls != [] ==> AlwaysConserving(calls[..|calls| - 1]))
  }

  /** Each report is covered by the workers idle at its node when it is processed. */
  ghost predicate ReportsCovered(calls: seq<Call>) {
    calls != [] ==>
      && ReportsCovered(calls[..|calls| - 1])
      && (var m, c := History(calls[..|calls| - 1]), calls[|calls| - 1];
          c.Updates? ==> PromisedBy(m, c.node, c.report) <= |IdleAt(m, c.node)|)
  }

  lemma CallConservesIff(m: State, c: Call)
    requires IndexOk(m) && Conserving(m)
    ensures Conserving(Do(m, c)) <==> (c.Updates? ==> PromisedBy(m, c.node, c.report) <= |IdleAt(m, c.node)|)
  {
    hide Conserving, PromisedBy, IdleAt;
    if Enabled(m, c) {
      match c
      case Adds(w) => AddIdleConserves(m, w);
      case Finds(f, pick) => FindIdleConserves(m, f, pick);
      case Updates(n, r) => UpdateConservesIff(m, n, r);
      case Removes(n) => RemoveConserves(m, n);
    }
  }

  /** The view is conserving at every moment of a history exactly when each of its reports is covered. */
  lemma {:induction false} HistoryConservesIff(calls: seq<Call>)
    ensures AlwaysConserving(calls) <==> ReportsCovered(calls)
  {
    if calls == [] {
      assert forall n :: n !in EMPTY.info;
    } else {
      var before := calls[..|calls| - 1];
      HistoryConservesIff(before);
      HistoryIsOk(before);
      if AlwaysConserving(before) { CallConservesIff(History(before), calls[|calls| - 1]); }
    }
  }

  // ----- workers are conserved -----

  /** How often the worker is idle; by the index invariant it can be so only at its own node. */
  function IdleCount(m: State, w: Worker): nat {
    multiset(IdleAt(m, NodeOf(w)))[w]
  }

  /** How often a history added the worker. */
  function Added(calls: seq<Call>, w: Worker): nat {
    if calls == [] then 0
    else Added(calls[..|calls| - 1], w) + if calls[|calls| - 1] == Adds(w) then 1 else 0
  }

  /** How often it was handed to the scheduler, or told to terminate with its node. */
  ghost function Left(calls: seq<Call>, w: Worker): nat {
    if calls == [] then 0
    else
      var m, c := History(calls[..|calls| - 1]), calls[|calls| - 1];
      Left(calls[..|calls| - 1], w) + Leaves(m, c, w)
  }

  ghost function Leaves(m: State, c: Call, w: Worker): nat {
    if !IndexOk(m) || !Enabled(m, c) then 0
    else if c.Finds? && FindIdle(m, c.f, c.pick).1 == Some(w) then 1
    else if c.Removes? && NodeOf(w) == c.node then IdleCount(m, w)
    else 0
  }

  lemma IdleElsewhere(m: State, w: Worker, n: Node)
    requires IndexOk(m) && n != NodeOf(w)
    ensures w !in IdleAt(m, n)
  {
  }

  lemma FindIdleCounts(m: State, f: Function, pick: Node, w: Worker)
    requires IndexOk(m) && (m.idle != map[] ==> pick in m.idle)
    ensures IdleCount(m, w) == IdleCount(FindIdle(m, f, pick).0, w) + if FindIdle(m, f, pick).1 == Some(w) then 1 else 0
  {
    var n := if Chosen(m, f).Some? then m.cached[f][Chosen(m, f).value].node else pick;
    if n in m.idle { WithoutLastCounts(m, n, w); }
    hide IndexOk, Chosen, Used, WithoutLast, NodeOf;
  }

  /** Taking the most recent worker of a node takes that worker once, and no other. */
  lemma WithoutLastCounts(m: State, n: Node, w: Worker)
    requires IndexOk(m) && n in m.idle
    ensures IdleCount(m, w)
            == IdleCount(m.(idle := WithoutLast(m.idle, n)), w) + if m.idle[n][|m.idle[n]| - 1] == w then 1 else 0
  {
    var ws := m.idle[n];
    assert ws == ws[..|ws| - 1] + [ws[|ws| - 1]];
    assert NodeOf(ws[|ws| - 1]) == n;
  }

  lemma AddIdleCounts(m: State, w: Worker, v: Worker)
    ensures IdleCount(AddIdle(m, w), v) == IdleCount(m, v) + if w == v then 1 else 0
  {
  }

  lemma UpdateCounts(m: State, n: Node, r: Report, w: Worker)
    ensures IdleCount(Update(m, n, r), w) == IdleCount(m, w)
  {
    hide CachedAfter;
  }

  lemma RemoveCounts(m: State, n: Node, w: Worker)
    requires IndexOk(m)
    ensures IdleCount(m, w) == IdleCount(RemoveNode(m, n), w) + multiset(IdleAt(m, n))[w]
    ensures NodeOf(w) != n ==> multiset(IdleAt(m, n))[w] == 0
  {
    if NodeOf(w) != n { IdleElsewhere(m, w, n); }
  }

  lemma CallCounts(m: State, c: Call, w: Worker)
    requires IndexOk(m)
    ensures IdleCount(m, w) + (if c == Adds(w) then 1 else 0) == IdleCount(Do(m, c), w) + Leaves(m, c, w)
  {
    if c.Removes? { assert IdleCount(m, w) == multiset(IdleAt(m, NodeOf(w)))[w]; }
    hide IndexOk, IdleCount, IdleAt, AddIdle, FindIdle, Update, RemoveNode, NodeOf;
    match c
    case Adds(v) => AddIdleCounts(m, v, w);
    case Finds(f, pick) => if Enabled(m, c) { FindIdleCounts(m, f, pick, w); }
    case Updates(n, r) => UpdateCounts(m, n, r, w);
    case Removes(n) => RemoveCounts(m, n, w);
  }

  /** Every worker ever added is idle, was handed out, or was terminated, each time exactly once. */
  lemma {:induction false} WorkersAreConserved(calls: seq<Call>, w: Worker)
    ensures Added(calls, w) == IdleCount(History(calls), w) + Left(calls, w)
  {
    if calls != [] {
      var before := calls[..|calls| - 1];
      var m, c := History(before), calls[|calls| - 1];
      WorkersAreConserved(before, w);
      HistoryIsOk(before);
      CallCounts(m, c, w);
      hide IndexOk;
    }
  }

  // ----- the view agrees with the last report -----

  /** The functions that the last report of the node mentioned, since it was last dropped. */
  function LastKeys(calls: seq<Call>, n: Node): set<Function> {
    if calls == [] then {}
    else
      var c := calls[|calls| - 1];
      if c.Updates? && c.node == n then c.report.stats.Keys
      else if c.Removes? && c.node == n then {}
      else LastKeys(calls[..|calls| - 1], n)
  }

  /** A machine never stops mentioning a function it has mentioned. */
  predicate KeepsKeys(calls: seq<Call>, n: Node) {
    calls != [] ==>
      && KeepsKeys(calls[..|calls| - 1], n)
      && (var c := calls[|calls| - 1];
          c.Updates? && c.node == n ==> LastKeys(calls[..|calls| - 1], n) <= c.report.stats.Keys)
  }

  lemma {:induction false} ViewWithinKeys(calls: seq<Call>, n: Node, f: Function)
    requires KeepsKeys(calls, n) && View(History(calls), n, f) > 0
    ensures f in LastKeys(calls, n)
  {
    if calls != [] {
      var before := calls[..|calls| - 1];
      var m, c := History(before), calls[|calls| - 1];
      HistoryIsOk(before);
      if Enabled(m, c) {
        match c
        case Adds(_) =>
        case Finds(g, pick) => FindIdleView(m, g, pick, n, f);
        case Updates(k, r) => UpdateView(m, k, r, n, f);
        case Removes(k) => RemoveView(m, k, n, f);
      }
      if !(c.Updates? && c.node == n && f in c.report.stats) && !(c.Removes? && c.node == n) {
        ViewWithinKeys(before, n, f);
      }
    }
  }

  /** After a report is processed, the view of its node is the report: nothing more, nothing less. */
  lemma ViewIsTheReport(calls: seq<Call>, n: Node, r: Report, f: Function)
    requires KeepsKeys(calls + [Updates(n, r)], n)
    ensures View(History(calls + [Updates(n, r)]), n, f) == if f in r.stats then r.stats[f] else 0
  {
    var all := calls + [Updates(n, r)];
    assert all[..|all| - 1] == calls;
    HistoryIsOk(calls);
    UpdateView(History(calls), n, r, n, f);
    if f !in r.stats && View(History(calls), n, f) > 0 { ViewWithinKeys(calls, n, f); }
  }

  /** For a machine that keeps mentioning its functions the report alone decides. */
  lemma FullReportConservesIff(calls: seq<Call>, n: Node, r: Report)
    requires KeepsKeys(calls + [Updates(n, r)], n) && Conserving(History(calls))
    ensures Conserving(History(calls + [Updates(n, r)])) <==> Sum(r.stats) <= |IdleAt(History(calls), n)|
  {
    hide Conserving;
    var all, m := calls + [Updates(n, r)], History(calls);
    assert all[..|all| - 1] == calls;
    HistoryIsOk(calls);
    UpdateConservesIff(m, n, r);
    var silent := m.cached - r.stats.Keys;
    forall f ensures CountIn(silent, n, f) == CountIn(map[], n, f) {
      if f in silent && View(m, n, f) > 0 { ViewWithinKeys(calls, n, f); }
    }
    PromisedSame(silent, map[], n);
    assert Counts(map[], n) == map[];
  }

  /** Reports and departures of one node leave the view of every other node alone. */
  lemma OtherNodesKeepTheirView(calls: seq<Call>, c: Call, n: Node, f: Function)
    requires (c.Updates? || c.Removes?) && c.node != n
    ensures View(History(calls + [c]), n, f) == View(History(calls), n, f)
  {
    assert (calls + [c])[..|calls|] == calls;
    HistoryIsOk(calls);
    if c.Updates? {
      UpdateView(History(calls), c.node, c.report, n, f);
    } else {
      RemoveView(History(calls), c.node, n, f);
    }
  }
}
