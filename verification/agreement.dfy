/**
 * The scheduler's view of a machine against the machine's own cache: a machine never stops
 * mentioning a function, so processing its reports in order leaves the scheduler with exactly the
 * counts of the last one.
 */
module ViewAgreement {
  import opened Wrappers
  import opened Placement
  import opened Machines
  import Allocator
  import C = Capacity

  predicate Mentions(a: Report, b: Report) {
    a.stats.Keys <= b.stats.Keys
  }

  /** Later reports mention all that earlier ones do. */
  ghost predicate Growing(reports: seq<Report>) {
    forall i, j | 0 <= i <= j < |reports| :: Mentions(reports[i], reports[j])
  }

  // ----- what a machine reports -----

  ghost predicate Within(reports: seq<Report>, cache: Allocator.Cache) {
    forall i | 0 <= i < |reports| :: reports[i].stats.Keys <= cache.Keys
  }

  lemma AppendReport(reports: seq<Report>, cache: Allocator.Cache, p: Allocator.Pool)
    requires Growing(reports) && Within(reports, cache) && cache.Keys <= p.cache.Keys
    ensures Growing(reports + [Allocator.ReportOf(p)]) && Within(reports + [Allocator.ReportOf(p)], p.cache)
  {
  }

  lemma WithinMore(reports: seq<Report>, c: Allocator.Cache, d: Allocator.Cache)
    requires Within(reports, c) && c.Keys <= d.Keys
    ensures Within(reports, d)
  {
  }

  lemma NewVmKeys(p: Allocator.Pool, f: Function, passes: nat)
    ensures Allocator.NewVm(p, f, passes).0.cache.Keys == p.cache.Keys
  {
    Allocator.LoopConserves(Allocator.Progress(p.cache, 0), f.memory, passes);
  }

  lemma TryAllocateReports(m: Machine, f: Function, payload: Machines.Labels.Label, passes: nat)
    requires Growing(m.sent) && Within(m.sent, m.pool.cache)
    ensures var (q, vm, reports) := Allocator.TryAllocate(m.pool, f, payload, passes);
            && Growing(m.sent + reports) && Within(m.sent + reports, q.cache)
            && (vm.Some? ==> reports != [] && reports[|reports| - 1] == Allocator.ReportOf(q))
  {
    hide Growing, Within, Allocator.NewVm, Allocator.ReportOf;
    var (q, vm, reports) := Allocator.TryAllocate(m.pool, f, payload, passes);
    var (p1, cached) := Allocator.GetCached(m.pool, f);
    var r1 := Allocator.ReportOf(p1);
    AppendReport(m.sent, m.pool.cache, p1);
    if !(cached.Some? && Machines.Labels.CanFlowTo(cached.value.tag, payload)) {
      var p2 := if cached.Some? then Allocator.Release(p1, cached.value) else p1;
      var then2 := if cached.Some? then m.sent + [r1] + [Allocator.ReportOf(p2)] else m.sent + [r1];
      if cached.Some? { AppendReport(m.sent + [r1], p1.cache, p2); }
      NewVmKeys(p2, f, passes);
      WithinMore(then2, p2.cache, q.cache);
      AppendReport(then2, p2.cache, q);
      assert m.sent + reports == if vm.Some? then then2 + [Allocator.ReportOf(q)] else then2;
    }
  }

  /** Each report is the cache at that moment, and the functions mentioned only grow. */
  lemma {:induction false} ReportsGrow(total: nat, acts: seq<Act>)
    ensures var m := Run(total, acts);
            && Growing(m.sent) && Within(m.sent, m.pool.cache)
            && (!m.stuck && m.sent != [] ==> m.sent[|m.sent| - 1] == Allocator.ReportOf(m.pool))
  {
    if acts != [] {
      var m, a := Run(total, acts[..|acts| - 1]), acts[|acts| - 1];
      ReportsGrow(total, acts[..|acts| - 1]);
      if Enabled(m, a) {
        match a
        case Acquire(_, f, payload) => TryAllocateReports(m, f, payload, f.memory);
        case GiveBack(w) => AppendReport(m.sent, m.pool.cache, Allocator.Release(m.pool, m.held[w]));
        case Throw(w) => AppendReport(m.sent, m.pool.cache, Allocator.Discard(m.pool, m.held[w]));
      }
    }
  }

  // ----- what the scheduler makes of it -----

  /** The reports of the node that the scheduler has processed, in order. */
  function Processed(calls: seq<C.Call>, n: Node): seq<Report> {
    if calls == [] then []
    else
      var c := calls[|calls| - 1];
      Processed(calls[..|calls| - 1], n) + if c.Updates? && c.node == n then [c.report] else []
  }

  lemma {:induction false} GrowingKeepsKeys(calls: seq<C.Call>, n: Node)
    requires Growing(Processed(calls, n))
    ensures C.KeepsKeys(calls, n)
    ensures var done := Processed(calls, n);
            C.LastKeys(calls, n) <= if done == [] then {} else done[|done| - 1].stats.Keys
  {
    if calls != [] {
      var before, c := calls[..|calls| - 1], calls[|calls| - 1];
      var done, earlier := Processed(calls, n), Processed(before, n);
      assert forall i | 0 <= i < |earlier| :: done[i] == earlier[i];
      GrowingKeepsKeys(before, n);
      if c.Updates? && c.node == n && earlier != [] { assert Mentions(done[|earlier| - 1], done[|earlier|]); }
    }
  }

  /** Once the scheduler has processed what the machine sent, its view of the node is the machine's cache. */
  lemma SchedulerSeesTheCache(total: nat, acts: seq<Act>, calls: seq<C.Call>, n: Node, r: Report, f: Function)
    requires Processed(calls + [C.Updates(n, r)], n) == Run(total, acts).sent && !Run(total, acts).stuck
    ensures C.View(C.History(calls + [C.Updates(n, r)]), n, f) == |Allocator.ListOf(Run(total, acts).pool.cache, f)|
  {
    var all, m := calls + [C.Updates(n, r)], Run(total, acts);
    ReportsGrow(total, acts);
    GrowingKeepsKeys(all, n);
    C.ViewIsTheReport(calls, n, r, f);
    assert Processed(all, n) == Processed(calls, n) + [r] by { assert all[..|calls|] == calls; }
    assert r == Allocator.ReportOf(m.pool);
  }

  /** And what it knows of the node's memory is what the machine has, in all and free. */
  lemma SchedulerSeesTheMemory(total: nat, acts: seq<Act>, calls: seq<C.Call>, n: Node, r: Report)
    requires Processed(calls + [C.Updates(n, r)], n) == Run(total, acts).sent && !Run(total, acts).stuck
    ensures var m := C.History(calls + [C.Updates(n, r)]);
            n in m.info && m.info[n] == NodeInfo(total, Run(total, acts).pool.free, false)
  {
    var all, m := calls + [C.Updates(n, r)], Run(total, acts);
    ReportsGrow(total, acts);
    RunKeyed(total, acts);
    assert all[..|calls|] == calls;
    C.HistoryIsOk(calls);
    assert Processed(all, n) == Processed(calls, n) + [r];
    assert r == Allocator.ReportOf(m.pool);
  }

  /** In between, after any prefix of the machine's reports, it is the cache that the last of them showed. */
  lemma ViewLagsBehind(total: nat, acts: seq<Act>, calls: seq<C.Call>, n: Node, r: Report, f: Function)
    requires Processed(calls + [C.Updates(n, r)], n) <= Run(total, acts).sent
    ensures C.View(C.History(calls + [C.Updates(n, r)]), n, f) == if f in r.stats then r.stats[f] else 0
  {
    var done, sent := Processed(calls + [C.Updates(n, r)], n), Run(total, acts).sent;
    ReportsGrow(total, acts);
    forall i, j | 0 <= i <= j < |done| ensures Mentions(done[i], done[j]) { assert Mentions(sent[i], sent[j]); }
    GrowingKeepsKeys(calls + [C.Updates(n, r)], n);
    C.ViewIsTheReport(calls, n, r, f);
  }
}
