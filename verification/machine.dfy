/**
 * A worker machine at large: any number of worker threads take machines from the shared allocator
 * and give them back or discard them, in any order. The allocator is behind one lock, so an act is
 * one atomic turn; a turn that never ends leaves the machine stuck with the lock held.
 */
module Machines {
  import opened Wrappers
  import opened Sums
  import opened Allocator
  import Labels
  import Placement
  import Capacity

  datatype Machine = Machine(pool: Pool, held: map<nat, Vm>, stuck: bool, sent: seq<Report>)

  datatype Act =
    | Acquire(worker: nat, code: Function, payload: Labels.Label)
    | GiveBack(worker: nat)
    | Throw(worker: nat)

  predicate Enabled(m: Machine, a: Act) {
    !m.stuck && (a.Acquire? <==> a.worker !in m.held)
  }

  /** By `ReservationHangsIff` and `LoopEnds`, a loop that outlasts one pass per megabyte never ends. */
  ghost function Step(m: Machine, a: Act): Machine {
    if !Enabled(m, a) then m
    else (match a
          case Acquire(w, f, payload) =>
            var (p, vm, reports) := TryAllocate(m.pool, f, payload, f.memory);
            Machine(p, if vm.Some? && vm.value.Some? then m.held[w := vm.value.value] else m.held, vm.None?,
                    m.sent + reports)
          case GiveBack(w) =>
            var p := Release(m.pool, m.held[w]);
            Machine(p, m.held - {w}, false, m.sent + [ReportOf(p)])
          case Throw(w) =>
            var p := Discard(m.pool, m.held[w]);
            Machine(p, m.held - {w}, false, m.sent + [ReportOf(p)]))
  }

  function Fresh(total: nat): Machine {
    Machine(Pool(map[], 0, total, total), map[], false, [])
  }

  ghost function Run(total: nat, acts: seq<Act>): Machine {
    if acts == [] then Fresh(total) else Step(Run(total, acts[..|acts| - 1]), acts[|acts| - 1])
  }

  // ----- machines keep to their function -----

  lemma GetCachedKeyed(p: Pool, f: Function)
    requires Keyed(p.cache)
    ensures var (q, vm) := GetCached(p, f);
            Keyed(q.cache) && (vm.Some? ==> vm.value.code == f && Release(q, vm.value) == p)
  {
    var (q, vm) := GetCached(p, f);
    if vm.Some? {
      var l := p.cache[f];
      assert l[|l| - 1].code == f;
      assert l[..|l| - 1] + [l[|l| - 1]] == l;
      assert Release(q, vm.value).cache == p.cache;
    }
  }

  /** A refused cached machine goes back where it was, so the pool meets the reservation unchanged. */
  lemma TryAllocateIs(p: Pool, f: Function, payload: Labels.Label, passes: nat)
    requires Keyed(p.cache)
    ensures var (q, vm, _) := TryAllocate(p, f, payload, passes);
            var (p1, cached) := GetCached(p, f);
            if cached.Some? && Labels.CanFlowTo(cached.value.tag, payload)
            then q == p1 && vm == Some(cached) && cached.value.code == f
            else (q, vm) == NewVm(p, f, passes)
  {
    GetCachedKeyed(p, f);
  }

  lemma TryAllocateKeyed(p: Pool, f: Function, payload: Labels.Label, passes: nat)
    requires Keyed(p.cache)
    ensures Keyed(TryAllocate(p, f, payload, passes).0.cache)
  {
    TryAllocateIs(p, f, payload, passes);
    GetCachedKeyed(p, f);
    LoopKeepsKeyed(Progress(p.cache, 0), f.memory, passes);
  }

  lemma {:induction false} RunKeyed(total: nat, acts: seq<Act>)
    ensures Keyed(Run(total, acts).pool.cache) && Run(total, acts).pool.total == total
  {
    if acts != [] {
      var m, a := Run(total, acts[..|acts| - 1]), acts[|acts| - 1];
      RunKeyed(total, acts[..|acts| - 1]);
      if Enabled(m, a) && a.Acquire? {
        TryAllocateKeyed(m.pool, a.code, a.payload, a.code.memory);
        TryAllocateIs(m.pool, a.code, a.payload, a.code.memory);
      }
    }
  }

  // ----- machines stay public -----

  ghost predicate Public(c: Cache) {
    forall f, i | f in c && 0 <= i < |c[f]| :: c[f][i].tag == Labels.PUBLIC
  }

  lemma {:induction false} LoopKeepsPublic(s: Progress, mem: nat, passes: nat)
    requires Public(s.cache)
    ensures Public(Loop(s, mem, passes).cache)
    decreases passes
  {
    hide CachedMem;
    if s.freed < mem && passes > 0 { LoopKeepsPublic(OnePass(s), mem, passes - 1); }
  }

  lemma TryAllocatePublic(p: Pool, f: Function, payload: Labels.Label, passes: nat)
    requires Keyed(p.cache) && Public(p.cache)
    ensures var (q, vm, _) := TryAllocate(p, f, payload, passes);
            Public(q.cache) && (vm.Some? && vm.value.Some? ==> vm.value.value.tag == Labels.PUBLIC)
  {
    TryAllocateIs(p, f, payload, passes);
    LoopKeepsPublic(Progress(p.cache, 0), f.memory, passes);
  }

  lemma {:induction false} RunPublic(total: nat, acts: seq<Act>)
    ensures var m := Run(total, acts);
            Public(m.pool.cache) && forall w | w in m.held :: m.held[w].tag == Labels.PUBLIC
  {
    if acts != [] {
      var m, a := Run(total, acts[..|acts| - 1]), acts[|acts| - 1];
      RunPublic(total, acts[..|acts| - 1]);
      RunKeyed(total, acts[..|acts| - 1]);
      if Enabled(m, a) && a.Acquire? { TryAllocatePublic(m.pool, a.code, a.payload, a.code.memory); }
    }
  }

  /** So a cached machine serves a task exactly when the task's label claims no integrity. */
  lemma CachedIsUsedIff(total: nat, acts: seq<Act>, f: Function, payload: Labels.Label, passes: nat)
    requires ListOf(Run(total, acts).pool.cache, f) != []
    ensures var p := Run(total, acts).pool;
            var (q, vm, _) := TryAllocate(p, f, payload, passes);
            (q.made == p.made && vm == Some(Some(p.cache[f][|p.cache[f]| - 1])))
            <==> Labels.Implies(Labels.DC_TRUE, payload.integrity)
  {
    hide NewVm, TryAllocate, Labels.Implies, Labels.CanFlowTo;
    RunPublic(total, acts);
    RunKeyed(total, acts);
    var p := Run(total, acts).pool;
    assert p.cache[f][|p.cache[f]| - 1].tag == Labels.PUBLIC;
    TryAllocateIs(p, f, payload, passes);
    PublicFlowsIff(payload);
    NewVmMakes(p, f, passes);
  }

  lemma PublicFlowsIff(payload: Labels.Label)
    ensures Labels.CanFlowTo(Labels.PUBLIC, payload) <==> Labels.Implies(Labels.DC_TRUE, payload.integrity)
  {
  }

  lemma NewVmMakes(p: Pool, f: Function, passes: nat)
    ensures var (q, vm) := NewVm(p, f, passes); vm.Some? && vm.value.Some? ==> q.made == p.made + 1
  {
    hide CachedMem;
  }

  // ----- conservation -----

  function HeldWeights(held: map<nat, Vm>, weigh: Vm -> nat): map<nat, nat> {
    map w | w in held :: weigh(held[w])
  }

  ghost function Held(held: map<nat, Vm>, weigh: Vm -> nat): nat {
    Sum(HeldWeights(held, weigh))
  }

  lemma HeldPut(held: map<nat, Vm>, w: nat, vm: Vm, weigh: Vm -> nat)
    requires w !in held
    ensures Held(held[w := vm], weigh) == Held(held, weigh) + weigh(vm)
  {
    SumSet(HeldWeights(held, weigh), w, weigh(vm));
    assert HeldWeights(held[w := vm], weigh) == HeldWeights(held, weigh)[w := weigh(vm)];
  }

  lemma HeldTake(held: map<nat, Vm>, w: nat, weigh: Vm -> nat)
    requires w in held
    ensures Held(held, weigh) == Held(held - {w}, weigh) + weigh(held[w])
  {
    SumOut(HeldWeights(held, weigh), w);
    assert HeldWeights(held - {w}, weigh) == HeldWeights(held, weigh) - {w};
  }

  /** Free memory, cached machines and machines in use account for all memory. */
  ghost predicate Balanced(m: Machine) {
    m.pool.free + CachedMem(m.pool.cache) + Held(m.held, MemoryOf) == m.pool.total
  }

  lemma ReserveBalance(p: Pool, mem: nat, passes: nat)
    ensures var (q, ok) := Reserve(p, mem, passes);
            q.free + CachedMem(q.cache) + (if ok == Some(true) then mem else 0) == p.free + CachedMem(p.cache)
  {
    if p.free < mem { LoopConserves(Progress(p.cache, 0), mem, passes); }
  }

  lemma AcquireBalance(p: Pool, f: Function, payload: Labels.Label, passes: nat)
    requires Keyed(p.cache)
    ensures var (q, vm, _) := TryAllocate(p, f, payload, passes);
            q.free + CachedMem(q.cache) + (if vm.Some? && vm.value.Some? then MemoryOf(vm.value.value) else 0)
            == p.free + CachedMem(p.cache)
  {
    TryAllocateIs(p, f, payload, passes);
    GetCachedWeight(p, f, MemoryOf);
    ReserveBalance(p, f.memory, passes);
  }

  lemma StepBalance(m: Machine, a: Act)
    requires Keyed(m.pool.cache) && Balanced(m) && Enabled(m, a)
    ensures Balanced(Step(m, a))
  {
    hide Weight, Held, TryAllocate;
    match a
    case Acquire(w, f, payload) =>
      var (q, vm, _) := TryAllocate(m.pool, f, payload, f.memory);
      TryAllocateIs(m.pool, f, payload, f.memory);
      AcquireBalance(m.pool, f, payload, f.memory);
      if vm.Some? && vm.value.Some? { HeldPut(m.held, w, vm.value.value, MemoryOf); }
    case GiveBack(w) =>
      HeldTake(m.held, w, MemoryOf);
      ReleaseWeight(m.pool, m.held[w], MemoryOf);
    case Throw(w) =>
      HeldTake(m.held, w, MemoryOf);
  }

  /** No act of any worker makes or loses memory. */
  lemma {:induction false} MemoryIsConserved(total: nat, acts: seq<Act>)
    ensures Balanced(Run(total, acts))
  {
    if acts == [] {
      assert HeldWeights(map[], MemoryOf) == map[];
    } else {
      var m, a := Run(total, acts[..|acts| - 1]), acts[|acts| - 1];
      MemoryIsConserved(total, acts[..|acts| - 1]);
      RunKeyed(total, acts[..|acts| - 1]);
      if Enabled(m, a) { StepBalance(m, a); }
    }
  }

  // ----- identifiers -----

  function Named(id: nat): Vm -> nat {
    (vm: Vm) => if vm.id == id then 1 else 0
  }

  /** How many machines with this identifier are cached or in use. */
  ghost function Copies(m: Machine, id: nat): nat {
    Weight(m.pool.cache, Named(id)) + Held(m.held, Named(id))
  }

  lemma {:induction false} LoopSheds(s: Progress, mem: nat, passes: nat, weigh: Vm -> nat)
    ensures Weight(Loop(s, mem, passes).cache, weigh) <= Weight(s.cache, weigh)
    decreases passes
  {
    if s.freed < mem && passes > 0 {
      PassWeight(s.cache, weigh);
      LoopSheds(OnePass(s), mem, passes - 1, weigh);
    }
  }

  lemma NewVmCopies(p: Pool, f: Function, passes: nat, id: nat)
    ensures var (q, vm) := NewVm(p, f, passes);
            && Weight(q.cache, Named(id)) <= Weight(p.cache, Named(id))
            && (if vm.Some? && vm.value.Some? then q.made == p.made + 1 && vm.value.value.id == q.made
                else q.made == p.made)
  {
    LoopSheds(Progress(p.cache, 0), f.memory, passes, Named(id));
  }

  lemma TryAllocateCopies(p: Pool, f: Function, payload: Labels.Label, passes: nat, id: nat)
    requires Keyed(p.cache)
    ensures var (q, vm, _) := TryAllocate(p, f, payload, passes);
            && p.made <= q.made
            && Weight(q.cache, Named(id)) + (if vm.Some? && vm.value.Some? then Named(id)(vm.value.value) else 0)
               <= Weight(p.cache, Named(id)) + if p.made < id <= q.made then 1 else 0
  {
    TryAllocateIs(p, f, payload, passes);
    GetCachedWeight(p, f, Named(id));
    NewVmCopies(p, f, passes, id);
  }

  lemma AcquireCopies(m: Machine, w: nat, f: Function, payload: Labels.Label, id: nat)
    requires Keyed(m.pool.cache) && Enabled(m, Acquire(w, f, payload))
    ensures var m' := Step(m, Acquire(w, f, payload));
            m.pool.made <= m'.pool.made
            && Copies(m', id) <= Copies(m, id) + if m.pool.made < id <= m'.pool.made then 1 else 0
  {
    var (q, vm, _) := TryAllocate(m.pool, f, payload, f.memory);
    TryAllocateCopies(m.pool, f, payload, f.memory, id);
    if vm.Some? && vm.value.Some? { HeldPut(m.held, w, vm.value.value, Named(id)); }
  }

  /** An identifier names at most one machine, and only if it has been given out. */
  lemma {:induction false} IdsAreUnique(total: nat, acts: seq<Act>, id: nat)
    ensures var m := Run(total, acts); Copies(m, id) <= if 1 <= id <= m.pool.made then 1 else 0
  {
    if acts == [] {
      assert HeldWeights(map[], Named(id)) == map[];
      assert Weights(map[], Named(id)) == map[];
    } else {
      var m, a := Run(total, acts[..|acts| - 1]), acts[|acts| - 1];
      IdsAreUnique(total, acts[..|acts| - 1], id);
      RunKeyed(total, acts[..|acts| - 1]);
      if Enabled(m, a) {
        match a
        case Acquire(w, f, payload) => AcquireCopies(m, w, f, payload, id);
        case GiveBack(w) =>
          HeldTake(m.held, w, Named(id));
          ReleaseWeight(m.pool, m.held[w], Named(id));
        case Throw(w) => HeldTake(m.held, w, Named(id));
      }
    }
  }

  // ----- a machine that never runs dry -----

  const UNIT: nat := 128

  /** Every function uses 128 MB and there are as many workers as 128 MB fit the memory. */
  predicate Uniform(total: nat, acts: seq<Act>) {
    forall i | 0 <= i < |acts| :: acts[i].worker < total / UNIT && (acts[i].Acquire? ==> acts[i].code.memory == UNIT)
  }

  ghost predicate UniformState(m: Machine) {
    && (forall f | f in m.pool.cache :: f.memory == UNIT)
    && (forall w | w in m.held :: w < m.pool.total / UNIT && m.held[w].code.memory == UNIT)
  }

  function Workers(n: nat): (ws: set<nat>)
    ensures |ws| == n && forall w: nat :: w in ws <==> w < n
  {
    if n == 0 then {} else Workers(n - 1) + {n - 1}
  }

  /** While some worker holds nothing, either a unit is free or a machine is cached. */
  lemma RoomForOne(m: Machine, w: nat)
    requires Keyed(m.pool.cache) && Balanced(m) && UniformState(m)
    requires w < m.pool.total / UNIT && w !in m.held
    ensures m.pool.free >= UNIT || CachedMem(m.pool.cache) >= UNIT
  {
    var n := m.pool.total / UNIT;
    var others := Workers(n) - {w};
    SumBound(others, HeldWeights(m.held, MemoryOf), UNIT);
    if m.pool.free < UNIT {
      var f := SumPositive(Weights(m.pool.cache, MemoryOf));
      SumOut(Weights(m.pool.cache, MemoryOf), f);
      assert m.pool.cache[f][0].code == f;
    }
  }

  lemma NewVmSucceeds(p: Pool, f: Function)
    requires Keyed(p.cache) && f.memory == UNIT <= p.total && (p.free >= UNIT || CachedMem(p.cache) >= UNIT)
    ensures var (q, vm) := NewVm(p, f, UNIT);
            vm.Some? && vm.value.Some? && vm.value.value.code == f && q.cache.Keys == p.cache.Keys && q.total == p.total
  {
    ReservationSucceeds(p, UNIT);
  }

  lemma AcquireSucceeds(m: Machine, w: nat, f: Function, payload: Labels.Label)
    requires Keyed(m.pool.cache) && Balanced(m) && UniformState(m) && !m.stuck
    requires w < m.pool.total / UNIT && w !in m.held && f.memory == UNIT
    ensures var m' := Step(m, Acquire(w, f, payload)); !m'.stuck && w in m'.held && UniformState(m')
  {
    TryAllocateIs(m.pool, f, payload, UNIT);
    GetCachedKeyed(m.pool, f);
    RoomForOne(m, w);
    NewVmSucceeds(m.pool, f);
  }

  lemma {:induction false} UniformRun(total: nat, acts: seq<Act>)
    requires Uniform(total, acts)
    ensures UniformState(Run(total, acts)) && !Run(total, acts).stuck
  {
    if acts != [] {
      var before, a := acts[..|acts| - 1], acts[|acts| - 1];
      assert a == acts[|acts| - 1];
      UniformRun(total, before);
      RunKeyed(total, before);
      MemoryIsConserved(total, before);
      var m := Run(total, before);
      if Enabled(m, a) && a.Acquire? { AcquireSucceeds(m, a.worker, a.code, a.payload); }
    }
  }

  /** With 128 MB functions a worker that asks always gets a machine. */
  lemma WorkersNeverStarve(total: nat, acts: seq<Act>, w: nat, f: Function, payload: Labels.Label)
    requires Uniform(total, acts) && w < total / UNIT && f.memory == UNIT
    requires w !in Run(total, acts).held
    ensures var m := Run(total, acts + [Acquire(w, f, payload)]); !m.stuck && w in m.held
  {
    UniformRun(total, acts);
    RunKeyed(total, acts);
    MemoryIsConserved(total, acts);
    AcquireSucceeds(Run(total, acts), w, f, payload);
    assert (acts + [Acquire(w, f, payload)])[..|acts|] == acts;
  }

  lemma OneUse(f: Function, payload: Labels.Label)
    requires f.memory == UNIT
    ensures Run(2 * UNIT, [Acquire(0, f, payload), GiveBack(0)])
            == Machine(Pool(map[f := [Vm(1, f, Labels.PUBLIC)]], 1, 2 * UNIT, UNIT), map[], false,
                       Run(2 * UNIT, [Acquire(0, f, payload), GiveBack(0)]).sent)
  {
    var a0, a1, vm := Acquire(0, f, payload), GiveBack(0), Vm(1, f, Labels.PUBLIC);
    var m0, m1 := Run(2 * UNIT, []), Run(2 * UNIT, [a0]);
    assert [a0][..0] == [] && [a0, a1][..1] == [a0];
    assert m1 == Step(m0, a0);
    TryAllocateIs(m0.pool, f, payload, UNIT);
    assert m1.pool == Pool(map[], 1, 2 * UNIT, UNIT) && m1.held == map[0 := vm] && !m1.stuck;
    assert [] + [vm] == [vm];
    assert m1.held - {0} == map[];
  }

  /** With functions of other sizes it can hang although free and cached memory together would do. */
  lemma EvictionCanHang(f: Function, g: Function, payload: Labels.Label)
    requires f.memory == UNIT && g.memory == 2 * UNIT
    ensures var acts := [Acquire(0, f, payload), GiveBack(0)];
            var m := Run(2 * UNIT, acts);
            && !m.stuck && m.pool.free + CachedMem(m.pool.cache) >= g.memory
            && Run(2 * UNIT, acts + [Acquire(0, g, payload)]).stuck
  {
    var acts := [Acquire(0, f, payload), GiveBack(0)];
    var m := Run(2 * UNIT, acts);
    OneUse(f, payload);
    RunKeyed(2 * UNIT, acts);
    MemoryIsConserved(2 * UNIT, acts);
    assert HeldWeights(m.held, MemoryOf) == map[];
    assert CachedMem(m.pool.cache) == UNIT;
    hide Weight, CachedMem;
    ReservationHangsIff(m.pool, g.memory);
    TryAllocateIs(m.pool, g, payload, g.memory);
    assert (acts + [Acquire(0, g, payload)])[..2] == acts;
  }
}
