/**
 * The virtual machines of one worker machine: the cache of idle machines, the memory they take, and
 * the eviction loop. Here are the operations on values, the accounting they keep, and the answer to
 * when eviction ends; `localmanager.dfy` performs the operations in place.
 */
module Allocator {
  import opened Wrappers
  import opened Sums
  import Labels
  import Placement

  type Function = Placement.Function
  type Report = Placement.Report

  datatype Vm = Vm(id: nat, code: Function, tag: Labels.Label)

  type Cache = map<Function, seq<Vm>>

  datatype Pool = Pool(cache: Cache, made: nat, total: nat, free: nat)

  function ListOf(c: Cache, f: Function): seq<Vm> {
    if f in c then c[f] else []
  }

  // ----- operations -----

  function GetCached(p: Pool, f: Function): (Pool, Option<Vm>) {
    var l := ListOf(p.cache, f);
    if l == [] then (p, None) else (p.(cache := p.cache[f := l[..|l| - 1]]), Some(l[|l| - 1]))
  }

  function Release(p: Pool, vm: Vm): Pool {
    p.(cache := p.cache[vm.code := ListOf(p.cache, vm.code) + [vm]])
  }

  function Discard(p: Pool, vm: Vm): Pool {
    p.(free := p.free + vm.code.memory)
  }

  function ReportOf(p: Pool): Report {
    Placement.Report(map f | f in p.cache :: |p.cache[f]|, p.total, p.free)
  }

  /** The machine that a pass evicts from a list. */
  function Top(l: seq<Vm>): seq<Vm> {
    if l == [] then [] else [l[|l| - 1]]
  }

  function Rest(l: seq<Vm>): seq<Vm> {
    if l == [] then [] else l[..|l| - 1]
  }

  function Tops(c: Cache): Cache {
    map f | f in c :: Top(c[f])
  }

  function Pass(c: Cache): Cache {
    map f | f in c :: Rest(c[f])
  }

  function MemoryOf(vm: Vm): nat {
    vm.code.memory
  }

  function ListWeight(l: seq<Vm>, weigh: Vm -> nat): nat {
    if l == [] then 0 else weigh(l[0]) + ListWeight(l[1..], weigh)
  }

  function Weights(c: Cache, weigh: Vm -> nat): map<Function, nat> {
    map f | f in c :: ListWeight(c[f], weigh)
  }

  ghost function Weight(c: Cache, weigh: Vm -> nat): nat {
    Sum(Weights(c, weigh))
  }

  ghost function CachedMem(c: Cache): nat {
    Weight(c, MemoryOf)
  }

  /** Where the eviction loop is: what is cached, and how much it has freed. */
  datatype Progress = Progress(cache: Cache, freed: nat)

  ghost function OnePass(s: Progress): Progress {
    Progress(Pass(s.cache), s.freed + CachedMem(Tops(s.cache)))
  }

  /** The eviction loop, watched for a number of passes: each pops one machine off every list. */
  ghost function Loop(s: Progress, mem: nat, passes: nat): Progress
    decreases passes
  {
    if s.freed >= mem || passes == 0 then s else Loop(OnePass(s), mem, passes - 1)
  }

  /** `None` if the loop is still running after that many passes. */
  ghost function Evict(p: Pool, mem: nat, passes: nat): (Pool, Option<bool>) {
    if p.total < mem then (p, Some(false))
    else
      var s := Loop(Progress(p.cache, 0), mem, passes);
      (p.(cache := s.cache, free := p.free + s.freed), if s.freed >= mem then Some(true) else None)
  }

  ghost function Reserve(p: Pool, mem: nat, passes: nat): (Pool, Option<bool>) {
    if p.free >= mem then (p.(free := p.free - mem, made := p.made + 1), Some(true))
    else
      var (q, done) := Evict(p, mem, passes);
      if done == Some(true) then (q.(free := q.free - mem, made := q.made + 1), done) else (q, done)
  }

  ghost function NewVm(p: Pool, f: Function, passes: nat): (Pool, Option<Option<Vm>>) {
    var (q, done) := Reserve(p, f.memory, passes);
    match done
    case None => (q, None)
    case Some(ok) => (q, Some(if ok then Some(Vm(q.made, f, Labels.PUBLIC)) else None))
  }

  /** What a worker does for a task: a cached machine unless it is too tainted, or else a new one. */
  ghost function TryAllocate(p: Pool, f: Function, payload: Labels.Label, passes: nat)
    : (Pool, Option<Option<Vm>>, seq<Report>)
  {
    var (p1, cached) := GetCached(p, f);
    if cached.Some? && Labels.CanFlowTo(cached.value.tag, payload) then (p1, Some(cached), [ReportOf(p1)])
    else
      var p2 := if cached.Some? then Release(p1, cached.value) else p1;
      var (q, vm) := NewVm(p2, f, passes);
      (q, vm, [ReportOf(p1)] + (if cached.Some? then [ReportOf(p2)] else []) + if vm.Some? then [ReportOf(q)] else [])
  }

  // ----- weights -----

  lemma {:induction false} ListWeightSnoc(l: seq<Vm>, vm: Vm, weigh: Vm -> nat)
    ensures ListWeight(l + [vm], weigh) == ListWeight(l, weigh) + weigh(vm)
  {
    if l == [] {
      assert (l + [vm])[1..] == [];
    } else {
      assert (l + [vm])[1..] == l[1..] + [vm];
      ListWeightSnoc(l[1..], vm, weigh);
    }
  }

  lemma TopAndRest(l: seq<Vm>, weigh: Vm -> nat)
    ensures ListWeight(l, weigh) == ListWeight(Top(l), weigh) + ListWeight(Rest(l), weigh)
  {
    if l != [] {
      ListWeightSnoc(Rest(l), l[|l| - 1], weigh);
      assert Rest(l) + [l[|l| - 1]] == l;
      assert Top(l)[1..] == [];
    }
  }

  lemma WeightSet(c: Cache, f: Function, l: seq<Vm>, weigh: Vm -> nat)
    ensures Weight(c[f := l], weigh) + ListWeight(ListOf(c, f), weigh) == Weight(c, weigh) + ListWeight(l, weigh)
  {
    SumSet(Weights(c, weigh), f, ListWeight(l, weigh));
    assert Weights(c[f := l], weigh) == Weights(c, weigh)[f := ListWeight(l, weigh)];
  }

  lemma PassWeight(c: Cache, weigh: Vm -> nat)
    ensures Weight(c, weigh) == Weight(Tops(c), weigh) + Weight(Pass(c), weigh)
  {
    var a, b, s := Weights(Tops(c), weigh), Weights(Pass(c), weigh), Weights(c, weigh);
    forall f | f in c.Keys ensures At(s, f) == At(a, f) + At(b, f) { TopAndRest(c[f], weigh); }
    SumAdd(c.Keys, a, b, s);
  }

  lemma GetCachedWeight(p: Pool, f: Function, weigh: Vm -> nat)
    ensures var (q, vm) := GetCached(p, f);
            Weight(p.cache, weigh) == Weight(q.cache, weigh) + if vm.Some? then weigh(vm.value) else 0
  {
    var l := ListOf(p.cache, f);
    if l != [] {
      WeightSet(p.cache, f, l[..|l| - 1], weigh);
      TopAndRest(l, weigh);
      assert Top(l)[1..] == [];
    }
  }

  lemma ReleaseWeight(p: Pool, vm: Vm, weigh: Vm -> nat)
    ensures Weight(Release(p, vm).cache, weigh) == Weight(p.cache, weigh) + weigh(vm)
  {
    var l := ListOf(p.cache, vm.code);
    WeightSet(p.cache, vm.code, l + [vm], weigh);
    ListWeightSnoc(l, vm, weigh);
  }

  /** Machines are cached under the function they run. */
  ghost predicate Keyed(c: Cache) {
    forall f, i | f in c && 0 <= i < |c[f]| :: c[f][i].code == f
  }

  // ----- when eviction ends -----

  lemma {:induction false} LoopConserves(s: Progress, mem: nat, passes: nat)
    ensures var t := Loop(s, mem, passes);
            && CachedMem(t.cache) + t.freed == CachedMem(s.cache) + s.freed
            && t.cache.Keys == s.cache.Keys && s.freed <= t.freed
    decreases passes
  {
    if s.freed < mem && passes > 0 {
      PassWeight(s.cache, MemoryOf);
      LoopConserves(OnePass(s), mem, passes - 1);
    }
  }

  lemma PassKeyed(c: Cache)
    requires Keyed(c)
    ensures Keyed(Pass(c)) && Keyed(Tops(c))
  {
  }

  lemma {:induction false} LoopKeepsKeyed(s: Progress, mem: nat, passes: nat)
    requires Keyed(s.cache)
    ensures Keyed(Loop(s, mem, passes).cache)
    decreases passes
  {
    if s.freed < mem && passes > 0 {
      PassKeyed(s.cache);
      LoopKeepsKeyed(OnePass(s), mem, passes - 1);
    }
  }

  /** As long as memory is left in the cache a pass frees some. */
  lemma PassFrees(c: Cache)
    requires Keyed(c) && CachedMem(c) > 0
    ensures CachedMem(Tops(c)) > 0
  {
    var f := SumPositive(Weights(c, MemoryOf));
    var l := c[f];
    var last := l[|l| - 1];
    assert f.memory > 0 by { if f.memory == 0 { WeightlessList(l, f); } }
    assert last.code == f && Top(l)[1..] == [];
    SumOut(Weights(Tops(c), MemoryOf), f);
  }

  lemma {:induction false} WeightlessList(l: seq<Vm>, f: Function)
    requires forall i | 0 <= i < |l| :: l[i].code == f
    ensures f.memory == 0 ==> ListWeight(l, MemoryOf) == 0
  {
    if l != [] {
      forall i | 0 <= i < |l[1..]| ensures l[1..][i].code == f { assert l[1..][i] == l[i + 1]; }
      WeightlessList(l[1..], f);
    }
  }

  lemma PassMovesOn(s: Progress)
    requires Keyed(s.cache) && CachedMem(s.cache) > 0
    ensures var t := OnePass(s);
            Keyed(t.cache) && s.freed < t.freed && CachedMem(t.cache) + t.freed == CachedMem(s.cache) + s.freed
  {
    PassFrees(s.cache);
    PassWeight(s.cache, MemoryOf);
    PassKeyed(s.cache);
  }

  lemma OnceMore(s: Progress, t: Progress, mem: nat, passes: nat)
    requires s.freed < mem && passes > 0 && t == OnePass(s) && Loop(t, mem, passes - 1).freed >= mem
    ensures Loop(s, mem, passes).freed >= mem
  {
  }

  /** With enough memory in the cache, one pass per missing megabyte is patience enough. */
  lemma {:induction false} LoopEnds(s: Progress, mem: nat, passes: nat)
    requires Keyed(s.cache) && CachedMem(s.cache) + s.freed >= mem && s.freed + passes >= mem
    ensures Loop(s, mem, passes).freed >= mem
    decreases passes
  {
    hide CachedMem;
    if s.freed < mem {
      PassMovesOn(s);
      var t := OnePass(s);
      LoopEnds(t, mem, passes - 1);
      OnceMore(s, t, mem, passes);
    }
  }

  /** Eviction returns, after some number of passes, exactly when it refuses at once or the cache holds enough. */
  lemma EvictionEndsIff(p: Pool, mem: nat)
    requires Keyed(p.cache)
    ensures (exists passes :: Evict(p, mem, passes).1.Some?) <==> p.total < mem || CachedMem(p.cache) >= mem
  {
    if CachedMem(p.cache) >= mem {
      LoopEnds(Progress(p.cache, 0), mem, mem);
      assert Evict(p, mem, mem).1.Some?;
    }
    forall passes | Evict(p, mem, passes).1.Some? ensures p.total < mem || CachedMem(p.cache) >= mem {
      LoopConserves(Progress(p.cache, 0), mem, passes);
    }
    if p.total < mem { assert Evict(p, mem, 0).1.Some?; }
  }

  lemma ReservationSucceeds(p: Pool, mem: nat)
    requires Keyed(p.cache) && mem <= p.total && (p.free >= mem || CachedMem(p.cache) >= mem)
    ensures var (q, ok) := Reserve(p, mem, mem);
            ok == Some(true) && q.cache.Keys == p.cache.Keys && q.total == p.total && q.made == p.made + 1
  {
    if p.free < mem {
      LoopEnds(Progress(p.cache, 0), mem, mem);
      LoopConserves(Progress(p.cache, 0), mem, mem);
    }
  }

  /** No pass frees more than the one before it: a list that ran empty has nothing left to give. */
  lemma LaterPassesFreeLess(c: Cache)
    requires Keyed(c)
    ensures CachedMem(Tops(Pass(c))) <= CachedMem(Tops(c))
  {
    var a, b := Weights(Tops(Pass(c)), MemoryOf), Weights(Tops(c), MemoryOf);
    forall f | f in c.Keys ensures At(a, f) <= At(b, f) {
      var l := c[f];
      if |l| > 1 {
        assert l[|l| - 2].code == f && l[|l| - 1].code == f;
        assert Top(l)[1..] == [] && Top(Rest(l))[1..] == [];
      }
    }
    SumLe(c.Keys, a, b);
  }

  /** Eviction overshoots by less than one machine of each function that has one cached. */
  lemma {:induction false} LoopOvershoots(s: Progress, mem: nat, passes: nat)
    requires Keyed(s.cache) && s.freed < mem
    ensures Loop(s, mem, passes).freed < mem + CachedMem(Tops(s.cache)) || Loop(s, mem, passes).freed < mem
    decreases passes
  {
    if passes > 0 && OnePass(s).freed < mem {
      PassKeyed(s.cache);
      LaterPassesFreeLess(s.cache);
      LoopOvershoots(OnePass(s), mem, passes - 1);
    }
  }

  lemma EvictionFrees(p: Pool, mem: nat, passes: nat)
    requires Keyed(p.cache) && Evict(p, mem, passes).1 == Some(true)
    ensures var q := Evict(p, mem, passes).0;
            && q.free - p.free == CachedMem(p.cache) - CachedMem(q.cache)
            && mem <= q.free - p.free
            && (mem > 0 ==> q.free - p.free < mem + CachedMem(Tops(p.cache)))
  {
    LoopConserves(Progress(p.cache, 0), mem, passes);
    if mem > 0 { LoopOvershoots(Progress(p.cache, 0), mem, passes); }
  }

  /** What is cached last is taken first, and leaves the cache as it was. */
  lemma ReleasedIsTakenNext(p: Pool, vm: Vm)
    ensures var (q, taken) := GetCached(Release(p, vm), vm.code);
            taken == Some(vm) && ListOf(q.cache, vm.code) == ListOf(p.cache, vm.code)
            && q.cache - {vm.code} == p.cache - {vm.code} && (q.made, q.total, q.free) == (p.made, p.total, p.free)
  {
    var l := ListOf(p.cache, vm.code);
    assert (l + [vm])[..|l|] == l;
  }

  /** Eviction takes the machines cached last; those cached first stay, in order. */
  lemma {:induction false} EvictionKeepsTheOldest(s: Progress, mem: nat, passes: nat, f: Function)
    requires f in s.cache
    ensures f in Loop(s, mem, passes).cache && Loop(s, mem, passes).cache[f] <= s.cache[f]
    ensures |s.cache[f]| <= |Loop(s, mem, passes).cache[f]| + passes
    decreases passes
  {
    hide CachedMem;
    if s.freed < mem && passes > 0 { EvictionKeepsTheOldest(OnePass(s), mem, passes - 1, f); }
  }

  /**
   * A reservation never returns exactly when free memory is short, the machine is large enough, and
   * the cache alone does not hold enough.
   */
  lemma ReservationHangsIff(p: Pool, mem: nat)
    requires Keyed(p.cache)
    ensures (forall passes :: Reserve(p, mem, passes).1.None?) <==> p.free < mem <= p.total && CachedMem(p.cache) < mem
  {
    EvictionEndsIff(p, mem);
    forall passes ensures p.free < mem ==> Reserve(p, mem, passes).1 == Evict(p, mem, passes).1 {}
    if p.free >= mem { assert Reserve(p, mem, 0).1.Some?; }
    if p.free < mem && (p.total < mem || CachedMem(p.cache) >= mem) {
      var passes :| Evict(p, mem, passes).1.Some?;
      assert Reserve(p, mem, passes).1.Some?;
    }
  }
}
