/**
 * A worker machine's resource manager as the object it is, and what a worker thread does with it.
 * A method that enters the eviction loop takes the number of passes to watch it for and answers
 * `None` if the loop is still running then; `allocator.dfy` says when that can happen.
 */
module LocalManagers {
  import opened Wrappers
  import opened Allocator
  import Labels

  class LocalManager {
    var cache: Cache
    var totalNumVms: nat
    var totalMem: nat
    var freeMem: nat
    var sent: seq<Report>

    function Now(): Pool
      reads this
    {
      Pool(cache, totalNumVms, totalMem, freeMem)
    }

    constructor (machineMem: nat)
      ensures Now() == Pool(map[], 0, machineMem, machineMem) && sent == []
    {
      cache, totalNumVms, totalMem, freeMem, sent := map[], 0, machineMem, machineMem, [];
    }

    /** Refuses 0 and more than there is. */
    method SetTotalMem(mem: nat)
      modifies this`totalMem, this`freeMem
      ensures if 0 < mem <= old(totalMem) then totalMem == freeMem == mem
              else totalMem == old(totalMem) && freeMem == old(freeMem)
    {
      if mem > totalMem {
        return;
      }
      if mem == 0 {
        return;
      }
      totalMem := mem;
      freeMem := mem;
    }

    method UpdateScheduler()
      modifies this`sent
      ensures sent == old(sent) + [ReportOf(Now())]
    {
      sent := sent + [ReportOf(Now())];
    }

    method GetCachedVm(f: Function) returns (vm: Option<Vm>)
      modifies this`cache, this`sent
      ensures (Now(), vm) == GetCached(old(Now()), f) && sent == old(sent) + [ReportOf(Now())]
    {
      if f in cache && cache[f] != [] {
        var l := cache[f];
        vm := Some(l[|l| - 1]);
        cache := cache[f := l[..|l| - 1]];
      } else {
        vm := None;
      }
      UpdateScheduler();
    }

    method Release(vm: Vm)
      modifies this`cache, this`sent
      ensures Now() == Allocator.Release(old(Now()), vm) && sent == old(sent) + [ReportOf(Now())]
    {
      if vm.code in cache {
        cache := cache[vm.code := cache[vm.code] + [vm]];
      } else {
        assert [] + [vm] == [vm];
        cache := cache[vm.code := [vm]];
      }
      UpdateScheduler();
    }

    method Delete(vm: Vm)
      modifies this`freeMem, this`sent
      ensures Now() == Discard(old(Now()), vm) && sent == old(sent) + [ReportOf(Now())]
    {
      freeMem := freeMem + vm.code.memory;
      UpdateScheduler();
    }

    /** Pops one machine off the list, if it has one, and reclaims its memory. */
    method PopOne(f: Function) returns (freed: nat)
      requires f in cache
      modifies this`cache, this`freeMem
      ensures cache == old(cache)[f := Rest(old(cache)[f])]
      ensures freed == ListWeight(Top(old(cache)[f]), MemoryOf) && freeMem == old(freeMem) + freed
    {
      var l := cache[f];
      if l != [] {
        var vm := l[|l| - 1];
        assert Top(l)[1..] == [];
        freed := vm.code.memory;
        cache := cache[f := l[..|l| - 1]];
        freeMem := freeMem + vm.code.memory;
      } else {
        assert cache == cache[f := l];
        freed := 0;
      }
    }

    /** One pass over the lists of the cache, in whatever order the map offers them. */
    method PopEach() returns (freed: nat)
      modifies this`cache, this`freeMem
      ensures cache == Pass(old(cache)) && freed == CachedMem(Tops(old(cache))) && freeMem == old(freeMem) + freed
    {
      hide CachedMem;
      freed := 0;
      var todo := cache.Keys;
      ghost var done: Cache := map[];
      NothingWeighsNothing();
      while todo != {}
        invariant todo <= old(cache).Keys == cache.Keys
        invariant done == map f | f in old(cache).Keys - todo :: Top(old(cache)[f])
        invariant forall f | f in cache :: cache[f] == if f in todo then old(cache)[f] else Rest(old(cache)[f])
        invariant freed == CachedMem(done) && freeMem == old(freeMem) + freed
      {
        var f :| f in todo;
        var more := PopOne(f);
        freed := freed + more;
        todo := todo - {f};
        AddTop(done, f, Top(old(cache)[f]));
        done := done[f := Top(old(cache)[f])];
      }
      assert done == Tops(old(cache));
    }

    method DummyEvict(mem: nat, passes: nat) returns (done: Option<bool>)
      modifies this`cache, this`freeMem
      ensures (Now(), done) == Evict(old(Now()), mem, passes)
    {
      hide CachedMem;
      if totalMem < mem {
        return Some(false);
      }
      var freed, n := 0, 0;
      ghost var start := Progress(cache, 0);
      while freed < mem && n < passes
        invariant n <= passes && freeMem == old(freeMem) + freed
        invariant Loop(Progress(cache, freed), mem, passes - n) == Loop(start, mem, passes)
      {
        ghost var s := Progress(cache, freed);
        var more := PopEach();
        Unroll(s, Progress(cache, freed + more), mem, passes - n);
        freed := freed + more;
        n := n + 1;
      }
      done := if freed >= mem then Some(true) else None;
    }

    method TryAllocateMemory(memory: nat, passes: nat) returns (done: Option<bool>)
      modifies this`cache, this`freeMem, this`totalNumVms
      ensures (Now(), done) == Reserve(old(Now()), memory, passes)
    {
      if freeMem >= memory {
        done := Some(true);
      } else {
        done := DummyEvict(memory, passes);
        if done == Some(true) { EvictedEnough(old(Now()), memory, passes); }
      }
      if done == Some(true) {
        freeMem := freeMem - memory;
        totalNumVms := totalNumVms + 1;
      }
    }

    method NewVm(f: Function, passes: nat) returns (vm: Option<Option<Vm>>)
      modifies this
      ensures (Now(), vm) == Allocator.NewVm(old(Now()), f, passes)
      ensures sent == old(sent) + if vm.Some? then [ReportOf(Now())] else []
    {
      var done := TryAllocateMemory(f.memory, passes);
      match done
      case None => vm := None;
      case Some(ok) =>
        vm := Some(if ok then Some(Vm(totalNumVms, f, Labels.PUBLIC)) else None);
        UpdateScheduler();
    }
  }

  lemma NothingWeighsNothing()
    ensures CachedMem(map[]) == 0
  {
    assert Weights(map[], MemoryOf) == map[];
  }

  lemma AddTop(done: Cache, f: Function, top: seq<Vm>)
    requires f !in done
    ensures CachedMem(done[f := top]) == CachedMem(done) + ListWeight(top, MemoryOf)
  {
    WeightSet(done, f, top, MemoryOf);
  }

  lemma Unroll(s: Progress, t: Progress, mem: nat, passes: nat)
    requires s.freed < mem && passes > 0 && t == OnePass(s)
    ensures Loop(s, mem, passes) == Loop(t, mem, passes - 1)
  {
    hide CachedMem;
  }

  lemma EvictedEnough(p: Pool, mem: nat, passes: nat)
    requires Evict(p, mem, passes).1 == Some(true)
    ensures Evict(p, mem, passes).0.free >= mem
  {
    hide CachedMem;
  }

  /** A worker takes a cached machine for the task unless that one is too tainted for the payload. */
  method TryAllocate(localrm: LocalManager, f: Function, payload: Labels.Label, passes: nat)
    returns (vm: Option<Option<Vm>>)
    modifies localrm
    ensures var (p, r, reports) := Allocator.TryAllocate(old(localrm.Now()), f, payload, passes);
            localrm.Now() == p && vm == r && localrm.sent == old(localrm.sent) + reports
  {
    hide Allocator.NewVm, Labels.CanFlowTo, ReportOf;
    var cached := localrm.GetCachedVm(f);
    if cached.Some? {
      if Labels.CanFlowTo(cached.value.tag, payload) {
        return Some(cached);
      } else {
        localrm.Release(cached.value);
      }
    }
    vm := localrm.NewVm(f, passes);
  }
}
