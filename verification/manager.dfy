/**
 * The scheduler's resource manager as the object it is: three maps edited in place, each method
 * proved to make exactly the change that `placement.dfy` specifies.
 */
module Manager {
  import opened Wrappers
  import opened Placement

  class ResourceManager {
    var info: map<Node, NodeInfo>
    var cached: Cached
    var idle: map<Node, seq<Worker>>

    ghost function Now(): State
      reads this
    {
      State(info, cached, idle)
    }

    ghost predicate Valid()
      reads this
    {
      IndexOk(Now())
    }

    constructor ()
      ensures Valid() && Now() == EMPTY
    {
      info, cached, idle := map[], map[], map[];
    }

    method TryAddNode(n: Node) returns (added: bool)
      modifies this`info
      ensures added == (n !in old(info)) && info == WithNode(old(info), n)
    {
      added := n !in info;
      if added {
        info := info[n := NodeInfo(0, 0, false)];
      }
    }

    method AddIdle(w: Worker)
      requires Valid()
      modifies this`info, this`idle
      ensures Valid() && Now() == Placement.AddIdle(old(Now()), w)
    {
      AddIdleOk(Now(), w);
      var n := NodeOf(w);
      var _ := TryAddNode(n);
      if n in idle {
        idle := idle[n := idle[n] + [w]];
      } else {
        idle := idle[n := [w]];
        assert [] + [w] == [w];
      }
    }

    /** Every slot's node is known, so no lookup fails on the way. */
    method FindClean(slots: seq<Slot>) returns (i: nat)
      requires SlotsOk(info, slots)
      ensures FirstClean(info, slots) == if i < |slots| then Some(i) else None
      ensures i <= |slots|
    {
      i := 0;
      while i < |slots| && info[slots[i].node].dirty
        invariant i <= |slots|
        invariant FirstClean(info, slots)
                  == if FirstClean(info, slots[i..]).Some? then Some(FirstClean(info, slots[i..]).value + i) else None
      {
        assert slots[i..][1..] == slots[i + 1..];
        i := i + 1;
      }
    }

    method Retain(slots: seq<Slot>) returns (kept: seq<Slot>)
      ensures kept == Positive(slots)
    {
      hide Positive;
      kept := [];
      var i := 0;
      while i < |slots|
        invariant i <= |slots| && kept + Positive(slots[i..]) == Positive(slots)
      {
        PositiveStep(slots, i);
        if slots[i].count != 0 { kept := kept + [slots[i]]; }
        i := i + 1;
      }
      PositiveNone(slots[i..]);
    }

    method PopWorker(n: Node) returns (w: Worker)
      requires Valid() && n in idle
      modifies this`idle
      ensures idle == WithoutLast(old(idle), n) && w == old(idle)[n][|old(idle)[n]| - 1]
    {
      ghost var was := idle;
      var v := idle[n];
      w := v[|v| - 1];
      idle := idle[n := v[..|v| - 1]];
      idle := map k | k in idle && idle[k] != [] :: idle[k];
      assert forall k | k in was :: was[k] != [];
    }

    /** Uses up one cached machine of the node in slot `i`, and one of its idle workers if it has any. */
    method ServeCached(f: Function, i: nat) returns (worker: Option<Worker>)
      requires Valid() && f in cached && i < |cached[f]|
      modifies this`cached, this`idle
      ensures cached == old(cached)[f := Used(old(cached)[f], i)]
      ensures var n := old(cached)[f][i].node;
              if n in old(idle)
              then idle == WithoutLast(old(idle), n) && worker == Some(old(idle)[n][|old(idle)[n]| - 1])
              else idle == old(idle) && worker == None
    {
      hide Positive;
      var n := cached[f][i].node;
      var kept := Retain(cached[f][i := Slot(n, cached[f][i].count - 1)]);
      worker := None;
      if n in idle {
        var w := PopWorker(n);
        worker := Some(w);
      }
      cached := cached[f := kept];
    }

    /** `pick` is the idle node that the map iterator happens to offer first. */
    method FindIdle(f: Function) returns (worker: Option<Worker>, ghost pick: Node)
      requires Valid()
      modifies this
      ensures old(idle) != map[] ==> pick in old(idle)
      ensures Valid() && (Now(), worker) == Placement.FindIdle(old(Now()), f, pick)
    {
      pick := if idle == map[] then Node(0) else var n :| n in idle; n;
      FindIdleOk(Now(), f, pick);
      var i := 0;
      if f in cached { i := FindClean(cached[f]); }
      if f in cached && i < |cached[f]| {
        worker := ServeCached(f, i);
      } else if idle == map[] {
        worker := None;
      } else {
        var n :| n in idle;
        pick := n;
        FindIdleOk(Now(), f, pick);
        var w := PopWorker(n);
        info := info[n := info[n].(dirty := true)];
        worker := Some(w);
      }
    }

    method FindNode(slots: seq<Slot>, n: Node) returns (p: nat)
      ensures p == Position(slots, n)
    {
      p := 0;
      while p < |slots| && slots[p].node != n
        invariant p <= |slots| && Position(slots, n) == p + Position(slots[p..], n)
      {
        assert slots[p..][1..] == slots[p + 1..];
        p := p + 1;
      }
    }

    /** Takes one entry of a report. */
    method UpdateOne(n: Node, k: Function, count: nat)
      modifies this`cached
      ensures cached == CachedAfter(old(cached), n, map[k := count])
    {
      if k in cached {
        var nodes := cached[k];
        var p := FindNode(nodes, n);
        nodes := if p < |nodes| then nodes[p := Slot(n, count)] else nodes + [Slot(n, count)];
        nodes := Retain(nodes);
        cached := cached[k := nodes];
      } else if count > 0 {
        cached := cached[k := [Slot(n, count)]];
      }
    }

    /** The entries of the report may come in any order. */
    method UpdateCached(n: Node, stats: map<Function, nat>)
      modifies this`cached
      ensures cached == CachedAfter(old(cached), n, stats)
    {
      var todo := stats.Keys;
      ghost var done: map<Function, nat> := map[];
      assert cached == CachedAfter(cached, n, done);
      while todo != {}
        invariant todo <= stats.Keys && done == map k | k in stats.Keys - todo :: stats[k]
        invariant cached == CachedAfter(old(cached), n, done)
      {
        var k :| k in todo;
        OneMore(old(cached), n, done, k, stats[k]);
        UpdateOne(n, k, stats[k]);
        todo, done := todo - {k}, done[k := stats[k]];
      }
      assert done == stats;
    }

    method Update(n: Node, r: Report)
      requires Valid()
      modifies this`info, this`cached
      ensures Valid() && Now() == Placement.Update(old(Now()), n, r)
    {
      UpdateOk(Now(), n, r);
      var added := TryAddNode(n);
      if !added { info := info[n := info[n].(dirty := false)]; }
      info := info[n := info[n].(totalMem := r.totalMem, freeMem := r.freeMem)];
      assert info == old(info)[n := NodeInfo(r.totalMem, r.freeMem, false)];
      UpdateCached(n, r.stats);
    }

    method DropOne(n: Node, f: Function)
      requires f in cached
      modifies this`cached
      ensures cached == old(cached)[f := Dropped(old(cached)[f], n)]
    {
      hide Positive, Position;
      var v := cached[f];
      var p := FindNode(v, n);
      if p < |v| {
        v := Retain(v[p := v[|v| - 1]][..|v| - 1]);
        cached := cached[f := v];
      } else {
        assert cached == cached[f := v];
      }
    }

    method DropCached(n: Node)
      modifies this`cached
      ensures cached == map f | f in old(cached) :: Dropped(old(cached)[f], n)
    {
      var todo := cached.Keys;
      while todo != {}
        invariant todo <= old(cached).Keys == cached.Keys
        invariant forall f | f in old(cached) ::
                    cached[f] == if f in todo then old(cached)[f] else Dropped(old(cached)[f], n)
      {
        var f :| f in todo;
        DropOne(n, f);
        todo := todo - {f};
      }
    }

    /** Pops the workers one by one; each is told to terminate, the most recent first. */
    method Terminate(workers: seq<Worker>) returns (told: seq<Worker>)
      ensures |told| == |workers| && forall i | 0 <= i < |workers| :: told[i] == workers[|workers| - 1 - i]
    {
      told := [];
      var left := workers;
      while left != []
        invariant |told| + |left| == |workers| && left == workers[..|left|]
        invariant forall i | 0 <= i < |told| :: told[i] == workers[|workers| - 1 - i]
      {
        told := told + [left[|left| - 1]];
        left := left[..|left| - 1];
      }
    }

    method Remove(n: Node) returns (told: seq<Worker>)
      requires Valid()
      modifies this
      ensures Valid() && Now() == RemoveNode(old(Now()), n)
      ensures var ws := IdleAt(old(Now()), n);
              |told| == |ws| && forall i | 0 <= i < |ws| :: told[i] == ws[|ws| - 1 - i]
    {
      RemoveOk(Now(), n);
      DropCached(n);
      info := info - {n};
      if n in idle {
        var workers := idle[n];
        idle := idle - {n};
        told := Terminate(workers);
      } else {
        told := [];
        assert idle - {n} == idle;
      }
    }

    /** Nothing is left of any node, and every worker that was idle has been told. */
    method RemoveAll() returns (told: seq<Worker>)
      requires Valid()
      modifies this
      ensures Valid() && info == map[] && idle == map[]
      ensures cached.Keys == old(cached).Keys && forall f | f in cached :: cached[f] == []
      ensures forall n, i | n in old(idle) && 0 <= i < |old(idle)[n]| :: old(idle)[n][i] in told
    {
      told := [];
      var todo := info.Keys;
      while todo != {}
        invariant Valid() && info.Keys == todo && cached.Keys == old(cached).Keys
        invariant forall n | n in todo :: IdleAt(Now(), n) == IdleAt(old(Now()), n)
        invariant forall n, i | n in old(idle) && n !in todo && 0 <= i < |old(idle)[n]| :: old(idle)[n][i] in told
      {
        var n :| n in todo;
        var more := Remove(n);
        ghost var ws := IdleAt(old(Now()), n);
        forall i | 0 <= i < |ws| ensures ws[i] in more { assert more[|ws| - 1 - i] == ws[i]; }
        told := told + more;
        todo := todo - {n};
      }
      forall f | f in cached ensures cached[f] == [] {
        FirstIsKnown(info, cached[f]);
      }
    }
  }

  lemma PositiveStep(slots: seq<Slot>, i: nat)
    requires i < |slots|
    ensures Positive(slots[i..]) == (if slots[i].count > 0 then [slots[i]] else []) + Positive(slots[i + 1..])
  {
    assert slots[i..][1..] == slots[i + 1..];
  }

  lemma PositiveNone(slots: seq<Slot>)
    requires slots == []
    ensures Positive(slots) == []
  {
  }

  lemma FirstIsKnown(info: map<Node, NodeInfo>, slots: seq<Slot>)
    requires SlotsOk(info, slots)
    ensures slots == [] || slots[0].node in info
  {
  }

  /** Entries of a report act on different functions, so taking one more extends the change. */
  lemma OneMore(c: Cached, n: Node, stats: map<Function, nat>, k: Function, count: nat)
    requires k !in stats
    ensures CachedAfter(CachedAfter(c, n, stats), n, map[k := count]) == CachedAfter(c, n, stats[k := count])
  {
  }
}
