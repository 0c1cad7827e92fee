/**
 * Path traversal. `ReadPath` is the traversal loop; it refines a pure recursive resolver, raises
 * the label by exactly the directories it lists, and the facets it creates on the way change
 * nothing about any path that could be resolved before.
 */
module Paths {
  import opened Wrappers
  import opened Labels
  import opened Objects
  import opened FacetAgreement
  import P = Protocol
  import StoreTyping

  datatype Component = Name(name: string) | FacetOf(facet: Label)

  type Path = seq<Component>

  const ROOT_ENTRY := DirEntry(KDirectory, ROOT)

  // ----- the resolver -----

  /** One component further, if it leads anywhere. */
  function Into(s: Store, e: DirEntry, c: Component): Option<DirEntry> {
    if !RefOk(s, e) then None
    else if e.kind.KDirectory? && c.Name? && c.name in s[e.uid].body.entries then Some(s[e.uid].body.entries[c.name])
    else if e.kind.KFaceted? && c.FacetOf? && FindFacet(s[e.uid].facets, c.facet).Some? then
      Some(DirEntry(KDirectory, FindFacet(s[e.uid].facets, c.facet).value))
    else None
  }

  function Resolve(s: Store, e: DirEntry, path: Path): Option<DirEntry> {
    if path == [] then Some(e)
    else
      var before := Resolve(s, e, path[..|path| - 1]);
      if before.None? then None else Into(s, before.value, path[|path| - 1])
  }

  /** The labels of the directories listed on the way, whether or not the name was found in the last. */
  function Listed(s: Store, e: DirEntry, path: Path): seq<Label> {
    if path == [] then []
    else
      var before := Resolve(s, e, path[..|path| - 1]);
      Listed(s, e, path[..|path| - 1])
      + if before.Some? && before.value.kind.KDirectory? && RefOk(s, before.value) && path[|path| - 1].Name?
        then [s[before.value.uid].tag] else []
  }

  function RaiseAll(current: Label, tags: seq<Label>): Label {
    if tags == [] then current else Raise(tags[|tags| - 1], RaiseAll(current, tags[..|tags| - 1]))
  }

  /** Raising by all labels gives their join with the old one: it flows where all of them flow. */
  lemma {:induction false} RaiseAllIsJoin(current: Label, tags: seq<Label>, to: Label, p: Labels.Component)
    ensures CanFlowToWith(RaiseAll(current, tags), to, p)
            <==> CanFlowToWith(current, to, p) && forall i | 0 <= i < |tags| :: CanFlowToWith(tags[i], to, p)
  {
    if tags != [] {
      var rest := tags[..|tags| - 1];
      RaiseAllIsJoin(current, rest, to, p);
      LubIsLeast(tags[|tags| - 1], RaiseAll(current, rest), to, p);
      assert forall i | 0 <= i < |rest| :: rest[i] == tags[i];
    }
  }

  // ----- what a traversal may change -----

  /** New cells may appear and facet lists may grow; every other cell stays as it is. */
  ghost predicate Grown(s: Store, s': Store) {
    forall u | u in s :: u in s' && (s'[u] == s[u] || (s[u].Facets? && s'[u].Facets? && s[u].facets <= s'[u].facets))
  }

  /** Exactly one new facet: an empty directory at a new uid, appended to the list that lacked it. */
  ghost predicate MakesFacet(s: Store, t: Store, faceted: Uid, facet: Label) {
    && faceted in s && s[faceted].Facets? && FindFacet(s[faceted].facets, facet).None?
    && exists d :: d !in s
         && t == s[d := EmptyDirectory(facet)][faceted := Facets(s[faceted].facets + [Facet(facet, d)])]
  }

  /** What one more component may change: nothing, or the facet it names in the list it leads to. */
  ghost predicate OneFurther(s: Store, t: Store, prefix: Path, c: Component) {
    || t == s
    || (c.FacetOf? && Resolve(s, ROOT_ENTRY, prefix).Some? && Resolve(s, ROOT_ENTRY, prefix).value.kind.KFaceted?
        && MakesFacet(s, t, Resolve(s, ROOT_ENTRY, prefix).value.uid, c.facet))
  }

  /** What a traversal may change: the facets it names, each in the list that the path before it leads to. */
  ghost predicate GrownAlong(s: Store, t: Store, path: Path)
    decreases |path|
  {
    if path == [] then t == s
    else
      var prefix, c := path[..|path| - 1], path[|path| - 1];
      exists m: Store :: GrownAlong(s, m, prefix) && OneFurther(m, t, prefix, c)
  }

  lemma {:induction false} GrownAlongRefl(s: Store, path: Path)
    ensures GrownAlong(s, s, path)
  {
    if path != [] { GrownAlongRefl(s, path[..|path| - 1]); }
  }

  lemma GrownAlongSnoc(s: Store, m: Store, t: Store, prefix: Path, c: Component)
    requires GrownAlong(s, m, prefix) && OneFurther(m, t, prefix, c)
    ensures GrownAlong(s, t, prefix + [c])
  {
    assert (prefix + [c])[..|prefix|] == prefix;
  }

  /** A traversal that stopped early has changed no more than the whole path allows. */
  lemma {:induction false} GrownAlongPrefix(s: Store, t: Store, path: Path, i: nat)
    requires i <= |path| && GrownAlong(s, t, path[..i])
    ensures GrownAlong(s, t, path)
    decreases |path|
  {
    if i == |path| {
      assert path[..i] == path;
    } else {
      assert path[..|path| - 1][..i] == path[..i];
      GrownAlongPrefix(s, t, path[..|path| - 1], i);
    }
  }

  lemma FacetGrows(s: Store, t: Store, faceted: Uid, facet: Label)
    requires MakesFacet(s, t, faceted, facet)
    ensures Grown(s, t)
  {
  }

  lemma {:induction false} GrownAlongGrows(s: Store, t: Store, path: Path)
    requires GrownAlong(s, t, path)
    ensures Grown(s, t)
    decreases |path|
  {
    if path != [] {
      var prefix, c := path[..|path| - 1], path[|path| - 1];
      var m: Store :| GrownAlong(s, m, prefix) && OneFurther(m, t, prefix, c);
      GrownAlongGrows(s, m, prefix);
      if t != m { FacetGrows(m, t, Resolve(m, ROOT_ENTRY, prefix).value.uid, c.facet); }
      GrownTrans(s, m, t);
    }
  }

  lemma GrownTrans(a: Store, b: Store, c: Store)
    requires Grown(a, b) && Grown(b, c)
    ensures Grown(a, c)
  {
    forall u | u in a ensures u in c && (c[u] == a[u] || (a[u].Facets? && c[u].Facets? && a[u].facets <= c[u].facets)) {
      assert u in b;
    }
  }

  lemma IntoStable(s: Store, s': Store, e: DirEntry, c: Component)
    requires Grown(s, s') && Into(s, e, c).Some?
    ensures Into(s', e, c) == Into(s, e, c)
  {
    if e.kind.KFaceted? { FindFacetInLonger(s[e.uid].facets, s'[e.uid].facets, c.facet); }
  }

  /** Growth leaves what every resolvable path resolves to, and what is listed on the way, unchanged. */
  lemma {:induction false} ResolveStable(s: Store, s': Store, e: DirEntry, path: Path)
    requires Grown(s, s') && Resolve(s, e, path).Some?
    ensures Resolve(s', e, path) == Resolve(s, e, path)
    ensures Listed(s', e, path) == Listed(s, e, path)
  {
    if path != [] {
      var before := path[..|path| - 1];
      ResolveStable(s, s', e, before);
      IntoStable(s, s', Resolve(s, e, before).value, path[|path| - 1]);
    }
  }

  /** What one more component adds to a path that resolves. */
  lemma OneMoreComponent(s: Store, prefix: Path, c: Component, cur: DirEntry, base: Label)
    requires Resolve(s, ROOT_ENTRY, prefix) == Some(cur) && RefOk(s, cur)
    ensures Resolve(s, ROOT_ENTRY, prefix + [c]) == Into(s, cur, c)
    ensures RaiseAll(base, Listed(s, ROOT_ENTRY, prefix + [c])) ==
            var before := RaiseAll(base, Listed(s, ROOT_ENTRY, prefix));
            if cur.kind.KDirectory? && c.Name? then Raise(s[cur.uid].tag, before) else before
  {
    assert (prefix + [c])[..|prefix|] == prefix;
    var tags := Listed(s, ROOT_ENTRY, prefix);
    if cur.kind.KDirectory? && c.Name? {
      assert (tags + [s[cur.uid].tag])[..|tags|] == tags;
    } else {
      assert Listed(s, ROOT_ENTRY, prefix + [c]) == tags;
    }
  }

  /** A path that fails at a prefix fails, and lists nothing more. */
  lemma {:induction false} PrefixFails(s: Store, e: DirEntry, path: Path, i: nat)
    requires i <= |path| && Resolve(s, e, path[..i]).None?
    ensures Resolve(s, e, path).None? && Listed(s, e, path) == Listed(s, e, path[..i])
    decreases |path|
  {
    if i == |path| {
      assert path[..i] == path;
    } else {
      var before := path[..|path| - 1];
      assert before[..i] == path[..i];
      PrefixFails(s, e, before, i);
    }
  }

  lemma {:induction false} ResolvedIsGood(s: Store, path: Path)
    requires StoreTyped(s)
    ensures Resolve(s, ROOT_ENTRY, path).Some? ==> RefOk(s, Resolve(s, ROOT_ENTRY, path).value)
  {
    if path != [] {
      var before := path[..|path| - 1];
      ResolvedIsGood(s, before);
      if Resolve(s, ROOT_ENTRY, path).Some? {
        var e := Resolve(s, ROOT_ENTRY, before).value;
        if e.kind.KFaceted? { FindFacetIsFirst(s[e.uid].facets, path[|path| - 1].facet); }
        assert Refers(s[e.uid], Resolve(s, ROOT_ENTRY, path).value);
      }
    }
  }

  datatype Answer = Found(entry: DirEntry) | BadPath | Drawing

  datatype Hop = Next(entry: Option<DirEntry>) | Mismatch | OutOfCoins

  /** The file system of one thread while no other thread moves. */
  class FileSystem {
    var store: Store
    var current: Label
    /** The random numbers still to be drawn for new uids. */
    var coins: seq<Uid>

    ghost predicate Valid()
      reads this
    {
      StoreTyped(store)
    }

    constructor (store: Store, current: Label, coins: seq<Uid>)
      requires StoreTyped(store)
      ensures Valid() && this.store == store && this.current == current
    {
      this.store := store;
      this.current := current;
      this.coins := coins;
    }

    /** `get(..).unwrap().unlabel().entries`. */
    method List(dir: Uid) returns (entries: map<string, DirEntry>)
      requires Valid() && RefOk(store, DirEntry(KDirectory, dir))
      modifies this`current
      ensures entries == store[dir].body.entries && current == Raise(store[dir].tag, old(current))
    {
      current := Raise(store[dir].tag, current);
      entries := store[dir].body.entries;
    }

    method SetNewId(cell: Cell) returns (made: Option<Uid>)
      requires Valid() && RefsOk(store, cell)
      modifies this`store, this`coins
      ensures Valid() && Grown(old(store), store)
      ensures made.Some? ==> made.value !in old(store) && store == old(store)[made.value := cell]
      ensures made.None? ==> store == old(store)
    {
      while coins != []
        invariant store == old(store)
        decreases |coins|
      {
        var uid := coins[0];
        coins := coins[1..];
        if uid !in store {
          WriteKeepsTyped(store, uid, cell);
          store := store[uid := cell];
          return Some(uid);
        }
      }
      made := None;
    }

    /** Finds the directory of a facet, creating and appending it when it is missing. */
    method Open(faceted: Uid, facet: Label) returns (dir: Option<Uid>)
      requires Valid() && RefOk(store, DirEntry(KFaceted, faceted))
      modifies this`store, this`coins
      ensures Valid() && RefOk(store, DirEntry(KFaceted, faceted))
      ensures store == old(store) || MakesFacet(old(store), store, faceted, facet)
      ensures dir.Some? ==> FindFacet(store[faceted].facets, facet) == dir
      ensures FindFacet(old(store)[faceted].facets, facet).Some? ==> store == old(store) && dir.Some?
      ensures dir.None? ==> store == old(store)
    {
      var seen := store[faceted].facets;
      dir := FindFacet(seen, facet);
      if dir.None? {
        assert forall e :: !Refers(EmptyDirectory(facet), e);
        dir := SetNewId(EmptyDirectory(facet));
        if dir.Some? {
          StoreTyping.AppendedTyped(store, faceted, facet, dir.value);
          var longer := Facets(seen + [Facet(facet, dir.value)]);
          WriteKeepsTyped(store, faceted, longer);
          FindAppended(seen, facet, dir.value);
          store := store[faceted := longer];
          assert store == old(store)[dir.value := EmptyDirectory(facet)][faceted := longer];
        }
      }
    }

    /** One pass of the traversal loop: list a directory or open a facet, whichever the component asks for. */
    method Enter(cur: DirEntry, c: Component, ghost prefix: Path, ghost base: Label) returns (hop: Hop)
      requires Valid() && Resolve(store, ROOT_ENTRY, prefix) == Some(cur)
      requires current == RaiseAll(base, Listed(store, ROOT_ENTRY, prefix))
      modifies this
      ensures Valid() && OneFurther(old(store), store, prefix, c)
      ensures !hop.OutOfCoins? ==>
                && Resolve(store, ROOT_ENTRY, prefix + [c]) == (if hop.Next? then hop.entry else None)
                && current == RaiseAll(base, Listed(store, ROOT_ENTRY, prefix + [c]))
      ensures Resolve(old(store), ROOT_ENTRY, prefix + [c]).Some? ==> store == old(store) && hop.Next?
    {
      hide Resolve, Listed, RaiseAll, MakesFacet, Grown, StoreTyped;
      ResolvedIsGood(store, prefix);
      OneMoreComponent(store, prefix, c, cur, base);
      if cur.kind.KDirectory? && c.Name? {
        var entries := List(cur.uid);
        hop := Next(if c.name in entries then Some(entries[c.name]) else None);
      } else if cur.kind.KFaceted? && c.FacetOf? {
        var dir := Open(cur.uid, c.facet);
        if store != old(store) {
          FacetGrows(old(store), store, cur.uid, c.facet);
          ResolveStable(old(store), store, ROOT_ENTRY, prefix);
        }
        OneMoreComponent(store, prefix, c, cur, base);
        hop := if dir.Some? then Next(Some(DirEntry(KDirectory, dir.value))) else OutOfCoins;
      } else {
        hop := Mismatch;
      }
    }

    /**
     * `read_path`. A path that is empty, or that starts with a facet, answers the root. Any other
     * answers what the resolver finds in the store left behind.
     */
    method ReadPath(path: Path) returns (answer: Answer)
      requires Valid()
      modifies this
      ensures Valid() && GrownAlong(old(store), store, path)
      ensures path == [] || path[0].FacetOf? ==>
                answer == Found(ROOT_ENTRY) && store == old(store) && current == old(current)
      ensures path != [] && path[0].Name? && !answer.Drawing? ==>
                && Resolve(store, ROOT_ENTRY, path) == (if answer.Found? then Some(answer.entry) else None)
                && current == RaiseAll(old(current), Listed(store, ROOT_ENTRY, path))
      ensures Resolve(old(store), ROOT_ENTRY, path).Some? && path != [] && path[0].Name? ==>
                store == old(store) && answer == Found(Resolve(old(store), ROOT_ENTRY, path).value)
      ensures answer.Found? ==> RefOk(store, answer.entry)
    {
      GrownAlongRefl(store, path);
      if path == [] || path[0].FacetOf? {
        return Found(ROOT_ENTRY);
      }
      var entries := List(ROOT);
      var first := if path[0].name in entries then Some(entries[path[0].name]) else None;
      FirstComponent(store, path, old(current));
      answer := Walk(path, first, old(current));
      ResolvedIsGood(store, path);
    }

    /** The traversal loop, from the second component on. */
    method Walk(path: Path, first: Option<DirEntry>, ghost base: Label) returns (answer: Answer)
      requires Valid() && path != [] && Resolve(store, ROOT_ENTRY, path[..1]) == first
      requires current == RaiseAll(base, Listed(store, ROOT_ENTRY, path[..1]))
      modifies this
      ensures Valid() && GrownAlong(old(store), store, path)
      ensures !answer.Drawing? ==>
                && Resolve(store, ROOT_ENTRY, path) == (if answer.Found? then Some(answer.entry) else None)
                && current == RaiseAll(base, Listed(store, ROOT_ENTRY, path))
      ensures Resolve(old(store), ROOT_ENTRY, path).Some? ==> store == old(store) && answer.Found?
    {
      hide Resolve, Listed, RaiseAll, GrownAlong, OneFurther;
      GrownAlongRefl(store, path[..1]);
      ghost var whole := Resolve(store, ROOT_ENTRY, path).Some?;
      var cur := first;
      var i := 1;
      while i < |path|
        invariant 1 <= i <= |path| && Valid() && GrownAlong(old(store), store, path[..i])
        invariant Resolve(store, ROOT_ENTRY, path[..i]) == cur
        invariant current == RaiseAll(base, Listed(store, ROOT_ENTRY, path[..i]))
        invariant whole ==> store == old(store)
      {
        if cur.None? {
          GrownAlongPrefix(old(store), store, path, i);
          PrefixFails(store, ROOT_ENTRY, path, i);
          return BadPath;
        }
        if whole { PrefixResolves(store, path, i + 1); }
        assert path[..i + 1] == path[..i] + [path[i]];
        ghost var was := store;
        var hop := Enter(cur.value, path[i], path[..i], base);
        GrownAlongSnoc(old(store), was, store, path[..i], path[i]);
        GrownAlongPrefix(old(store), store, path, i + 1);
        if hop.OutOfCoins? { return Drawing; }
        if hop.Mismatch? {
          PrefixFails(store, ROOT_ENTRY, path, i + 1);
          return BadPath;
        }
        cur := hop.entry;
        i := i + 1;
      }
      assert path[..|path|] == path;
      answer := if cur.Some? then Found(cur.value) else BadPath;
    }
  }

  lemma FirstComponent(s: Store, path: Path, current: Label)
    requires StoreTyped(s) && path != [] && path[0].Name?
    ensures Resolve(s, ROOT_ENTRY, path[..1]) ==
            if path[0].name in s[ROOT].body.entries then Some(s[ROOT].body.entries[path[0].name]) else None
    ensures RaiseAll(current, Listed(s, ROOT_ENTRY, path[..1])) == Raise(s[ROOT].tag, current)
  {
    assert path[..1][..0] == [];
    assert Listed(s, ROOT_ENTRY, path[..1]) == [s[ROOT].tag];
    assert [s[ROOT].tag][..0] == [];
  }

  lemma {:induction false} PrefixResolves(s: Store, path: Path, i: nat)
    requires i <= |path| && Resolve(s, ROOT_ENTRY, path).Some?
    ensures Resolve(s, ROOT_ENTRY, path[..i]).Some?
  {
    if Resolve(s, ROOT_ENTRY, path[..i]).None? { PrefixFails(s, ROOT_ENTRY, path, i); }
  }

  /** Whatever could be resolved before a path was traversed resolves to the same entry afterwards. */
  lemma TraversalPreservesPaths(s: Store, t: Store, path: Path, other: Path)
    requires GrownAlong(s, t, path) && Resolve(s, ROOT_ENTRY, other).Some?
    ensures Resolve(t, ROOT_ENTRY, other) == Resolve(s, ROOT_ENTRY, other)
  {
    GrownAlongGrows(s, t, path);
    ResolveStable(s, t, ROOT_ENTRY, other);
  }

  /** A path without facets changes nothing. */
  lemma {:induction false} NamesMakeNothing(s: Store, t: Store, path: Path)
    requires GrownAlong(s, t, path) && forall i | 0 <= i < |path| :: path[i].Name?
    ensures t == s
    decreases |path|
  {
    if path != [] {
      var m: Store :| GrownAlong(s, m, path[..|path| - 1]) && OneFurther(m, t, path[..|path| - 1], path[|path| - 1]);
      NamesMakeNothing(s, m, path[..|path| - 1]);
    }
  }

  /** Any other traversal makes at most one directory for each facet that the path names. */
  lemma {:induction false} OneDirectoryPerFacet(s: Store, t: Store, path: Path)
    requires GrownAlong(s, t, path)
    ensures |t.Keys| <= |s.Keys| + FacetsNamed(path)
    decreases |path|
  {
    if path != [] {
      var prefix, c := path[..|path| - 1], path[|path| - 1];
      var m: Store :| GrownAlong(s, m, prefix) && OneFurther(m, t, prefix, c);
      OneDirectoryPerFacet(s, m, prefix);
      if t != m {
        var x := Resolve(m, ROOT_ENTRY, prefix).value.uid;
        var d :| d !in m && t == m[d := EmptyDirectory(c.facet)][x := Facets(m[x].facets + [Facet(c.facet, d)])];
        assert t.Keys == m.Keys + {d};
      }
    }
  }

  function FacetsNamed(path: Path): nat {
    if path == [] then 0 else FacetsNamed(path[..|path| - 1]) + if path[|path| - 1].FacetOf? then 1 else 0
  }

  /** One component leads exactly where the system call that opens it does, as long as nothing is made. */
  lemma ComponentsAreOpens(s: Store, t: P.Thread, fd: nat, c: Component)
    requires StoreTyped(s) && StoreTyping.ThreadTyped(s, t) && t.pc.Idle? && fd in t.fds
    ensures var f := P.BeginOp(t, s, if c.Name? then P.OpenName(fd, c.name) else P.OpenFacet(fd, c.facet));
            && (Into(s, t.fds[fd], c).Some? ==>
                  && f.outcome.Some? && f.write.None?
                  && f.thread.fds == t.fds[t.nextFd := Into(s, t.fds[fd], c).value])
            && (Into(s, t.fds[fd], c).None? ==> f.thread.fds == t.fds)
  {
  }
}
