/**
 * Store typing: under every interleaving each reference held anywhere leads to a filled cell of its
 * kind, cells keep their label and kind for ever, no uid is handed out twice, and no thread dies.
 */
module StoreTyping {
  import opened Wrappers
  import opened Labels
  import opened Objects
  import opened Protocol

  // ----- the invariant -----

  ghost predicate GoalTyped(s: Store, cell: Cell, g: Goal) {
    match g
    case Publish(kind) => Fits(cell, kind)
    case ForBlob(_) => Fits(cell, KBlob)
    case ForFacet(faceted, facet, seen) =>
      cell == EmptyDirectory(facet) && AppendTyped(s, faceted, facet, seen)
  }

  /** The facet list a thread has seen is a prefix of the present one and lacks the facet. */
  ghost predicate AppendTyped(s: Store, faceted: Uid, facet: Label, seen: Option<seq<Facet>>) {
    && RefOk(s, DirEntry(KFaceted, faceted))
    && seen.Some? && seen.value <= s[faceted].facets
    && FindFacet(seen.value, facet).None?
  }

  /** A new object is filled, has good references, and starts empty when it is a directory. */
  ghost predicate NewCell(s: Store, cell: Cell) {
    && !cell.Reserved? && RefsOk(s, cell)
    && (Fits(cell, KDirectory) ==> cell == EmptyDirectory(cell.tag))
  }

  ghost predicate PcTyped(s: Store, pc: PC) {
    match pc
    case Idle | Finished => true
    case Panicked => false
    case Editing(dir, e, prev, proposed) =>
      && RefOk(s, DirEntry(KDirectory, dir))
      && Fits(prev, KDirectory) && prev.tag == s[dir].tag
      && !Blocked(e, prev.body.entries)
      && proposed == Labeled(prev.tag, Directory(Apply(e, prev.body.entries)))
      && (e.Insert? ==> RefOk(s, e.entry))
    case Reserving(cell, g) =>
      NewCell(s, cell) && GoalTyped(s, cell, g)
    case Filling(uid, cell, g) =>
      && uid in s && s[uid] == Reserved
      && NewCell(s, cell) && GoalTyped(s, cell, g)
    case Appending(faceted, facet, seen, made) =>
      && RefOk(s, DirEntry(KDirectory, made)) && s[made].tag == facet
      && AppendTyped(s, faceted, facet, seen)
    case Rewriting(uid, body, _) =>
      && !body.Directory? && RefsOk(s, Labeled(PUBLIC, body))
      && RefOk(s, DirEntry(BodyKind(body), uid)) && SameShape(s[uid].body, body)
    case Replacing(uid, cell, _) =>
      && cell.Labeled? && !cell.body.Directory? && RefsOk(s, cell)
      && RefOk(s, DirEntry(BodyKind(cell.body), uid)) && s[uid].tag == cell.tag && SameShape(s[uid].body, cell.body)
    case Resolving(target, _) => RefOk(s, DirEntry(KGate, target))
  }

  ghost predicate ThreadTyped(s: Store, t: Thread) {
    && (forall fd | fd in t.fds :: fd < t.nextFd && RefOk(s, t.fds[fd]))
    && PcTyped(s, t.pc)
  }

  /** Only one thread is about to fill a reserved cell. */
  ghost predicate Exclusive(threads: map<Tid, Thread>) {
    forall i, j | i in threads && j in threads && i != j && threads[i].pc.Filling? && threads[j].pc.Filling? ::
      threads[i].pc.uid != threads[j].pc.uid
  }

  ghost predicate Typed(y: Sys) {
    && StoreTyped(y.store)
    && (forall i | i in y.threads :: ThreadTyped(y.store, y.threads[i]))
    && Exclusive(y.threads)
  }

  // ----- what other threads do to a thread -----

  lemma GoalStable(s: Store, s': Store, cell: Cell, g: Goal)
    requires Evolves(s, s') && GoalTyped(s, cell, g)
    ensures GoalTyped(s', cell, g)
  {
  }

  lemma ThreadStable(s: Store, s': Store, t: Thread)
    requires Evolves(s, s') && ThreadTyped(s, t)
    requires t.pc.Filling? ==> t.pc.uid in s' && s'[t.pc.uid] == Reserved
    ensures ThreadTyped(s', t)
  {
    forall fd | fd in t.fds ensures RefOk(s', t.fds[fd]) {
      RefOkEvolves(s, s', t.fds[fd]);
    }
    match t.pc
    case Reserving(cell, g) => RefsOkEvolves(s, s', cell); GoalStable(s, s', cell, g);
    case Filling(_, cell, g) => RefsOkEvolves(s, s', cell); GoalStable(s, s', cell, g);
    case Rewriting(_, body, _) => RefsOkEvolves(s, s', Labeled(PUBLIC, body));
    case Replacing(_, cell, _) => RefsOkEvolves(s, s', cell);
    case _ =>
  }

  // ----- what a thread does itself -----

  /** A turn keeps the store and its thread typed, and fills only the cell that its thread reserved. */
  ghost predicate GoodEffect(s: Store, t: Thread, e: Effect) {
    var s' := Written(s, e.write);
    && Evolves(s, s') && StoreTyped(s') && ThreadTyped(s', e.thread)
    && (e.write.Some? && e.write.value.uid in s && s[e.write.value.uid] == Reserved ==>
          t.pc.Filling? && t.pc.uid == e.write.value.uid)
    && (e.thread.pc.Filling? ==> e.thread.pc.uid !in s || e.thread.pc == t.pc)
    && (t.pc.Filling? && e.thread.pc == t.pc ==> e.write.None?)
  }

  lemma ConsiderDirTyped(s: Store, t: Thread, t0: Thread, dir: Uid, e: Edit)
    requires StoreTyped(s) && ThreadTyped(s, t) && !t0.pc.Filling?
    requires RefOk(s, DirEntry(KDirectory, dir)) && (e.Insert? ==> RefOk(s, e.entry))
    ensures GoodEffect(s, t0, ConsiderDir(t, dir, e, Lookup(s, dir)))
  {
    EvolvesRefl(s);
  }

  lemma ConsiderFacetsTyped(s: Store, t: Thread, t0: Thread, faceted: Uid, facet: Label)
    requires StoreTyped(s) && ThreadTyped(s, t) && !t0.pc.Filling?
    requires RefOk(s, DirEntry(KFaceted, faceted))
    ensures GoodEffect(s, t0, ConsiderFacets(t, faceted, facet, DecodeFacets(Lookup(s, faceted))))
  {
    EvolvesRefl(s);
    var fs := s[faceted].facets;
    FindFacetIsFirst(fs, facet);
    assert forall e :: !Refers(EmptyDirectory(facet), e);
    if FindFacet(fs, facet).Some? {
      var dir := FindFacet(fs, facet).value;
      assert Refers(s[faceted], DirEntry(KDirectory, dir));
    }
  }

  lemma ResolveAtTyped(s: Store, t: Thread, t0: Thread, gate: Uid, a: Authority)
    requires StoreTyped(s) && ThreadTyped(s, t) && !t0.pc.Filling?
    requires RefOk(s, DirEntry(KGate, gate))
    ensures GoodEffect(s, t0, ResolveAt(t, s, gate, a))
  {
    EvolvesRefl(s);
    if s[gate].body.gate.Redirect? {
      assert Refers(s[gate], DirEntry(KGate, s[gate].body.gate.target));
    }
  }

  lemma ComposeTyped(s: Store, t: Thread, d: Draft, tag: Label)
    requires ThreadTyped(s, t) && Compose(t.fds, d).Some?
    ensures RefsOk(s, Labeled(tag, Compose(t.fds, d).value))
  {
  }

  /** References that are good in one cell are good in a cell of the same contents under another label. */
  lemma TagIsNoReference(s: Store, a: Label, b: Label, body: Body)
    requires RefsOk(s, Labeled(a, body))
    ensures RefsOk(s, Labeled(b, body))
  {
    forall e | Refers(Labeled(b, body), e) ensures RefOk(s, e) { assert Refers(Labeled(a, body), e); }
  }

  lemma RewriteAtTyped(s: Store, t: Thread, t0: Thread, uid: Uid, b: Body, publish: bool)
    requires StoreTyped(s) && ThreadTyped(s, t) && !t0.pc.Filling? && !b.Directory?
    requires RefOk(s, DirEntry(BodyKind(b), uid)) && RefsOk(s, Labeled(PUBLIC, b)) && SameShape(s[uid].body, b)
    ensures GoodEffect(s, t0, RewriteAt(t, s, uid, b, publish))
  {
    hide Implies, StoreTyped;
    EvolvesRefl(s);
    TagIsNoReference(s, PUBLIC, s[uid].tag, b);
  }

  lemma OpenNameTyped(s: Store, t: Thread, fd: nat, name: string)
    requires StoreTyped(s) && ThreadTyped(s, t) && t.pc.Idle?
    ensures GoodEffect(s, t, BeginOp(t, s, OpenName(fd, name)))
  {
    EvolvesRefl(s);
    if fd in t.fds && t.fds[fd].kind.KDirectory? && name in s[t.fds[fd].uid].body.entries {
      assert Refers(s[t.fds[fd].uid], s[t.fds[fd].uid].body.entries[name]);
    }
  }

  lemma BeginEditTyped(s: Store, t: Thread, op: Op)
    requires StoreTyped(s) && ThreadTyped(s, t) && t.pc.Idle? && (op.Link? || op.Unlink?)
    ensures GoodEffect(s, t, BeginOp(t, s, op))
  {
    hide ConsiderDir, Implies;
    EvolvesRefl(s);
    if op.fd in t.fds && t.fds[op.fd].kind.KDirectory? {
      if op.Unlink? {
        ConsiderDirTyped(s, t, t, t.fds[op.fd].uid, Remove(op.name));
      } else if op.target in t.fds {
        ConsiderDirTyped(s, t, t, t.fds[op.fd].uid, Insert(op.name, t.fds[op.target]));
      }
    }
  }

  lemma BeginSeekTyped(s: Store, t: Thread, op: Op)
    requires StoreTyped(s) && ThreadTyped(s, t) && t.pc.Idle? && (op.OpenFacet? || op.Resolve?)
    ensures GoodEffect(s, t, BeginOp(t, s, op))
  {
    hide ConsiderFacets, ResolveAt, Implies;
    EvolvesRefl(s);
    if op.fd in t.fds {
      if op.OpenFacet? && t.fds[op.fd].kind.KFaceted? { ConsiderFacetsTyped(s, t, t, t.fds[op.fd].uid, op.facet); }
      if op.Resolve? && t.fds[op.fd].kind.KGate? { ResolveAtTyped(s, t, t, t.fds[op.fd].uid, NO_AUTHORITY); }
    }
  }

  lemma BeginCreateTyped(s: Store, t: Thread, op: Op)
    requires StoreTyped(s) && ThreadTyped(s, t) && t.pc.Idle? && (op.Create? || op.CreateBlob? || op.CreateChecked?)
    ensures GoodEffect(s, t, BeginOp(t, s, op))
  {
    hide Implies;
    EvolvesRefl(s);
    if op.CreateChecked? && Compose(t.fds, op.draft).Some? { ComposeTyped(s, t, op.draft, op.tag); }
  }

  lemma ReplaceTyped(s: Store, t: Thread, fd: nat, draft: Draft)
    requires StoreTyped(s) && ThreadTyped(s, t) && t.pc.Idle?
    ensures GoodEffect(s, t, BeginOp(t, s, Replace(fd, draft)))
  {
    hide RewriteAt;
    EvolvesRefl(s);
    var b := Compose(t.fds, draft);
    if b.Some? && !b.value.GateBody? && fd in t.fds && t.fds[fd].kind == BodyKind(b.value) {
      ComposeTyped(s, t, draft, PUBLIC);
      RewriteAtTyped(s, t, t, t.fds[fd].uid, b.value, false);
    }
  }

  lemma UpdateGateTyped(s: Store, t: Thread, fd: nat, patch: Patch)
    requires StoreTyped(s) && ThreadTyped(s, t) && t.pc.Idle?
    ensures GoodEffect(s, t, BeginOp(t, s, UpdateGate(fd, patch)))
  {
    EvolvesRefl(s);
    if fd in t.fds && t.fds[fd].kind.KGate? {
      var g := Patched(t.fds, s[t.fds[fd].uid].body.gate, patch);
      if g.Some? {
        forall e | Refers(Labeled(PUBLIC, GateBody(g.value)), e) ensures RefOk(s, e) {
          assert e == t.fds[patch.target];
        }
      }
    }
  }

  lemma BeginOpTyped(s: Store, t: Thread, op: Op)
    requires StoreTyped(s) && ThreadTyped(s, t) && t.pc.Idle?
    ensures GoodEffect(s, t, BeginOp(t, s, op))
  {
    hide Implies, Lub, Downgrade, Visible;
    match op
    case OpenName(fd, name) => OpenNameTyped(s, t, fd, name);
    case OpenFacet(_, _) => BeginSeekTyped(s, t, op);
    case Resolve(_) => BeginSeekTyped(s, t, op);
    case Link(_, _, _) => BeginEditTyped(s, t, op);
    case Unlink(_, _) => BeginEditTyped(s, t, op);
    case Create(_, _) => BeginCreateTyped(s, t, op);
    case CreateBlob(_, _) => BeginCreateTyped(s, t, op);
    case CreateChecked(_, _) => BeginCreateTyped(s, t, op);
    case Replace(fd, draft) => ReplaceTyped(s, t, fd, draft);
    case UpdateGate(fd, patch) => UpdateGateTyped(s, t, fd, patch);
    case _ => EvolvesRefl(s);
  }

  lemma EditedTyped(s: Store, dir: Uid, e: Edit, prev: Cell)
    requires StoreTyped(s) && RefOk(s, DirEntry(KDirectory, dir)) && s[dir] == prev
    requires e.Insert? ==> RefOk(s, e.entry)
    ensures RefsOk(s, Labeled(prev.tag, Directory(Apply(e, prev.body.entries))))
  {
    var next := Labeled(prev.tag, Directory(Apply(e, prev.body.entries)));
    forall r | Refers(next, r) ensures RefOk(s, r) {
      assert r in prev.body.entries.Values || (e.Insert? && r == e.entry);
      assert r in prev.body.entries.Values ==> Refers(prev, r);
    }
  }

  lemma AppendedTyped(s: Store, faceted: Uid, facet: Label, made: Uid)
    requires StoreTyped(s) && RefOk(s, DirEntry(KFaceted, faceted))
    requires RefOk(s, DirEntry(KDirectory, made)) && s[made].tag == facet
    requires FindFacet(s[faceted].facets, facet).None?
    ensures RefsOk(s, Facets(s[faceted].facets + [Facet(facet, made)]))
  {
    var fs := s[faceted].facets;
    var next := Facets(fs + [Facet(facet, made)]);
    FindFacetIsFirst(fs, facet);
    forall r | Refers(next, r) ensures RefOk(s, r) {
      var i :| 0 <= i < |next.facets| && next.facets[i].dir == r.uid;
      if i < |fs| { assert fs[i].dir == r.uid; assert Refers(s[faceted], r); }
    }
  }

  lemma CompareTyped(s: Store, t: Thread, coin: Uid)
    requires StoreTyped(s) && ThreadTyped(s, t) && (t.pc.Editing? || t.pc.Appending?)
    ensures GoodEffect(s, t, ContinueOp(t, s, coin))
  {
    EvolvesRefl(s);
    var e := ContinueOp(t, s, coin);
    match t.pc
    case Editing(dir, edit, prev, proposed) =>
      if s[dir] == prev {
        EditedTyped(s, dir, edit, prev);
        WriteKeepsTyped(s, dir, proposed);
        ThreadStable(s, s[dir := proposed], t.(pc := Idle));
      } else {
        ConsiderDirTyped(s, t, t, dir, edit);
      }
    case Appending(faceted, facet, seen, made) =>
      if s[faceted] == Facets(seen.value) {
        AppendedTyped(s, faceted, facet, made);
        WriteKeepsTyped(s, faceted, e.write.value.cell);
        ThreadStable(s, Written(s, e.write), t.(pc := Idle));
      } else {
        ConsiderFacetsTyped(s, t, t, faceted, facet);
      }
  }

  lemma FillTyped(s: Store, t: Thread, coin: Uid)
    requires StoreTyped(s) && ThreadTyped(s, t) && t.pc.Filling?
    ensures GoodEffect(s, t, ContinueOp(t, s, coin))
  {
    var uid, cell, g := t.pc.uid, t.pc.cell, t.pc.goal;
    WriteKeepsTyped(s, uid, cell);
    ThreadStable(s, s[uid := cell], t.(pc := Idle));
    GoalStable(s, s[uid := cell], cell, g);
  }

  lemma ContinueOpTyped(s: Store, t: Thread, coin: Uid)
    requires StoreTyped(s) && ThreadTyped(s, t)
    ensures GoodEffect(s, t, ContinueOp(t, s, coin))
  {
    EvolvesRefl(s);
    match t.pc
    case Editing(_, _, _, _) => CompareTyped(s, t, coin);
    case Appending(_, _, _, _) => CompareTyped(s, t, coin);
    case Reserving(cell, g) =>
      if coin !in s {
        WriteKeepsTyped(s, coin, Reserved);
        ThreadStable(s, s[coin := Reserved], t);
      }
    case Filling(_, _, _) => FillTyped(s, t, coin);
    case Rewriting(uid, body, publish) =>
      RewriteAtTyped(s, t, t, uid, body, publish);
    case Replacing(uid, cell, _) =>
      WriteKeepsTyped(s, uid, cell);
      ThreadStable(s, s[uid := cell], t.(pc := Idle));
    case Resolving(target, a) =>
      ResolveAtTyped(s, t, t, target, a);
    case _ =>
  }

  lemma ActTyped(s: Store, t: Thread, c: Choice)
    requires StoreTyped(s) && ThreadTyped(s, t)
    ensures GoodEffect(s, t, TakeTurn(t, s, c))
  {
    EvolvesRefl(s);
    match c
    case Begin(op) => if t.pc.Idle? { BeginOpTyped(s, t, op); }
    case Continue(coin) => ContinueOpTyped(s, t, coin);
  }

  // ----- every step and every run -----

  lemma StartTyped(s: Store, turn: Turn)
    requires StoreTyped(s)
    ensures turn.Spawn? ==> ThreadTyped(s, Start(turn.tag, turn.privilege)) && Start(turn.tag, turn.privilege).pc.Idle?
  {
  }

  /** Every turn of every thread keeps the invariant and only evolves the store. */
  lemma StepTyped(y: Sys, turn: Turn)
    requires Typed(y)
    ensures Typed(Step(y, turn)) && Evolves(y.store, Step(y, turn).store)
  {
    hide TakeTurn;
    EvolvesRefl(y.store);
    StartTyped(y.store, turn);
    hide StoreTyped, Start;
    var y' := Step(y, turn);
    if turn.Spawn? {
      assert forall i | i in y'.threads && i !in y.threads :: y'.threads[i] == Start(turn.tag, turn.privilege);
    } else if turn.tid in y.threads {
      var t := y.threads[turn.tid];
      var e := EffectOf(y, turn).value;
      ActTyped(y.store, t, turn.choice);
      forall i | i in y'.threads ensures ThreadTyped(y'.store, y'.threads[i]) {
        if i != turn.tid {
          var o := y.threads[i];
          assert o.pc.Filling? ==> y'.store[o.pc.uid] == Reserved;
          ThreadStable(y.store, y'.store, o);
        }
      }
      forall i, j | i in y'.threads && j in y'.threads && i != j
                    && y'.threads[i].pc.Filling? && y'.threads[j].pc.Filling?
        ensures y'.threads[i].pc.uid != y'.threads[j].pc.uid
      {
        assert i != turn.tid ==> ThreadTyped(y.store, y.threads[i]);
        assert j != turn.tid ==> ThreadTyped(y.store, y.threads[j]);
      }
    }
  }

  lemma {:induction false} RunTyped(y: Sys, schedule: seq<Turn>)
    requires Typed(y)
    ensures Typed(Run(y, schedule)) && Evolves(y.store, Run(y, schedule).store)
  {
    if schedule == [] {
      EvolvesRefl(y.store);
    } else {
      var before := schedule[..|schedule| - 1];
      RunTyped(y, before);
      StepTyped(Run(y, before), schedule[|schedule| - 1]);
      EvolvesTrans(y.store, Run(y, before).store, Run(y, schedule).store);
    }
  }

  lemma InitialIsTyped(y: Sys)
    requires Initial(y)
    ensures Typed(y)
  {
  }

  // ----- consequences for every schedule -----

  /** No `get(..).unwrap()` fails: no thread dies, whatever the threads ask for and however they interleave. */
  lemma NoThreadPanics(y: Sys, schedule: seq<Turn>, i: Tid)
    requires Initial(y) && i in Run(y, schedule).threads
    ensures !Run(y, schedule).threads[i].pc.Panicked?
  {
    InitialIsTyped(y);
    RunTyped(y, schedule);
  }

  /** The reference is part of an operation under way. */
  ghost predicate Pending(pc: PC, e: DirEntry) {
    match pc
    case Editing(dir, edit, _, _) => e == DirEntry(KDirectory, dir) || (edit.Insert? && e == edit.entry)
    case Reserving(cell, g) => Refers(cell, e) || (g.ForFacet? && e == DirEntry(KFaceted, g.faceted))
    case Filling(_, cell, g) => Refers(cell, e) || (g.ForFacet? && e == DirEntry(KFaceted, g.faceted))
    case Appending(faceted, _, _, made) => e == DirEntry(KFaceted, faceted) || e == DirEntry(KDirectory, made)
    case Rewriting(uid, body, _) => e == DirEntry(BodyKind(body), uid) || Refers(Labeled(PUBLIC, body), e)
    case Replacing(uid, cell, _) =>
      cell.Labeled? && (e == DirEntry(BodyKind(cell.body), uid) || Refers(cell, e))
    case Resolving(target, _) => e == DirEntry(KGate, target)
    case _ => false
  }

  /** The reference `e` is held somewhere: in a cell, in a descriptor table, or in a pending operation. */
  ghost predicate Held(y: Sys, e: DirEntry) {
    || (exists u :: u in y.store && Refers(y.store[u], e))
    || (exists i, fd :: i in y.threads && fd in y.threads[i].fds && y.threads[i].fds[fd] == e)
    || (exists i :: i in y.threads && Pending(y.threads[i].pc, e))
  }

  /** Every reference held anywhere leads to a filled cell of its kind. */
  lemma HeldReferencesAreGood(y: Sys, schedule: seq<Turn>, e: DirEntry)
    requires Initial(y) && Held(Run(y, schedule), e)
    ensures RefOk(Run(y, schedule).store, e)
  {
    InitialIsTyped(y);
    RunTyped(y, schedule);
  }

  /** A failed cas of a pending edit always returns a directory, so the `Err(None)` exit is never taken. */
  lemma EditNeverSeesNone(y: Sys, schedule: seq<Turn>, i: Tid)
    requires Initial(y) && i in Run(y, schedule).threads && Run(y, schedule).threads[i].pc.Editing?
    ensures Decodes(Lookup(Run(y, schedule).store, Run(y, schedule).threads[i].pc.dir), KDirectory)
  {
    InitialIsTyped(y);
    RunTyped(y, schedule);
  }

  /** From any point of a run on, a filled cell keeps its label and kind, and facet lists keep their prefix. */
  lemma {:induction false} CellsOnlyEvolve(y: Sys, schedule: seq<Turn>, k: nat)
    requires Initial(y) && k <= |schedule|
    ensures Evolves(Run(y, schedule[..k]).store, Run(y, schedule).store)
  {
    InitialIsTyped(y);
    if k == |schedule| {
      assert schedule[..k] == schedule;
      EvolvesRefl(Run(y, schedule).store);
    } else {
      var before := schedule[..|schedule| - 1];
      assert before[..k] == schedule[..k];
      CellsOnlyEvolve(y, before, k);
      RunTyped(y, before);
      StepTyped(Run(y, before), schedule[|schedule| - 1]);
      EvolvesTrans(Run(y, schedule[..k]).store, Run(y, before).store, Run(y, schedule).store);
    }
  }

  /** A uid is reserved by the turn that adds it to the store, and by no other turn. */
  ghost predicate Allocates(y: Sys, schedule: seq<Turn>, k: nat, u: Uid)
    requires k < |schedule|
  {
    u !in Run(y, schedule[..k]).store && u in Run(y, schedule[..k + 1]).store
  }

  lemma EachUidAllocatedOnce(y: Sys, schedule: seq<Turn>, j: nat, k: nat, u: Uid)
    requires Initial(y) && j < k < |schedule|
    requires Allocates(y, schedule, j, u)
    ensures !Allocates(y, schedule, k, u)
  {
    var upto := schedule[..k];
    assert upto[..j + 1] == schedule[..j + 1];
    CellsOnlyEvolve(y, upto, j + 1);
  }
}
