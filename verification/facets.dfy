/**
 * Faceted directories: all threads agree on the directory of a facet, whoever creates it, and a
 * directory made by a losing attempt never becomes reachable.
 */
module FacetAgreement {
  import opened Wrappers
  import opened Labels
  import opened Objects
  import opened Protocol
  import opened StoreTyping

  // ----- agreement -----

  /** The answer that turn `k` of the schedule gives to its thread. */
  function AnswerAt(y: Sys, schedule: seq<Turn>, k: nat): Option<Outcome>
    requires k < |schedule|
  {
    var e := EffectOf(Run(y, schedule[..k]), schedule[k]);
    if e.None? then None else e.value.outcome
  }

  /** Appending to a facet list never changes what is found in it. */
  lemma {:induction false} FindFacetInLonger(fs: seq<Facet>, gs: seq<Facet>, f: Label)
    requires fs <= gs && FindFacet(fs, f).Some?
    ensures FindFacet(gs, f) == FindFacet(fs, f)
  {
    if fs[0].tag != f {
      FindFacetInLonger(fs[1..], gs[1..], f);
    }
  }

  lemma {:induction false} FindAppended(fs: seq<Facet>, f: Label, d: Uid)
    requires FindFacet(fs, f).None?
    ensures FindFacet(fs + [Facet(f, d)], f) == Some(d)
  {
    if fs != [] {
      assert (fs + [Facet(f, d)])[1..] == fs[1..] + [Facet(f, d)];
      FindAppended(fs[1..], f, d);
    }
  }

  /** An `open` that answers leaves its directory as the one found for the facet. */
  lemma OpenedIsFound(s: Store, t: Thread, c: Choice, faceted: Uid, facet: Label, dir: Uid)
    requires StoreTyped(s) && ThreadTyped(s, t)
    requires TakeTurn(t, s, c).outcome == Some(FacetOpened(faceted, facet, dir))
    ensures var s' := Written(s, TakeTurn(t, s, c).write);
            && RefOk(s', DirEntry(KFaceted, faceted))
            && FindFacet(s'[faceted].facets, facet) == Some(dir)
  {
    if c.Continue? && t.pc.Appending? && s[t.pc.faceted] == Facets(t.pc.seen.value) {
      FindAppended(t.pc.seen.value, t.pc.facet, t.pc.made);
    }
  }

  /** Once any thread's `open` of a facet answers a directory, every later `open` by any thread answers it too. */
  lemma OpensAgree(y: Sys, schedule: seq<Turn>, j: nat, k: nat, faceted: Uid, facet: Label, dir: Uid, dir': Uid)
    requires Initial(y) && j < k < |schedule|
    requires AnswerAt(y, schedule, j) == Some(FacetOpened(faceted, facet, dir))
    requires AnswerAt(y, schedule, k) == Some(FacetOpened(faceted, facet, dir'))
    ensures dir == dir'
  {
    InitialIsTyped(y);
    var zj, zk := Run(y, schedule[..j]), Run(y, schedule[..k]);
    RunTyped(y, schedule[..j]);
    RunTyped(y, schedule[..k]);
    OpenedIsFound(zj.store, zj.threads[schedule[j].tid], schedule[j].choice, faceted, facet, dir);
    OpenedIsFound(zk.store, zk.threads[schedule[k].tid], schedule[k].choice, faceted, facet, dir');
    assert schedule[..j + 1][..j] == schedule[..j];
    assert schedule[..k][..j + 1] == schedule[..j + 1];
    assert schedule[..k + 1][..k] == schedule[..k];
    CellsOnlyEvolve(y, schedule[..k], j + 1);
    StepTyped(zk, schedule[k]);
    var sj, sk := Run(y, schedule[..j + 1]).store, Step(zk, schedule[k]).store;
    EvolvesTrans(sj, zk.store, sk);
    FindFacetInLonger(sj[faceted].facets, sk[faceted].facets, facet);
  }

  /** In every reachable state a facet occurs once and its directory carries the facet as its label. */
  lemma FacetListsAreSound(y: Sys, schedule: seq<Turn>, faceted: Uid, i: nat)
    requires Initial(y) && RefOk(Run(y, schedule).store, DirEntry(KFaceted, faceted))
    requires i < |Run(y, schedule).store[faceted].facets|
    ensures var s := Run(y, schedule).store;
            var fs := s[faceted].facets;
            && RefOk(s, DirEntry(KDirectory, fs[i].dir)) && s[fs[i].dir].tag == fs[i].tag
            && forall j | 0 <= j < |fs| && fs[j].tag == fs[i].tag :: j == i
  {
    InitialIsTyped(y);
    RunTyped(y, schedule);
    var s := Run(y, schedule).store;
    assert Refers(s[faceted], DirEntry(KDirectory, s[faceted].facets[i].dir));
  }

  // ----- losing attempts -----

  ghost predicate CellMentions(c: Cell, u: Uid) {
    exists k :: Refers(c, DirEntry(k, u))
  }

  ghost predicate GoalMentions(g: Goal, u: Uid) {
    g.ForFacet? && g.faceted == u
  }

  ghost predicate PcMentions(pc: PC, u: Uid) {
    match pc
    case Editing(dir, e, _, _) => dir == u || (e.Insert? && e.entry.uid == u)
    case Reserving(cell, g) => CellMentions(cell, u) || GoalMentions(g, u)
    case Filling(uid, cell, g) => uid == u || CellMentions(cell, u) || GoalMentions(g, u)
    case Appending(faceted, _, _, made) => faceted == u || made == u
    case Rewriting(uid, body, _) => uid == u || CellMentions(Labeled(PUBLIC, body), u)
    case Replacing(uid, cell, _) => uid == u || CellMentions(cell, u)
    case Resolving(target, _) => target == u
    case _ => false
  }

  ghost predicate FdsMention(t: Thread, u: Uid) {
    exists fd :: fd in t.fds && t.fds[fd].uid == u
  }

  ghost predicate StoreMentions(s: Store, u: Uid) {
    exists v :: v in s && CellMentions(s[v], u)
  }

  /** The thread is making a directory for a facet in cell `u`. */
  predicate Making(pc: PC, u: Uid) {
    (pc.Filling? && pc.uid == u && pc.goal.ForFacet?) || (pc.Appending? && pc.made == u)
  }

  /** Nothing refers to the allocated cell `u`, except perhaps a thread that is making it. */
  ghost predicate Hidden(y: Sys, u: Uid, owner: Option<Tid>) {
    && u in y.store && u != ROOT && !StoreMentions(y.store, u)
    && forall i | i in y.threads ::
      && !FdsMention(y.threads[i], u)
      && (PcMentions(y.threads[i].pc, u) ==> owner == Some(i) && Making(y.threads[i].pc, u))
  }

  ghost predicate Private(y: Sys) {
    forall i | i in y.threads ::
      (y.threads[i].pc.Filling? && y.threads[i].pc.goal.ForFacet? ==> Hidden(y, y.threads[i].pc.uid, Some(i))) &&
      (y.threads[i].pc.Appending? ==> Hidden(y, y.threads[i].pc.made, Some(i)))
  }

  lemma ReferredIsMentioned(s: Store, v: Uid, e: DirEntry)
    requires v in s && Refers(s[v], e)
    ensures StoreMentions(s, e.uid)
  {
    assert e == DirEntry(e.kind, e.uid);
    assert CellMentions(s[v], e.uid);
  }

  lemma EmptyDirectoryMentionsNothing(tag: Label, u: Uid)
    ensures !CellMentions(EmptyDirectory(tag), u)
  {
  }

  lemma ComposeMentions(t: Thread, d: Draft, tag: Label, u: Uid)
    requires !FdsMention(t, u) && Compose(t.fds, d).Some?
    ensures !CellMentions(Labeled(tag, Compose(t.fds, d).value), u)
  {
  }

  /** What a turn may leave behind about a cell that nobody mentioned before it. */
  ghost predicate StillHidden(s: Store, f: Effect, u: Uid) {
    && !FdsMention(f.thread, u) && !PcMentions(f.thread.pc, u)
    && (f.write.Some? ==> f.write.value.uid != u && !CellMentions(f.write.value.cell, u))
  }

  lemma ConsiderFacetsHides(s: Store, t: Thread, faceted: Uid, facet: Label, u: Uid)
    requires RefOk(s, DirEntry(KFaceted, faceted)) && faceted != u
    requires !StoreMentions(s, u) && !FdsMention(t, u)
    ensures StillHidden(s, ConsiderFacets(t, faceted, facet, DecodeFacets(Lookup(s, faceted))), u)
  {
    var fs := s[faceted].facets;
    FindFacetIsFirst(fs, facet);
    EmptyDirectoryMentionsNothing(facet, u);
    if FindFacet(fs, facet).Some? {
      ReferredIsMentioned(s, faceted, DirEntry(KDirectory, FindFacet(fs, facet).value));
    }
  }

  lemma GateHides(s: Store, gate: Uid, u: Uid)
    requires RefOk(s, DirEntry(KGate, gate)) && !StoreMentions(s, u)
    ensures s[gate].body.gate.Redirect? ==> s[gate].body.gate.target != u
  {
    if s[gate].body.gate.Redirect? {
      ReferredIsMentioned(s, gate, DirEntry(KGate, s[gate].body.gate.target));
    }
  }

  lemma RewriteAtHides(s: Store, t: Thread, uid: Uid, b: Body, publish: bool, u: Uid)
    requires !FdsMention(t, u) && uid != u && !CellMentions(Labeled(PUBLIC, b), u)
    ensures StillHidden(s, RewriteAt(t, s, uid, b, publish), u)
  {
    forall tag: Label ensures !CellMentions(Labeled(tag, b), u) {
      forall k ensures !Refers(Labeled(tag, b), DirEntry(k, u)) {
        assert !Refers(Labeled(PUBLIC, b), DirEntry(k, u));
      }
    }
  }

  lemma BeginMakeHides(s: Store, t: Thread, op: Op, u: Uid)
    requires StoreTyped(s) && ThreadTyped(s, t) && t.pc.Idle? && (op.CreateChecked? || op.Replace?)
    requires !StoreMentions(s, u) && !FdsMention(t, u)
    ensures StillHidden(s, BeginOp(t, s, op), u)
  {
    hide RewriteAt;
    var b := Compose(t.fds, op.draft);
    if b.Some? {
      ComposeMentions(t, op.draft, if op.CreateChecked? then op.tag else PUBLIC, u);
      if op.Replace? && op.fd in t.fds { RewriteAtHides(s, t, t.fds[op.fd].uid, b.value, false, u); }
    }
  }

  lemma BeginUpdateHides(s: Store, t: Thread, fd: nat, patch: Patch, u: Uid)
    requires StoreTyped(s) && ThreadTyped(s, t) && t.pc.Idle?
    requires !StoreMentions(s, u) && !FdsMention(t, u)
    ensures StillHidden(s, BeginOp(t, s, UpdateGate(fd, patch)), u)
  {
  }

  lemma BeginEditHides(s: Store, t: Thread, op: Op, u: Uid)
    requires StoreTyped(s) && ThreadTyped(s, t) && t.pc.Idle? && (op.Link? || op.Unlink?)
    requires !StoreMentions(s, u) && !FdsMention(t, u)
    ensures StillHidden(s, BeginOp(t, s, op), u)
  {
    hide Implies, Lub;
  }

  lemma BeginHides(s: Store, t: Thread, op: Op, u: Uid)
    requires StoreTyped(s) && ThreadTyped(s, t) && t.pc.Idle?
    requires !StoreMentions(s, u) && !FdsMention(t, u)
    ensures StillHidden(s, BeginOp(t, s, op), u)
  {
    hide Implies, Lub, Downgrade, Accumulate, FindFacet, Visible;
    match op
    case CreateChecked(_, _) => BeginMakeHides(s, t, op, u);
    case Replace(_, _) => BeginMakeHides(s, t, op, u);
    case UpdateGate(fd, patch) => BeginUpdateHides(s, t, fd, patch, u);
    case Link(_, _, _) => BeginEditHides(s, t, op, u);
    case Unlink(_, _) => BeginEditHides(s, t, op, u);
    case OpenName(fd, name) =>
      if fd in t.fds && t.fds[fd].kind.KDirectory? && name in s[t.fds[fd].uid].body.entries {
        ReferredIsMentioned(s, t.fds[fd].uid, s[t.fds[fd].uid].body.entries[name]);
      }
    case OpenFacet(fd, facet) =>
      if fd in t.fds && t.fds[fd].kind.KFaceted? { ConsiderFacetsHides(s, t, t.fds[fd].uid, facet, u); }
    case Resolve(fd) =>
      if fd in t.fds && t.fds[fd].kind.KGate? { GateHides(s, t.fds[fd].uid, u); }
    case _ =>
  }

  lemma EditHides(s: Store, dir: Uid, e: Edit, u: Uid)
    requires RefOk(s, DirEntry(KDirectory, dir)) && !StoreMentions(s, u)
    requires e.Insert? ==> e.entry.uid != u
    ensures !CellMentions(Labeled(s[dir].tag, Directory(Apply(e, s[dir].body.entries))), u)
  {
    var next := Labeled(s[dir].tag, Directory(Apply(e, s[dir].body.entries)));
    forall r | Refers(next, r) ensures r.uid != u {
      if !(e.Insert? && r == e.entry) { ReferredIsMentioned(s, dir, r); }
    }
  }

  lemma AppendHides(s: Store, faceted: Uid, facet: Label, made: Uid, u: Uid)
    requires RefOk(s, DirEntry(KFaceted, faceted)) && !StoreMentions(s, u) && made != u
    ensures !CellMentions(Facets(s[faceted].facets + [Facet(facet, made)]), u)
  {
    var next := Facets(s[faceted].facets + [Facet(facet, made)]);
    forall r | Refers(next, r) ensures r.uid != u {
      var i :| 0 <= i < |next.facets| && next.facets[i].dir == r.uid;
      if i < |s[faceted].facets| {
        assert s[faceted].facets[i].dir == r.uid;
        ReferredIsMentioned(s, faceted, r);
      }
    }
  }

  lemma TurnHides(s: Store, t: Thread, c: Choice, u: Uid)
    requires StoreTyped(s) && ThreadTyped(s, t) && u in s
    requires !StoreMentions(s, u) && !FdsMention(t, u) && !PcMentions(t.pc, u)
    ensures StillHidden(s, TakeTurn(t, s, c), u)
  {
    if c.Begin? {
      if t.pc.Idle? { BeginHides(s, t, c.op, u); }
    } else {
      match t.pc
      case Editing(dir, e, prev, _) =>
        if s[dir] == prev { EditHides(s, dir, e, u); }
      case Appending(faceted, facet, seen, made) =>
        if s[faceted] == Facets(seen.value) { AppendHides(s, faceted, facet, made, u); }
        else { ConsiderFacetsHides(s, t, faceted, facet, u); }
      case Resolving(target, a) =>
        GateHides(s, target, u);
      case Rewriting(uid, body, publish) =>
        RewriteAtHides(s, t, uid, body, publish, u);
      case _ =>
    }
  }

  /** The maker itself: it goes on making the cell, publishes it, or loses it. */
  lemma MakerHides(s: Store, t: Thread, coin: Uid, u: Uid)
    requires StoreTyped(s) && ThreadTyped(s, t) && u in s
    requires !StoreMentions(s, u) && !FdsMention(t, u) && Making(t.pc, u)
    requires t.pc.Appending? ==> t.pc.faceted != u
    requires t.pc.Filling? ==> t.pc.goal.faceted != u
    ensures var f := ContinueOp(t, s, coin);
            || (Making(f.thread.pc, u) && !FdsMention(f.thread, u) && f.thread.pc.Appending?
                && f.thread.pc.faceted != u && f.write.Some? && f.write.value.uid == u
                && !CellMentions(f.write.value.cell, u))
            || (f.outcome == Some(FacetOpened(t.pc.faceted, t.pc.facet, u)) && f.thread.pc.Idle?)
            || StillHidden(s, f, u)
  {
    match t.pc
    case Filling(uid, cell, g) => EmptyDirectoryMentionsNothing(g.facet, u);
    case Appending(faceted, facet, seen, made) =>
      if s[faceted] != Facets(seen.value) { ConsiderFacetsHides(s, t, faceted, facet, u); }
  }

  /** Turns of other threads keep a cell hidden. */
  lemma HiddenFromOthers(y: Sys, turn: Turn, u: Uid, owner: Option<Tid>)
    requires Typed(y) && Hidden(y, u, owner) && owner != Some(turn.tid)
    ensures Hidden(Step(y, turn), u, owner)
  {
    if EffectOf(y, turn).Some? {
      var t := y.threads[turn.tid];
      TurnHides(y.store, t, turn.choice, u);
      AfterTurn(y, turn, u, owner);
    }
  }

  lemma AfterTurn(y: Sys, turn: Turn, u: Uid, owner: Option<Tid>)
    requires EffectOf(y, turn).Some? && u in y.store && u != ROOT && !StoreMentions(y.store, u)
    requires StillHidden(y.store, EffectOf(y, turn).value, u)
    requires forall i | i in y.threads && i != turn.tid ::
               !FdsMention(y.threads[i], u)
               && (PcMentions(y.threads[i].pc, u) ==> owner == Some(i) && Making(y.threads[i].pc, u))
    ensures Hidden(Step(y, turn), u, owner)
  {
    var y' := Step(y, turn);
    forall v | v in y'.store ensures !CellMentions(y'.store[v], u) {
      if v in y.store && y'.store[v] == y.store[v] { assert !CellMentions(y.store[v], u); }
    }
  }

  /** The maker either keeps the cell private, publishes it as the facet, or leaves it hidden for good. */
  lemma HiddenFromMaker(y: Sys, turn: Turn, u: Uid)
    requires Typed(y) && turn.Act? && turn.tid in y.threads && Making(y.threads[turn.tid].pc, u)
    requires Hidden(y, u, Some(turn.tid))
    ensures var t := y.threads[turn.tid];
            var f := EffectOf(y, turn).value;
            || Hidden(Step(y, turn), u, None)
            || (Making(f.thread.pc, u) && Hidden(Step(y, turn), u, Some(turn.tid)))
            || (f.outcome == Some(FacetOpened(t.pc.faceted, t.pc.facet, u)) && f.thread.pc.Idle?)
    ensures var t := y.threads[turn.tid];
            (turn.choice.Continue? && t.pc.Appending? && y.store[t.pc.faceted] != Facets(t.pc.seen.value)) ==>
              Hidden(Step(y, turn), u, None)
  {
    var t := y.threads[turn.tid];
    var f := EffectOf(y, turn).value;
    var y' := Step(y, turn);
    if turn.choice.Continue? {
      MakerHides(y.store, t, turn.choice.coin, u);
      if StillHidden(y.store, f, u) {
        AfterTurn(y, turn, u, None);
      } else if Making(f.thread.pc, u) && f.thread.pc.Appending? {
        forall v | v in y'.store ensures !CellMentions(y'.store[v], u) {
          if v in y.store && y'.store[v] == y.store[v] { assert !CellMentions(y.store[v], u); }
        }
      }
      if t.pc.Appending? && y.store[t.pc.faceted] != Facets(t.pc.seen.value) {
        ConsiderFacetsHides(y.store, t, t.pc.faceted, t.pc.facet, u);
        AfterTurn(y, turn, u, None);
      }
    } else {
      assert y' == y.(threads := y.threads[turn.tid := t]) && y.threads[turn.tid := t] == y.threads;
    }
  }

  /** A uid that is not allocated is not mentioned. */
  lemma UnallocatedIsUnmentioned(y: Sys, u: Uid)
    requires Typed(y) && u !in y.store
    ensures !StoreMentions(y.store, u)
    ensures forall i | i in y.threads :: !FdsMention(y.threads[i], u) && !PcMentions(y.threads[i].pc, u)
  {
    forall v | v in y.store ensures !CellMentions(y.store[v], u) {
      assert RefsOk(y.store, y.store[v]);
    }
  }

  lemma PrivateStep(y: Sys, turn: Turn)
    requires Typed(y) && Private(y)
    ensures Private(Step(y, turn))
  {
    hide TakeTurn;
    var y' := Step(y, turn);
    forall i, u | i in y'.threads && Making(y'.threads[i].pc, u) ensures Hidden(y', u, Some(i)) {
      if i in y.threads && Making(y.threads[i].pc, u) {
        if i != turn.tid || turn.Spawn? {
          if turn.Act? { HiddenFromOthers(y, turn, u, Some(i)); }
        } else {
          HiddenFromMaker(y, turn, u);
          assert y'.threads[i] == EffectOf(y, turn).value.thread;
        }
      } else {
        NewlyMade(y, turn, u);
      }
    }
  }

  lemma MakingStarts(s: Store, t: Thread, c: Choice, u: Uid)
    requires StoreTyped(s) && ThreadTyped(s, t) && !Making(t.pc, u) && Making(TakeTurn(t, s, c).thread.pc, u)
    ensures t.pc.Reserving? && t.pc.goal.ForFacet? && c == Continue(u) && u !in s
    ensures TakeTurn(t, s, c) == Effect(t.(pc := Filling(u, t.pc.cell, t.pc.goal)), Some(Update(u, Reserved)), None)
  {
  }

  lemma NewlyMade(y: Sys, turn: Turn, u: Uid)
    requires Typed(y) && turn.tid in Step(y, turn).threads
    requires Making(Step(y, turn).threads[turn.tid].pc, u)
    requires turn.tid in y.threads ==> !Making(y.threads[turn.tid].pc, u)
    ensures Hidden(Step(y, turn), u, Some(turn.tid))
  {
    hide TakeTurn;
    var y' := Step(y, turn);
    assert turn.Act? && turn.tid in y.threads;
    var t := y.threads[turn.tid];
    MakingStarts(y.store, t, turn.choice, u);
    UnallocatedIsUnmentioned(y, u);
    assert y'.store == y.store[u := Reserved];
    forall v | v in y'.store ensures !CellMentions(y'.store[v], u) {
      if v != u { assert !CellMentions(y.store[v], u); }
    }
    EmptyDirectoryMentionsNothing(t.pc.goal.facet, u);
  }

  lemma {:induction false} RunPrivate(y: Sys, schedule: seq<Turn>)
    requires Initial(y)
    ensures Private(Run(y, schedule))
  {
    if schedule != [] {
      var before := schedule[..|schedule| - 1];
      RunPrivate(y, before);
      InitialIsTyped(y);
      RunTyped(y, before);
      PrivateStep(Run(y, before), schedule[|schedule| - 1]);
    }
  }

  function Seen(pc: PC): seq<Facet>
    requires pc.Appending?
  {
    if pc.seen.Some? then pc.seen.value else []
  }

  /** At turn `k` some thread tries to append its directory `u` for a facet, and its cas fails. */
  ghost predicate LosesAt(y: Sys, schedule: seq<Turn>, k: nat, u: Uid)
    requires k < |schedule|
  {
    var z := Run(y, schedule[..k]);
    && schedule[k].Act? && schedule[k].choice.Continue? && schedule[k].tid in z.threads
    && z.threads[schedule[k].tid].pc.Appending?
    && z.threads[schedule[k].tid].pc.made == u
    && Lookup(z.store, z.threads[schedule[k].tid].pc.faceted) != Some(Facets(Seen(z.threads[schedule[k].tid].pc)))
  }

  /** The directory of a losing attempt is never referred to again by any cell, descriptor or pending operation. */
  lemma {:induction false} LosersStayHidden(y: Sys, schedule: seq<Turn>, k: nat, u: Uid)
    requires Initial(y) && k < |schedule|
    requires LosesAt(y, schedule, k, u)
    ensures Hidden(Run(y, schedule), u, None)
  {
    var before := schedule[..|schedule| - 1];
    InitialIsTyped(y);
    RunTyped(y, before);
    if k == |schedule| - 1 {
      RunPrivate(y, before);
      HiddenFromMaker(Run(y, before), schedule[k], u);
    } else {
      assert before[..k] == schedule[..k];
      LosersStayHidden(y, before, k, u);
      HiddenFromOthers(Run(y, before), schedule[|schedule| - 1], u, None);
    }
  }
}
