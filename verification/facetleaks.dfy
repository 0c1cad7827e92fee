/**
 * What a facet list tells. The list of a faceted directory carries no label, so the accounts of
 * `accountability.dfy` do not cover it: a run may open a facet that its own label may not flow to,
 * and a run at that facet's label sees the facet appear. What does hold is that a listing shows no
 * facet whose label may not flow to the lister afterwards.
 */
module FacetLeaks {
  import opened Wrappers
  import opened Labels
  import opened Objects
  import opened Protocol
  import opened StoreTyping
  import Answers

  // ----- what holds of every listing -----

  /**
   * A listing shows exactly the facets of the list that may flow to the clearance, and all it shows
   * may flow to the label that the lister has from then on.
   */
  lemma ListingShows(y: Sys, schedule: seq<Turn>, i: Tid, fd: nat, clearance: Label, shown: seq<Facet>, f: Facet)
    requires Initial(y)
    requires var e := EffectOf(Run(y, schedule), Act(i, Begin(ListFacets(fd, clearance))));
             e.Some? && e.value.outcome == Some(FacetList(shown))
    ensures var z, z' := Run(y, schedule), Run(y, schedule + [Act(i, Begin(ListFacets(fd, clearance)))]);
            && fd in z.threads[i].fds && RefOk(z.store, z.threads[i].fds[fd]) && z.threads[i].fds[fd].kind.KFaceted?
            && (f in shown <==> f in z.store[z.threads[i].fds[fd].uid].facets && CanFlowTo(f.tag, clearance))
            && (f in shown ==> CanFlowTo(f.tag, z'.threads[i].current))
  {
    InitialIsTyped(y);
    RunTyped(y, schedule);
    var z, turn := Run(y, schedule), Act(i, Begin(ListFacets(fd, clearance)));
    var t := z.threads[i];
    assert ThreadTyped(z.store, t);
    assert (schedule + [turn])[..|schedule|] == schedule;
    Answers.VisibleIsAllBelow(z.store[t.fds[fd].uid].facets, clearance, f);
    if f in shown {
      LubIsUpper(t.current, clearance, DC_TRUE);
      FlowPlain(f.tag, clearance);
      TrueIsUnit(DC_TRUE);
      FlowTrans(f.tag, clearance, Lub(t.current, clearance), DC_TRUE, DC_TRUE);
      FlowPlain(f.tag, Lub(t.current, clearance));
    }
  }

  // ----- what does not -----

  const SECRET := Label(DCFormula({{["secret"]}}), DC_TRUE)

  lemma LabelsInPlay()
    ensures Lub(ROOT_LABEL, PUBLIC) == PUBLIC == Lub(PUBLIC, PUBLIC)
    ensures Lub(PUBLIC, SECRET) == SECRET == Lub(ROOT_LABEL, SECRET)
    ensures CanFlowToWith(PUBLIC, ROOT_LABEL, DCFalse) && CanFlowTo(PUBLIC, PUBLIC)
    ensures !CanFlowToWith(SECRET, PUBLIC, DC_TRUE)
  {
    TrueIsUnit(SECRET.secrecy);
    TrueIsUnit(DC_TRUE);
    assert {["secret"]} in Clauses(SECRET.secrecy);
    assert Clauses(And(PUBLIC.secrecy, DC_TRUE)) == {};
  }

  const FRESH := Sys(FRESH_STORE, map[])
  const AT_ROOT := map[0 := DirEntry(KDirectory, ROOT)]
  const AT_LIST := AT_ROOT[1 := DirEntry(KFaceted, 1)]

  /** The store once the faceted directory is linked into the root, with this list of facets. */
  function Linked(fs: seq<Facet>): Store {
    FRESH_STORE[ROOT := Labeled(ROOT_LABEL, Directory(map["f" := DirEntry(KFaceted, 1)]))][1 := Facets(fs)]
  }

  function Administrator(fds: map<nat, DirEntry>, nextFd: nat, pc: PC): Thread {
    Thread(PUBLIC, DCFalse, fds, nextFd, pc)
  }

  /** A run without privilege, at the given label. */
  function Guest(tag: Label, fds: map<nat, DirEntry>, nextFd: nat, pc: PC): Thread {
    Thread(tag, DC_TRUE, fds, nextFd, pc)
  }

  lemma OneTurn(schedule: seq<Turn>, z: Sys, i: Tid, c: Choice)
    requires Run(FRESH, schedule) == z && i in z.threads
    ensures var f := TakeTurn(z.threads[i], z.store, c);
            Run(FRESH, schedule + [Act(i, c)]) == Sys(Written(z.store, f.write), z.threads[i := f.thread])
  {
    hide TakeTurn;
    assert (schedule + [Act(i, c)])[..|schedule|] == schedule;
  }

  lemma OneSpawn(schedule: seq<Turn>, z: Sys, i: Tid, tag: Label, privilege: Component)
    requires Run(FRESH, schedule) == z && i !in z.threads
    ensures Run(FRESH, schedule + [Spawn(i, tag, privilege, None)])
            == Sys(z.store, z.threads[i := Start(tag, privilege)])
  {
    assert (schedule + [Spawn(i, tag, privilege, None)])[..|schedule|] == schedule;
  }

  // ----- an administrator makes the faceted directory -----

  function Making(): seq<Turn> {
    [Spawn(0, PUBLIC, DCFalse, None)]
    + [Act(0, Begin(Create(KFaceted, PUBLIC)))] + [Act(0, Continue(1))] + [Act(0, Continue(0))]
    + [Act(0, Begin(Link(0, "f", 1)))] + [Act(0, Continue(0))]
  }

  lemma MakingTurns()
    ensures var made := FRESH_STORE[1 := Facets([])];
            var t0 := Administrator(AT_ROOT, 1, Idle);
            var t1 := Administrator(AT_ROOT, 1, Reserving(Facets([]), Publish(KFaceted)));
            var t2 := Administrator(AT_ROOT, 1, Filling(1, Facets([]), Publish(KFaceted)));
            && TakeTurn(t0, FRESH_STORE, Begin(Create(KFaceted, PUBLIC))) == Effect(t1, None, None)
            && TakeTurn(t1, FRESH_STORE, Continue(1)) == Effect(t2, Some(Update(1, Reserved)), None)
            && TakeTurn(t2, FRESH_STORE[1 := Reserved], Continue(0))
               == Effect(Administrator(AT_LIST, 2, Idle), Some(Update(1, Facets([]))), Some(Opened(1)))
  {
  }

  lemma LinkingTurns()
    ensures var made := FRESH_STORE[1 := Facets([])];
            var cell := Linked([])[ROOT];
            var edit := Insert("f", DirEntry(KFaceted, 1));
            var t4 := Administrator(AT_LIST, 2, Editing(ROOT, edit, EmptyDirectory(ROOT_LABEL), cell));
            && TakeTurn(Administrator(AT_LIST, 2, Idle), made, Begin(Link(0, "f", 1))) == Effect(t4, None, None)
            && TakeTurn(t4, made, Continue(0))
               == Effect(Administrator(AT_LIST, 2, Idle), Some(Update(ROOT, cell)), Some(Edited(ROOT, edit, true)))
  {
    LabelsInPlay();
    hide CanFlowToWith, Lub;
  }

  lemma MakingWorks()
    ensures Run(FRESH, Making()) == Sys(Linked([]), map[0 := Administrator(AT_LIST, 2, Idle)])
  {
    LabelsInPlay();
    MakingTurns();
    LinkingTurns();
    hide TakeTurn, Lub;
    var made := FRESH_STORE[1 := Facets([])];
    var edit := Insert("f", DirEntry(KFaceted, 1));
    var t0 := Administrator(AT_ROOT, 1, Idle);
    var t1 := Administrator(AT_ROOT, 1, Reserving(Facets([]), Publish(KFaceted)));
    var t2 := Administrator(AT_ROOT, 1, Filling(1, Facets([]), Publish(KFaceted)));
    var t3 := Administrator(AT_LIST, 2, Idle);
    var t4 := Administrator(AT_LIST, 2, Editing(ROOT, edit, EmptyDirectory(ROOT_LABEL), Linked([])[ROOT]));
    var s0 := [Spawn(0, PUBLIC, DCFalse, None)];
    assert [] + s0 == s0;
    OneSpawn([], FRESH, 0, PUBLIC, DCFalse);
    OneTurn(s0, Sys(FRESH_STORE, map[0 := t0]), 0, Begin(Create(KFaceted, PUBLIC)));
    var s1 := s0 + [Act(0, Begin(Create(KFaceted, PUBLIC)))];
    OneTurn(s1, Sys(FRESH_STORE, map[0 := t1]), 0, Continue(1));
    var s2 := s1 + [Act(0, Continue(1))];
    OneTurn(s2, Sys(FRESH_STORE[1 := Reserved], map[0 := t2]), 0, Continue(0));
    var s3 := s2 + [Act(0, Continue(0))];
    assert FRESH_STORE[1 := Reserved][1 := Facets([])] == made;
    OneTurn(s3, Sys(made, map[0 := t3]), 0, Begin(Link(0, "f", 1)));
    var s4 := s3 + [Act(0, Begin(Link(0, "f", 1)))];
    OneTurn(s4, Sys(made, map[0 := t4]), 0, Continue(0));
    assert made[ROOT := Linked([])[ROOT]] == Linked([]);
  }

  // ----- two guests find it -----

  function Entering(i: Tid, tag: Label): seq<Turn> {
    [Spawn(i, tag, DC_TRUE, None)] + [Act(i, Begin(OpenName(0, "f")))]
  }

  lemma EnteringWorks(schedule: seq<Turn>, threads: map<Tid, Thread>, i: Tid, tag: Label)
    requires Run(FRESH, schedule) == Sys(Linked([]), threads) && i !in threads && (tag == PUBLIC || tag == SECRET)
    ensures Run(FRESH, schedule + Entering(i, tag)) == Sys(Linked([]), threads[i := Guest(tag, AT_LIST, 2, Idle)])
  {
    LabelsInPlay();
    OneSpawn(schedule, Sys(Linked([]), threads), i, tag, DC_TRUE);
    hide Lub;
    var t := Guest(tag, AT_ROOT, 1, Idle);
    OneTurn(schedule + [Spawn(i, tag, DC_TRUE, None)], Sys(Linked([]), threads[i := t]), i, Begin(OpenName(0, "f")));
    assert TakeTurn(t, Linked([]), Begin(OpenName(0, "f")))
        == Effect(Guest(tag, AT_LIST, 2, Idle), None, Some(Opened(1)));
    assert threads[i := t][i := Guest(tag, AT_LIST, 2, Idle)] == threads[i := Guest(tag, AT_LIST, 2, Idle)];
    assert schedule + Entering(i, tag)
        == schedule + [Spawn(i, tag, DC_TRUE, None)] + [Act(i, Begin(OpenName(0, "f")))];
  }

  // ----- the secret run opens a facet, or does not -----

  function Opening(): seq<Turn> {
    [Act(1, Begin(OpenFacet(1, PUBLIC)))] + [Act(1, Continue(2))] + [Act(1, Continue(0))] + [Act(1, Continue(0))]
  }

  const PUBLIC_FACET := ForFacet(1, PUBLIC, Some([]))
  const OPENED := [Facet(PUBLIC, 2)]

  function Revealed(): Store {
    Linked(OPENED)[2 := EmptyDirectory(PUBLIC)]
  }

  lemma OpeningTurns()
    ensures var goal, dir := PUBLIC_FACET, EmptyDirectory(PUBLIC);
            var t0, t1 := Guest(SECRET, AT_LIST, 2, Idle), Guest(SECRET, AT_LIST, 2, Reserving(dir, goal));
            var t2 := Guest(SECRET, AT_LIST, 2, Filling(2, dir, goal));
            var t3 := Guest(SECRET, AT_LIST, 2, Appending(1, PUBLIC, Some([]), 2));
            && TakeTurn(t0, Linked([]), Begin(OpenFacet(1, PUBLIC))) == Effect(t1, None, None)
            && TakeTurn(t1, Linked([]), Continue(2)) == Effect(t2, Some(Update(2, Reserved)), None)
            && TakeTurn(t2, Linked([])[2 := Reserved], Continue(0)) == Effect(t3, Some(Update(2, dir)), None)
            && TakeTurn(t3, Linked([])[2 := dir], Continue(0))
               == Effect(Guest(SECRET, AT_LIST[2 := DirEntry(KDirectory, 2)], 3, Idle),
                         Some(Update(1, Facets(OPENED))), Some(FacetOpened(1, PUBLIC, 2)))
  {
    assert [] + OPENED == OPENED;
  }

  lemma ReservingWorks(schedule: seq<Turn>, threads: map<Tid, Thread>)
    requires 1 in threads && threads[1] == Guest(SECRET, AT_LIST, 2, Idle)
    requires Run(FRESH, schedule) == Sys(Linked([]), threads)
    ensures Run(FRESH, schedule + [Act(1, Begin(OpenFacet(1, PUBLIC)))] + [Act(1, Continue(2))])
            == Sys(Linked([])[2 := Reserved],
                   threads[1 := Guest(SECRET, AT_LIST, 2, Filling(2, EmptyDirectory(PUBLIC), PUBLIC_FACET))])
  {
    OpeningTurns();
    hide TakeTurn;
    var t1 := Guest(SECRET, AT_LIST, 2, Reserving(EmptyDirectory(PUBLIC), PUBLIC_FACET));
    OneTurn(schedule, Sys(Linked([]), threads), 1, Begin(OpenFacet(1, PUBLIC)));
    OneTurn(schedule + [Act(1, Begin(OpenFacet(1, PUBLIC)))], Sys(Linked([]), threads[1 := t1]), 1, Continue(2));
  }

  lemma AppendingWorks(schedule: seq<Turn>, threads: map<Tid, Thread>)
    requires 1 in threads
    requires threads[1] == Guest(SECRET, AT_LIST, 2, Filling(2, EmptyDirectory(PUBLIC), PUBLIC_FACET))
    requires Run(FRESH, schedule) == Sys(Linked([])[2 := Reserved], threads)
    ensures Run(FRESH, schedule + [Act(1, Continue(0))] + [Act(1, Continue(0))])
            == Sys(Revealed(), threads[1 := Guest(SECRET, AT_LIST[2 := DirEntry(KDirectory, 2)], 3, Idle)])
  {
    OpeningTurns();
    hide TakeTurn;
    var t3 := Guest(SECRET, AT_LIST, 2, Appending(1, PUBLIC, Some([]), 2));
    var dir := EmptyDirectory(PUBLIC);
    OneTurn(schedule, Sys(Linked([])[2 := Reserved], threads), 1, Continue(0));
    assert Linked([])[2 := Reserved][2 := dir] == Linked([])[2 := dir];
    OneTurn(schedule + [Act(1, Continue(0))], Sys(Linked([])[2 := dir], threads[1 := t3]), 1, Continue(0));
    assert Linked([])[2 := dir][1 := Facets(OPENED)] == Revealed();
  }

  lemma OpeningWorks(schedule: seq<Turn>, threads: map<Tid, Thread>)
    requires 1 in threads && threads[1] == Guest(SECRET, AT_LIST, 2, Idle)
    requires Run(FRESH, schedule) == Sys(Linked([]), threads)
    ensures Run(FRESH, schedule + Opening())
            == Sys(Revealed(), threads[1 := Guest(SECRET, AT_LIST[2 := DirEntry(KDirectory, 2)], 3, Idle)])
  {
    hide Linked, Revealed, Run;
    var half := schedule + [Act(1, Begin(OpenFacet(1, PUBLIC)))] + [Act(1, Continue(2))];
    var t2 := Guest(SECRET, AT_LIST, 2, Filling(2, EmptyDirectory(PUBLIC), PUBLIC_FACET));
    ReservingWorks(schedule, threads);
    AppendingWorks(half, threads[1 := t2]);
    assert half + [Act(1, Continue(0))] + [Act(1, Continue(0))] == schedule + Opening();
  }

  // ----- and the public run sees the difference -----

  function Quietly(): seq<Turn> {
    Making() + Entering(1, SECRET) + Entering(2, PUBLIC)
  }

  const LISTING := Act(2, Begin(ListFacets(1, PUBLIC)))

  lemma QuietlyWorks()
    ensures Run(FRESH, Quietly())
            == Sys(Linked([]), map[0 := Administrator(AT_LIST, 2, Idle), 1 := Guest(SECRET, AT_LIST, 2, Idle),
                                   2 := Guest(PUBLIC, AT_LIST, 2, Idle)])
  {
    hide Making, Entering;
    MakingWorks();
    var admin := map[0 := Administrator(AT_LIST, 2, Idle)];
    EnteringWorks(Making(), admin, 1, SECRET);
    EnteringWorks(Making() + Entering(1, SECRET), admin[1 := Guest(SECRET, AT_LIST, 2, Idle)], 2, PUBLIC);
  }

  lemma ListingTurn(s: Store, fs: seq<Facet>)
    requires 1 in s && s[1] == Facets(fs) && (fs == [] || fs == OPENED)
    ensures TakeTurn(Guest(PUBLIC, AT_LIST, 2, Idle), s, LISTING.choice)
            == Effect(Guest(PUBLIC, AT_LIST, 2, Idle), None, Some(FacetList(fs)))
  {
    LabelsInPlay();
    hide CanFlowTo, Lub;
    assert OPENED[1..] == [] && Visible(OPENED, PUBLIC) == OPENED;
  }

  /**
   * From the store that `initialize` leaves, two runs of the system differ only in what a run does
   * whose label may not flow to public, and a run that stays public is answered differently.
   */
  lemma FacetListsTell()
    ensures var z, z' := Run(FRESH, Quietly()), Run(FRESH, Quietly() + Opening());
            && 1 in z.threads && 2 in z.threads && 1 in z'.threads && 2 in z'.threads
            && z.threads[2] == z'.threads[2] && z.threads[2].current == PUBLIC
            && !CanFlowToWith(z.threads[1].current, PUBLIC, z.threads[1].privilege)
            && !CanFlowToWith(z'.threads[1].current, PUBLIC, z'.threads[1].privilege)
            && EffectOf(z, LISTING) == Some(Effect(z.threads[2], None, Some(FacetList([]))))
            && EffectOf(z', LISTING) == Some(Effect(z'.threads[2], None, Some(FacetList(OPENED))))
  {
    LabelsInPlay();
    QuietlyWorks();
    hide CanFlowToWith, Quietly, TakeTurn, Opening;
    var z := Run(FRESH, Quietly());
    OpeningWorks(Quietly(), z.threads);
    ListingTurn(Linked([]), []);
    ListingTurn(Revealed(), OPENED);
  }
}
