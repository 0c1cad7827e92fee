/**
 * The floating label of a run is exact: it is the join of everything the run was exposed to, no
 * matter in which order, how often, or after how many retries; service calls lower it only by the
 * privileges of the services called.
 */
module FloatingLabel {
  import opened Wrappers
  import opened Labels
  import opened Objects
  import opened Protocol
  import opened StoreTyping
  import opened Exposure

  // ----- the record of a run -----

  /** The labels a thread was exposed to, and the conjunction of the service privileges it used. */
  datatype Meter = Meter(exposed: set<Label>, spent: Component)

  function TagsOf(s: Store, us: set<Uid>): set<Label> {
    set u | u in us && u in s && s[u].Labeled? :: s[u].tag
  }

  /** The service that this turn calls successfully. */
  function Serves(s: Store, t: Thread, c: Choice): Option<Service> {
    if CallsService(t, c) && c.op.fd in t.fds && t.fds[c.op.fd].kind.KService?
       && Decodes(Lookup(s, t.fds[c.op.fd].uid), KService)
       && Implies(t.privilege, s[t.fds[c.op.fd].uid].body.service.clearance)
    then Some(s[t.fds[c.op.fd].uid].body.service)
    else None
  }

  /** The labels a turn exposes its thread to: what it reads, and what it is told to be tainted with. */
  function Exposes(s: Store, t: Thread, c: Choice): set<Label> {
    TagsOf(s, Reads(t, c))
    + (if t.pc.Idle? && c.Begin? && (c.op.Taint? || c.op.TakeReply?) then {c.op.tag} else {})
    + (if t.pc.Idle? && c.Begin? && c.op.ListFacets? && c.op.fd in t.fds && t.fds[c.op.fd].kind.KFaceted?
       then {c.op.clearance} else {})
    + (if Serves(s, t, c).Some? then {Serves(s, t, c).value.taint} else {})
  }

  function MeterTurn(m: Meter, s: Store, t: Thread, c: Choice): Meter {
    Meter(
      m.exposed + Exposes(s, t, c),
      if Serves(s, t, c).Some? then And(m.spent, Serves(s, t, c).value.privilege) else m.spent)
  }

  /** The record of thread `i` over a schedule. */
  function MeterOf(y: Sys, schedule: seq<Turn>, i: Tid): Meter {
    if schedule == [] then Meter({PUBLIC}, DC_TRUE)
    else
      var before := schedule[..|schedule| - 1];
      var z, turn := Run(y, before), schedule[|schedule| - 1];
      var m := MeterOf(y, before, i);
      if turn.tid != i then m
      else if turn.Spawn? then (if i in z.threads then m else Meter({PUBLIC, turn.tag}, DC_TRUE))
      else if i in z.threads then MeterTurn(m, z.store, z.threads[i], turn.choice)
      else m
  }

  // ----- the invariant -----

  predicate AllFlow(ls: set<Label>, to: Label, p: Component) {
    forall l | l in ls :: CanFlowToWith(l, to, p)
  }

  /** The label lies between the join of the exposures and that join lowered by the spent privileges. */
  ghost predicate Tracks(m: Meter, current: Label) {
    && AllFlow(m.exposed, current, m.spent)
    && forall to, p :: AllFlow(m.exposed, to, p) ==> CanFlowToWith(current, to, p)
  }

  ghost predicate Metered(m: Meter, t: Thread) {
    && (if t.pc.Finished? then AllFlow(m.exposed, t.current, And(m.spent, t.privilege)) else Tracks(m, t.current))
    && (t.pc.Editing? ==> t.pc.prev.Labeled? && t.pc.prev.tag in m.exposed)
  }

  lemma RaiseTracks(m: Meter, current: Label, read: Label, raised: Label)
    requires Tracks(m, current) && (raised == Lub(read, current) || raised == Lub(current, read))
    ensures Tracks(m.(exposed := m.exposed + {read}), raised)
  {
    var all := m.exposed + {read};
    TrueIsUnit(m.spent);
    LubIsUpper(read, current, DC_TRUE);
    LubIsUpper(current, read, DC_TRUE);
    LubIsUpper(read, current, m.spent);
    LubIsUpper(current, read, m.spent);
    forall l | l in all ensures CanFlowToWith(l, raised, m.spent) {
      if l != read { FlowTrans(l, current, raised, m.spent, DC_TRUE); }
    }
    forall to, p | AllFlow(all, to, p) ensures CanFlowToWith(raised, to, p) {
      assert AllFlow(m.exposed, to, p) && read in all;
      LubIsLeast(read, current, to, p);
      LubIsLeast(current, read, to, p);
    }
  }

  /** A downgraded label still flows to the label it came from. */
  lemma DowngradeLowers(l: Label, p: Component)
    ensures CanFlowTo(Downgrade(l, p), l)
  {
    DowngradeIsLeast(l, p, l);
    FlowRefl(l, p);
  }

  lemma DowngradeTracks(m: Meter, current: Label, p: Component)
    requires Tracks(m, current)
    ensures Tracks(m.(spent := And(m.spent, p)), Downgrade(current, p))
  {
    DowngradeFlows(current, p);
    DowngradeLowers(current, p);
    FlowPlain(Downgrade(current, p), current);
    forall l | l in m.exposed ensures CanFlowToWith(l, Downgrade(current, p), And(m.spent, p)) {
      FlowTrans(l, current, Downgrade(current, p), m.spent, p);
    }
    forall to, q | AllFlow(m.exposed, to, q) ensures CanFlowToWith(Downgrade(current, p), to, q) {
      TrueIsUnit(q);
      FlowTrans(Downgrade(current, p), current, to, DC_TRUE, q);
    }
  }

  // ----- one turn -----

  lemma ServiceTracks(m: Meter, s: Store, t: Thread, c: Choice)
    requires StoreTyped(s) && ThreadTyped(s, t) && Tracks(m, t.current) && Serves(s, t, c).Some?
    ensures Tracks(MeterTurn(m, s, t, c), TakeTurn(t, s, c).thread.current)
  {
    var u := t.fds[c.op.fd].uid;
    var v := Serves(s, t, c).value;
    var raised := Lub(s[u].tag, t.current);
    RaiseTracks(m, t.current, s[u].tag, raised);
    var m1 := m.(exposed := m.exposed + {s[u].tag});
    DowngradeTracks(m1, raised, v.privilege);
    var m2 := m1.(spent := And(m.spent, v.privilege));
    var lowered := Downgrade(raised, v.privilege);
    RaiseTracks(m2, lowered, v.taint, Lub(lowered, v.taint));
    assert TagsOf(s, Reads(t, c)) == {s[u].tag};
    assert MeterTurn(m, s, t, c) == m2.(exposed := m2.exposed + {v.taint});
  }

  lemma ToldTracks(m: Meter, s: Store, t: Thread, op: Op)
    requires StoreTyped(s) && ThreadTyped(s, t) && t.pc.Idle? && Tracks(m, t.current)
    requires (op.Taint? || op.TakeReply? || op.ListFacets?) && Exposes(s, t, Begin(op)) != {}
    ensures Tracks(MeterTurn(m, s, t, Begin(op)), BeginOp(t, s, op).thread.current)
  {
    hide Tracks, Lub, Visible;
    var x := if op.ListFacets? then op.clearance else op.tag;
    assert Exposes(s, t, Begin(op)) == {x};
    RaiseTracks(m, t.current, x, Lub(t.current, x));
  }

  lemma BeginTracks(m: Meter, s: Store, t: Thread, op: Op)
    requires StoreTyped(s) && ThreadTyped(s, t) && t.pc.Idle? && Tracks(m, t.current) && !op.Respond?
    ensures Tracks(MeterTurn(m, s, t, Begin(op)), BeginOp(t, s, op).thread.current)
  {
    hide Tracks, AllFlow, Implies, CanFlowToWith, Downgrade, Visible, Apply, Blocked, FindFacet, Accumulate, Patched;
    var c := Begin(op);
    if Serves(s, t, c).Some? {
      ServiceTracks(m, s, t, c);
    } else if Exposes(s, t, c) == {} {
      assert MeterTurn(m, s, t, c) == m;
      assert forall u | u in Reads(t, c) && u in s && s[u].Labeled? :: s[u].tag in TagsOf(s, Reads(t, c));
    } else if op.Taint? || op.TakeReply? || op.ListFacets? {
      ToldTracks(m, s, t, op);
    } else {
      var u := t.fds[op.fd].uid;
      assert Exposes(s, t, c) == {s[u].tag};
      RaiseTracks(m, t.current, s[u].tag, Lub(s[u].tag, t.current));
    }
  }

  lemma BeginMetered(m: Meter, s: Store, t: Thread, op: Op)
    requires StoreTyped(s) && ThreadTyped(s, t) && t.pc.Idle? && Metered(m, t)
    ensures Metered(MeterTurn(m, s, t, Begin(op)), BeginOp(t, s, op).thread)
  {
    hide Tracks, AllFlow, Lub, Downgrade, CanFlowToWith;
    var c := Begin(op);
    if op.Respond? {
      assert MeterTurn(m, s, t, c) == m;
      DowngradeTracks(m, t.current, t.privilege);
    } else {
      BeginTracks(m, s, t, op);
      BeginEditsWhatItRead(s, t, op);
      PrivilegeIsFixed(t, s, c);
    }
  }

  lemma BeginEditsWhatItRead(s: Store, t: Thread, op: Op)
    requires StoreTyped(s) && ThreadTyped(s, t) && t.pc.Idle?
    ensures BeginOp(t, s, op).thread.pc.Finished? ==> op.Respond?
    ensures BeginOp(t, s, op).thread.pc.Editing? ==>
              var prev := BeginOp(t, s, op).thread.pc.prev;
              prev.Labeled? && prev.tag in TagsOf(s, Reads(t, Begin(op)))
  {
    if op.Link? || op.Unlink? {
      if op.fd in t.fds && t.fds[op.fd].kind.KDirectory? { assert s[t.fds[op.fd].uid].Labeled?; }
    }
  }

  lemma ContinueMetered(m: Meter, s: Store, t: Thread, coin: Uid)
    requires StoreTyped(s) && ThreadTyped(s, t) && Metered(m, t)
    requires t.pc.Editing? || t.pc.Resolving?
    ensures Metered(MeterTurn(m, s, t, Continue(coin)), ContinueOp(t, s, coin).thread)
  {
    hide Tracks, AllFlow, CanFlowToWith, Implies;
    var c := Continue(coin);
    var m' := MeterTurn(m, s, t, c);
    var u := if t.pc.Editing? then t.pc.dir else t.pc.target;
    assert TagsOf(s, Reads(t, c)) == {s[u].tag};
    assert m' == m.(exposed := m.exposed + {s[u].tag});
    if t.pc.Editing? && s[u] == t.pc.prev {
      assert m' == m;
    } else {
      RaiseTracks(m, t.current, s[u].tag, Lub(s[u].tag, t.current));
    }
  }

  lemma TurnMetered(m: Meter, s: Store, t: Thread, c: Choice)
    requires StoreTyped(s) && ThreadTyped(s, t) && Metered(m, t)
    ensures Metered(MeterTurn(m, s, t, c), TakeTurn(t, s, c).thread)
  {
    if c.Begin? && t.pc.Idle? {
      BeginMetered(m, s, t, c.op);
    } else if c.Continue? && (t.pc.Editing? || t.pc.Resolving?) {
      ContinueMetered(m, s, t, c.coin);
    } else {
      assert MeterTurn(m, s, t, c) == m;
      QuietTurn(s, t, c);
    }
  }

  lemma QuietTurn(s: Store, t: Thread, c: Choice)
    requires !(c.Begin? && t.pc.Idle?) && !(c.Continue? && (t.pc.Editing? || t.pc.Resolving?))
    ensures var t' := TakeTurn(t, s, c).thread;
            && t'.current == t.current && t'.privilege == t.privilege
            && (t'.pc.Finished? <==> t.pc.Finished?) && (t'.pc.Editing? ==> t' == t)
  {
  }

  // ----- every run -----

  lemma {:induction false} RunMetered(y: Sys, schedule: seq<Turn>, i: Tid)
    requires Initial(y) && i in Run(y, schedule).threads
    ensures Metered(MeterOf(y, schedule, i), Run(y, schedule).threads[i])
  {
    var before := schedule[..|schedule| - 1];
    var z, turn := Run(y, before), schedule[|schedule| - 1];
    InitialIsTyped(y);
    RunTyped(y, before);
    if i in z.threads {
      RunMetered(y, before, i);
      if turn.Act? && turn.tid == i {
        TurnMetered(MeterOf(y, before, i), z.store, z.threads[i], turn.choice);
      }
    } else {
      StartMetered(turn.tag, turn.privilege);
    }
  }

  lemma StartMetered(tag: Label, privilege: Component)
    ensures Metered(Meter({PUBLIC, tag}, DC_TRUE), Start(tag, privilege))
  {
    FlowRefl(PUBLIC, DC_TRUE);
    assert Tracks(Meter({PUBLIC}, DC_TRUE), PUBLIC) by {
      assert forall to, p :: AllFlow({PUBLIC}, to, p) ==> PUBLIC in {PUBLIC} && CanFlowToWith(PUBLIC, to, p);
    }
    RaiseTracks(Meter({PUBLIC}, DC_TRUE), PUBLIC, tag, Lub(PUBLIC, tag));
    assert {PUBLIC} + {tag} == {PUBLIC, tag};
  }

  /**
   * Before it responds, a run that used no service privilege carries exactly the join of its
   * exposures: its label flows where all of them flow, and nowhere else.
   */
  lemma LabelIsTheJoin(y: Sys, schedule: seq<Turn>, i: Tid, to: Label, p: Component)
    requires Initial(y) && i in Run(y, schedule).threads && !Run(y, schedule).threads[i].pc.Finished?
    requires MeterOf(y, schedule, i).spent == DC_TRUE
    ensures var t, m := Run(y, schedule).threads[i], MeterOf(y, schedule, i);
            CanFlowToWith(t.current, to, p) <==> AllFlow(m.exposed, to, p)
  {
    RunMetered(y, schedule, i);
    var m := MeterOf(y, schedule, i);
    var current := Run(y, schedule).threads[i].current;
    if CanFlowToWith(current, to, p) {
      forall l | l in m.exposed ensures CanFlowToWith(l, to, p) {
        TrueIsUnit(p);
        FlowTrans(l, current, to, DC_TRUE, p);
      }
    }
  }

  /**
   * Two runs, of the same system or of different ones, that were exposed to the same labels pass the
   * same checks, as readers and as writers: how and when they were exposed makes no difference.
   */
  lemma ExposuresDecide(y: Sys, schedule: seq<Turn>, i: Tid, y': Sys, schedule': seq<Turn>, j: Tid,
                        other: Label, p: Component)
    requires Initial(y) && i in Run(y, schedule).threads && !Run(y, schedule).threads[i].pc.Finished?
    requires Initial(y') && j in Run(y', schedule').threads && !Run(y', schedule').threads[j].pc.Finished?
    requires MeterOf(y, schedule, i).spent == MeterOf(y', schedule', j).spent == DC_TRUE
    requires MeterOf(y, schedule, i).exposed == MeterOf(y', schedule', j).exposed
    ensures var a, b := Run(y, schedule).threads[i].current, Run(y', schedule').threads[j].current;
            && (CanFlowToWith(a, other, p) <==> CanFlowToWith(b, other, p))
            && (CanFlowToWith(other, a, p) <==> CanFlowToWith(other, b, p))
  {
    var a, b := Run(y, schedule).threads[i].current, Run(y', schedule').threads[j].current;
    FlowRefl(a, DC_TRUE);
    FlowRefl(b, DC_TRUE);
    LabelIsTheJoin(y, schedule, i, a, DC_TRUE);
    LabelIsTheJoin(y, schedule, i, b, DC_TRUE);
    LabelIsTheJoin(y', schedule', j, a, DC_TRUE);
    LabelIsTheJoin(y', schedule', j, b, DC_TRUE);
    FlowPlain(a, b);
    FlowPlain(b, a);
    EquivalentLabels(a, b, other, p);
  }

  /** With service calls, every exposure flows to the label under the privileges of the services called. */
  lemma ServicesPayForLowering(y: Sys, schedule: seq<Turn>, i: Tid)
    requires Initial(y) && i in Run(y, schedule).threads && !Run(y, schedule).threads[i].pc.Finished?
    ensures AllFlow(MeterOf(y, schedule, i).exposed, Run(y, schedule).threads[i].current, MeterOf(y, schedule, i).spent)
    ensures forall to, p :: AllFlow(MeterOf(y, schedule, i).exposed, to, p) ==>
                              CanFlowToWith(Run(y, schedule).threads[i].current, to, p)
  {
    RunMetered(y, schedule, i);
  }

  /** The label of the response is reached under those privileges and the run's own. */
  lemma ResponsePaysOwnPrivilege(y: Sys, schedule: seq<Turn>, i: Tid)
    requires Initial(y) && i in Run(y, schedule).threads && Run(y, schedule).threads[i].pc.Finished?
    ensures AllFlow(MeterOf(y, schedule, i).exposed, Run(y, schedule).threads[i].current,
                    And(MeterOf(y, schedule, i).spent, Run(y, schedule).threads[i].privilege))
  {
    RunMetered(y, schedule, i);
  }
}
