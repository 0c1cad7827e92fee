/**
 * The scheduler process as it runs: one thread per connection serving requests, one thread that
 * takes tasks from the bounded queue and hands them to idle workers. An event is one turn of one of
 * these threads, from one lock or channel operation to the next, so `Run` over an arbitrary list of
 * events covers every interleaving.
 */
module Dispatch {
  import opened Wrappers
  import opened Placement
  import Capacity

  type Uuid = nat
  const NIL: Uuid := 0

  /** A connection is its peer's address and a number; an idle worker is the connection it asked on. */
  type Conn = Worker

  datatype Task = Task(id: Uuid, code: Function, payload: nat)

  datatype Result = QueueFull | Returned(code: nat, payload: nat)

  datatype Request =
    | Ping
    | GetTask
    | FinishTask(id: Uuid, result: Result)
    | Invoke(code: Function, payload: nat, sync: bool, id: Uuid)
    | UpdateResource(report: Option<Report>)
    | DropResource

  /** A reply carries no id on the wire; it is kept here to tell which submission it answers. */
  datatype Message = Pong | ProcessTask(task: Task) | Terminate | Reply(id: Uuid, result: Result)

  /** One attempt to write to a connection, and whether it succeeded. */
  datatype Packet = Packet(to: Conn, what: Message, ok: bool)

  /** What a connection's thread is doing; `Enlisting` is between queueing a task and the wait list. */
  datatype Duty = Serving | Enlisting(id: Uuid) | Gone

  /** What the scheduling thread is doing. */
  datatype Desk = Receiving | Seeking(task: Task) | Sending(task: Task, worker: Worker)

  datatype Hub = Hub(
    manager: State, waiting: map<Uuid, Conn>, queue: seq<Task>, desk: Desk,
    duties: map<Conn, Duty>, drawn: set<Uuid>, wire: seq<Packet>)

  datatype Event =
    | Hear(conn: Conn, request: Request, reached: set<Conn>)
    | Enlist(conn: Conn)
    | HangUp(conn: Conn)
    | Receive
    | Seek(pick: Node)
    | Deliver(ok: bool)

  const QUIET := Hub(EMPTY, map[], [], Receiving, map[], {}, [])

  function DutyOf(h: Hub, c: Conn): Duty {
    if c in h.duties then h.duties[c] else Serving
  }

  /** The idle workers of a dropped node are told to terminate, the most recent first. */
  function Farewells(ws: seq<Worker>, reached: set<Conn>): seq<Packet> {
    if ws == [] then []
    else
      var last := ws[|ws| - 1];
      [Packet(last, Terminate, last in reached)] + Farewells(ws[..|ws| - 1], reached)
  }

  /** Identifiers are drawn at random and taken to be fresh and not nil. */
  ghost predicate Enabled(h: Hub, e: Event) {
    match e
    case Hear(c, r, _) => DutyOf(h, c).Serving? && (r.Invoke? ==> r.id != NIL && r.id !in h.drawn)
    case Enlist(c) => DutyOf(h, c).Enlisting?
    case HangUp(c) => DutyOf(h, c).Serving?
    case Receive => h.desk.Receiving? && h.queue != []
    case Seek(pick) => h.desk.Seeking? && IndexOk(h.manager) && (h.manager.idle != map[] ==> pick in h.manager.idle)
    case Deliver(_) => h.desk.Sending?
  }

  predicate Full(cap: nat, h: Hub) {
    |h.queue| >= cap
  }

  /** What a turn writes to the connections. */
  function Sent(cap: nat, h: Hub, e: Event): seq<Packet> {
    match e
    case Hear(c, Ping, reached) => [Packet(c, Pong, c in reached)]
    case Hear(c, Invoke(_, _, _, id), reached) =>
      if Full(cap, h) then [Packet(c, Reply(id, QueueFull), c in reached)] else []
    case Hear(_, FinishTask(id, result), reached) =>
      if id != NIL && id in h.waiting then [Packet(h.waiting[id], Reply(id, result), h.waiting[id] in reached)] else []
    case Hear(c, DropResource, reached) => Farewells(IdleAt(h.manager, NodeOf(c)), reached)
    case Deliver(ok) => if h.desk.Sending? then [Packet(h.desk.worker, ProcessTask(h.desk.task), ok)] else []
    case _ => []
  }

  function Submit(cap: nat, h: Hub, c: Conn, r: Request): Hub
    requires r.Invoke?
  {
    var h' := h.(drawn := h.drawn + {r.id});
    if Full(cap, h) then h'
    else
      var h'' := h'.(queue := h.queue + [Task(r.id, r.code, r.payload)]);
      if r.sync then h''.(duties := h.duties[c := Enlisting(r.id)]) else h''
  }

  /** A request served by the connection's thread. */
  function Serve(cap: nat, h: Hub, c: Conn, r: Request): Hub {
    match r
    case Ping => h
    case GetTask => h.(manager := AddIdle(h.manager, c))
    case FinishTask(id, result) => if id == NIL then h else h.(waiting := h.waiting - {id})
    case Invoke(_, _, _, _) => Submit(cap, h, c, r)
    case UpdateResource(report) =>
      if report.Some? then h.(manager := Update(h.manager, NodeOf(c), report.value)) else h
    case DropResource => h.(manager := RemoveNode(h.manager, NodeOf(c)), duties := h.duties[c := Gone])
  }

  ghost function Next(cap: nat, h: Hub, e: Event): Hub
    requires Enabled(h, e)
  {
    match e
    case Hear(c, r, _) => Serve(cap, h, c, r)
    case Enlist(c) => h.(waiting := h.waiting[DutyOf(h, c).id := c], duties := h.duties[c := Serving])
    case HangUp(c) => h.(duties := h.duties[c := Gone])
    case Receive => h.(desk := Seeking(h.queue[0]), queue := h.queue[1..])
    case Seek(pick) =>
      var (m, w) := FindIdle(h.manager, h.desk.task.code, pick);
      h.(manager := m, desk := if w.Some? then Sending(h.desk.task, w.value) else h.desk)
    case Deliver(ok) => h.(desk := if ok then Receiving else Seeking(h.desk.task))
  }

  ghost function Step(cap: nat, h: Hub, e: Event): Hub {
    if !Enabled(h, e) then h else Next(cap, h, e).(wire := h.wire + Sent(cap, h, e))
  }

  ghost function Run(cap: nat, events: seq<Event>): Hub {
    if events == [] then QUIET else Step(cap, Run(cap, events[..|events| - 1]), events[|events| - 1])
  }

  lemma RunSnoc(cap: nat, events: seq<Event>, e: Event)
    ensures Run(cap, events + [e]) == Step(cap, Run(cap, events), e)
  {
    assert (events + [e])[..|events|] == events;
  }

  /** No lookup or pop of the shared manager can fail in any interleaving. */
  lemma {:induction false} ManagerIsOk(cap: nat, events: seq<Event>)
    ensures IndexOk(Run(cap, events).manager)
  {
    if events != [] {
      var h, e := Run(cap, events[..|events| - 1]), events[|events| - 1];
      ManagerIsOk(cap, events[..|events| - 1]);
      if Enabled(h, e) { NextOk(cap, h, e); }
    }
  }

  lemma NextOk(cap: nat, h: Hub, e: Event)
    requires IndexOk(h.manager) && Enabled(h, e)
    ensures IndexOk(Next(cap, h, e).manager)
  {
    match e
    case Hear(c, GetTask, _) => AddIdleOk(h.manager, c);
    case Hear(c, UpdateResource(report), _) => if report.Some? { UpdateOk(h.manager, NodeOf(c), report.value); }
    case Hear(c, DropResource, _) => RemoveOk(h.manager, NodeOf(c));
    case Seek(pick) => FindIdleOk(h.manager, h.desk.task.code, pick);
    case _ =>
  }

  // ----- what the shared manager has been through -----

  /** The call of the manager that a turn makes. */
  ghost function CallsOf(h: Hub, e: Event): seq<Capacity.Call>
    requires Enabled(h, e)
  {
    match e
    case Hear(c, GetTask, _) => [Capacity.Adds(c)]
    case Hear(c, UpdateResource(report), _) =>
      if report.Some? then [Capacity.Updates(NodeOf(c), report.value)] else []
    case Hear(c, DropResource, _) => [Capacity.Removes(NodeOf(c))]
    case Seek(pick) => [Capacity.Finds(h.desk.task.code, pick)]
    case _ => []
  }

  ghost function AllCalls(cap: nat, events: seq<Event>): seq<Capacity.Call> {
    if events == [] then []
    else
      var before, e := events[..|events| - 1], events[|events| - 1];
      var h := Run(cap, before);
      AllCalls(cap, before) + if Enabled(h, e) then CallsOf(h, e) else []
  }

  /** So all that holds of histories of calls holds of the scheduler: what it makes of reports, for one. */
  lemma {:induction false} ManagerIsAHistory(cap: nat, events: seq<Event>)
    ensures Run(cap, events).manager == Capacity.History(AllCalls(cap, events))
  {
    if events != [] {
      var before, e := events[..|events| - 1], events[|events| - 1];
      var h := Run(cap, before);
      ManagerIsAHistory(cap, before);
      ManagerIsOk(cap, before);
      if Enabled(h, e) { OneCall(cap, h, e, AllCalls(cap, before)); }
      assert !Enabled(h, e) ==> AllCalls(cap, events) == AllCalls(cap, before);
    }
  }

  lemma OneCall(cap: nat, h: Hub, e: Event, calls: seq<Capacity.Call>)
    requires Enabled(h, e) && IndexOk(h.manager) && h.manager == Capacity.History(calls)
    ensures Next(cap, h, e).manager == Capacity.History(calls + CallsOf(h, e))
  {
    hide IndexOk, AddIdle, FindIdle, Update, RemoveNode, Capacity.History, Capacity.Do;
    var more := CallsOf(h, e);
    if more == [] {
      assert calls + more == calls;
    } else {
      OneMoreCall(calls, more[0]);
      assert more == [more[0]];
      DoesWhatItCalls(cap, h, e);
    }
  }

  lemma OneMoreCall(calls: seq<Capacity.Call>, c: Capacity.Call)
    ensures Capacity.History(calls + [c]) == Capacity.Do(Capacity.History(calls), c)
  {
    hide Capacity.Do;
    assert (calls + [c])[..|calls|] == calls;
  }

  lemma DoesWhatItCalls(cap: nat, h: Hub, e: Event)
    requires Enabled(h, e) && IndexOk(h.manager) && CallsOf(h, e) != []
    ensures Next(cap, h, e).manager == Capacity.Do(h.manager, CallsOf(h, e)[0])
  {
    hide IndexOk, AddIdle, FindIdle, Update, RemoveNode;
    match e
    case Hear(c, GetTask, _) =>
    case Hear(c, UpdateResource(report), _) =>
    case Hear(c, DropResource, _) =>
    case Seek(pick) =>
    case _ =>
  }

  // ----- the bounded queue -----

  /** The queue never holds more than its capacity. */
  lemma {:induction false} QueueIsBounded(cap: nat, events: seq<Event>)
    ensures |Run(cap, events).queue| <= cap
  {
    if events != [] {
      QueueIsBounded(cap, events[..|events| - 1]);
      hide FindIdle, AddIdle, Update, RemoveNode, IndexOk;
    }
  }

  /** A submission is refused exactly when the queue holds all it can, and otherwise it is the last in the queue. */
  lemma RefusedIffFull(cap: nat, events: seq<Event>, c: Conn, code: Function, payload: nat, sync: bool, id: Uuid,
                       reached: set<Conn>)
    requires Enabled(Run(cap, events), Hear(c, Invoke(code, payload, sync, id), reached))
    ensures var e, h := Hear(c, Invoke(code, payload, sync, id), reached), Run(cap, events);
            var h' := Run(cap, events + [e]);
            if |h.queue| == cap
            then h'.wire == h.wire + [Packet(c, Reply(id, QueueFull), c in reached)] && h'.queue == h.queue
            else h'.wire == h.wire && h'.queue == h.queue + [Task(id, code, payload)]
  {
    QueueIsBounded(cap, events);
    RunSnoc(cap, events, Hear(c, Invoke(code, payload, sync, id), reached));
    assert forall w: seq<Packet> :: w + [] == w;
  }

  // ----- tasks leave in the order they came, each at most once -----

  /** The tasks that were queued, in order: every submission heard that was not refused. */
  ghost function Accepted(cap: nat, events: seq<Event>): seq<Task> {
    if events == [] then []
    else
      var before, e := events[..|events| - 1], events[|events| - 1];
      var h := Run(cap, before);
      Accepted(cap, before) + if Enabled(h, e) then Queued(cap, h, e) else []
  }

  function Queued(cap: nat, h: Hub, e: Event): seq<Task> {
    if e.Hear? && e.request.Invoke? && !Full(cap, h)
    then [Task(e.request.id, e.request.code, e.request.payload)] else []
  }

  /** The tasks that reached a worker, in order. */
  function Delivered(wire: seq<Packet>): seq<Task> {
    if wire == [] then []
    else (if wire[0].what.ProcessTask? && wire[0].ok then [wire[0].what.task] else []) + Delivered(wire[1..])
  }

  lemma {:induction false} DeliveredConcat(a: seq<Packet>, b: seq<Packet>)
    ensures Delivered(a + b) == Delivered(a) + Delivered(b)
  {
    if a == [] {
      assert a + b == b;
    } else {
      assert (a + b)[1..] == a[1..] + b;
      DeliveredConcat(a[1..], b);
    }
  }

  lemma {:induction false} FarewellsDeliverNothing(ws: seq<Worker>, reached: set<Conn>)
    ensures Delivered(Farewells(ws, reached)) == []
  {
    if ws != [] {
      FarewellsDeliverNothing(ws[..|ws| - 1], reached);
      assert Farewells(ws, reached)[1..] == Farewells(ws[..|ws| - 1], reached);
    }
  }

  ghost function Done(h: Hub, e: Event): seq<Task>
    requires Enabled(h, e)
  {
    if e.Deliver? && e.ok then [h.desk.task] else []
  }

  lemma SentDelivers(cap: nat, h: Hub, e: Event)
    requires Enabled(h, e)
    ensures Delivered(Sent(cap, h, e)) == Done(h, e)
  {
    if e.Hear? && e.request.DropResource? {
      FarewellsDeliverNothing(IdleAt(h.manager, NodeOf(e.conn)), e.reached);
    } else if Sent(cap, h, e) != [] {
      assert Sent(cap, h, e)[1..] == [];
    }
  }

  function Pending(h: Hub): seq<Task> {
    InHand(h.desk) + h.queue
  }

  function InHand(d: Desk): seq<Task> {
    if d.Receiving? then [] else [d.task]
  }

  lemma TasksMoveOn(cap: nat, h: Hub, e: Event)
    requires Enabled(h, e)
    ensures Done(h, e) + Pending(Next(cap, h, e)) == Pending(h) + Queued(cap, h, e)
  {
    hide FindIdle, AddIdle, Update, RemoveNode, IndexOk, DutyOf, Full;
    match e
    case Receive => assert [h.queue[0]] + h.queue[1..] == h.queue;
    case Deliver(ok) => assert ok ==> InHand(Next(cap, h, e).desk) == [];
    case _ =>
  }

  lemma Regroup(accepted: seq<Task>, delivered: seq<Task>, pending: seq<Task>,
                done: seq<Task>, left: seq<Task>, queued: seq<Task>)
    requires accepted == delivered + pending && done + left == pending + queued
    ensures accepted + queued == (delivered + done) + left
  {
    assert accepted + queued == delivered + (pending + queued);
  }

  /** Tasks that reached a worker, then the one in hand, then the queue: together all that was accepted, in order. */
  lemma {:induction false} FifoOnce(cap: nat, events: seq<Event>)
    ensures var h := Run(cap, events);
            Accepted(cap, events) == Delivered(h.wire) + Pending(h)
  {
    if events != [] {
      var before, e := events[..|events| - 1], events[|events| - 1];
      var h := Run(cap, before);
      FifoOnce(cap, before);
      if Enabled(h, e) {
        SentDelivers(cap, h, e);
        DeliveredConcat(h.wire, Sent(cap, h, e));
        TasksMoveOn(cap, h, e);
        Regroup(Accepted(cap, before), Delivered(h.wire), Pending(h),
                Done(h, e), Pending(Next(cap, h, e)), Queued(cap, h, e));
      }
    }
  }

  ghost predicate Distinct(tasks: seq<Task>) {
    forall i, j | 0 <= i < j < |tasks| :: tasks[i].id != tasks[j].id
  }

  lemma {:induction false} AcceptedAreDrawn(cap: nat, events: seq<Event>)
    ensures Distinct(Accepted(cap, events))
    ensures forall t | t in Accepted(cap, events) :: t.id in Run(cap, events).drawn
  {
    if events != [] { AcceptedAreDrawn(cap, events[..|events| - 1]); }
  }

  /** No task reaches a worker twice, and those that do are the first ones accepted, in order. */
  lemma NoTaskTwice(cap: nat, events: seq<Event>)
    ensures Distinct(Delivered(Run(cap, events).wire))
    ensures Delivered(Run(cap, events).wire) <= Accepted(cap, events)
  {
    FifoOnce(cap, events);
    AcceptedAreDrawn(cap, events);
    var d, a := Delivered(Run(cap, events).wire), Accepted(cap, events);
    assert forall i | 0 <= i < |d| :: d[i] == a[i];
  }

  // ----- every request for a task is answered at most once -----

  ghost function Gets(cap: nat, events: seq<Event>, c: Conn): nat {
    if events == [] then 0
    else
      var before, e := events[..|events| - 1], events[|events| - 1];
      Gets(cap, before, c)
      + if Enabled(Run(cap, before), e) && e.Hear? && e.conn == c && e.request.GetTask? then 1 else 0
  }

  /** Attempts to answer a request for a task on the connection. */
  function Answers(wire: seq<Packet>, c: Conn): nat {
    if wire == [] then 0
    else
      (if wire[0].to == c && (wire[0].what.ProcessTask? || wire[0].what.Terminate?) then 1 else 0)
      + Answers(wire[1..], c)
  }

  lemma {:induction false} AnswersConcat(a: seq<Packet>, b: seq<Packet>, c: Conn)
    ensures Answers(a + b, c) == Answers(a, c) + Answers(b, c)
  {
    if a == [] {
      assert a + b == b;
    } else {
      assert (a + b)[1..] == a[1..] + b;
      AnswersConcat(a[1..], b, c);
    }
  }

  lemma {:induction false} FarewellsAnswer(ws: seq<Worker>, reached: set<Conn>, c: Conn)
    ensures Answers(Farewells(ws, reached), c) == multiset(ws)[c]
  {
    if ws != [] {
      FarewellsAnswer(ws[..|ws| - 1], reached, c);
      assert Farewells(ws, reached)[1..] == Farewells(ws[..|ws| - 1], reached);
      assert ws == ws[..|ws| - 1] + [ws[|ws| - 1]];
    }
  }

  function Holding(d: Desk, c: Conn): nat {
    if d.Sending? && d.worker == c then 1 else 0
  }

  function Outstanding(h: Hub, c: Conn): nat {
    Capacity.IdleCount(h.manager, c) + Holding(h.desk, c)
  }

  lemma SentAnswers(cap: nat, h: Hub, e: Event, c: Conn)
    requires Enabled(h, e)
    ensures Answers(Sent(cap, h, e), c)
            == if e.Deliver? then Holding(h.desk, c)
               else if e.Hear? && e.request.DropResource? then multiset(IdleAt(h.manager, NodeOf(e.conn)))[c]
               else 0
  {
    if e.Hear? && e.request.DropResource? {
      FarewellsAnswer(IdleAt(h.manager, NodeOf(e.conn)), e.reached, c);
    } else if Sent(cap, h, e) != [] {
      assert Sent(cap, h, e)[1..] == [];
    }
  }

  lemma DebtMovesOn(cap: nat, h: Hub, e: Event, c: Conn)
    requires IndexOk(h.manager) && Enabled(h, e)
    ensures Outstanding(Next(cap, h, e), c) + Answers(Sent(cap, h, e), c)
            == Outstanding(h, c) + if e.Hear? && e.conn == c && e.request.GetTask? then 1 else 0
  {
    hide FindIdle, AddIdle, Update, RemoveNode, IdleAt, Capacity.IdleCount, Answers, Sent, IndexOk;
    SentAnswers(cap, h, e, c);
    match e
    case Seek(pick) => Capacity.FindIdleCounts(h.manager, h.desk.task.code, pick, c);
    case Hear(conn, GetTask, _) => Capacity.AddIdleCounts(h.manager, conn, c);
    case Hear(conn, UpdateResource(report), _) =>
      if report.Some? { Capacity.UpdateCounts(h.manager, NodeOf(conn), report.value, c); }
    case Hear(conn, DropResource, _) => Capacity.RemoveCounts(h.manager, NodeOf(conn), c);
    case _ =>
  }

  /** Every request for a task waits as an idle worker, is about to be served, or was answered once. */
  lemma {:induction false} RequestsAreAnsweredOnce(cap: nat, events: seq<Event>, c: Conn)
    ensures var h := Run(cap, events); Gets(cap, events, c) == Outstanding(h, c) + Answers(h.wire, c)
  {
    if events != [] {
      var before, e := events[..|events| - 1], events[|events| - 1];
      var h := Run(cap, before);
      RequestsAreAnsweredOnce(cap, before, c);
      ManagerIsOk(cap, before);
      if Enabled(h, e) {
        DebtMovesOn(cap, h, e, c);
        AnswersConcat(h.wire, Sent(cap, h, e), c);
      }
    }
  }

  /** How many tasks were written to the connection. */
  function TasksTo(wire: seq<Packet>, c: Conn): nat {
    if wire == [] then 0 else (if wire[0].to == c && wire[0].what.ProcessTask? then 1 else 0) + TasksTo(wire[1..], c)
  }

  lemma {:induction false} TasksAreAnswers(wire: seq<Packet>, c: Conn)
    ensures TasksTo(wire, c) <= Answers(wire, c)
  {
    if wire != [] { TasksAreAnswers(wire[1..], c); }
  }

  /** A connection never gets more tasks than it asked for. */
  lemma OneTaskPerRequest(cap: nat, events: seq<Event>, c: Conn)
    ensures TasksTo(Run(cap, events).wire, c) <= Gets(cap, events, c)
  {
    RequestsAreAnsweredOnce(cap, events, c);
    TasksAreAnswers(Run(cap, events).wire, c);
  }

  // ----- every submission is answered at most once, and to its sender -----

  /** The life of a submission, told by the events alone. */
  datatype Life =
    | Unknown
    | Refused(sender: Conn)
    | Unattended(sender: Conn)
    | Listing(sender: Conn)
    | Listed(sender: Conn)
    | Settled(sender: Conn, result: Result)

  ghost function LifeOf(cap: nat, events: seq<Event>, id: Uuid): Life {
    if events == [] then Unknown
    else
      var before, e := events[..|events| - 1], events[|events| - 1];
      var l, h := LifeOf(cap, before, id), Run(cap, before);
      if Enabled(h, e) then LiveOn(l, e, id, Full(cap, h)) else l
  }

  function LiveOn(l: Life, e: Event, id: Uuid, full: bool): Life {
    match l
    case Unknown =>
      if e.Hear? && e.request.Invoke? && e.request.id == id then
        if full then Refused(e.conn) else if e.request.sync then Listing(e.conn) else Unattended(e.conn)
      else l
    case Listing(c) => if e == Enlist(c) then Listed(c) else l
    case Listed(c) => if e.Hear? && e.request.FinishTask? && e.request.id == id then Settled(c, e.request.result) else l
    case _ => l
  }

  /** The replies to a submission that were written, and to whom. */
  function RepliesTo(wire: seq<Packet>, id: Uuid): seq<(Conn, Result)> {
    if wire == [] then []
    else
      (if wire[0].what.Reply? && wire[0].what.id == id then [(wire[0].to, wire[0].what.result)] else [])
      + RepliesTo(wire[1..], id)
  }

  lemma {:induction false} RepliesConcat(a: seq<Packet>, b: seq<Packet>, id: Uuid)
    ensures RepliesTo(a + b, id) == RepliesTo(a, id) + RepliesTo(b, id)
  {
    if a == [] {
      assert a + b == b;
    } else {
      assert (a + b)[1..] == a[1..] + b;
      RepliesConcat(a[1..], b, id);
    }
  }

  lemma {:induction false} FarewellsReplyNothing(ws: seq<Worker>, reached: set<Conn>, id: Uuid)
    ensures RepliesTo(Farewells(ws, reached), id) == []
  {
    if ws != [] {
      FarewellsReplyNothing(ws[..|ws| - 1], reached, id);
      assert Farewells(ws, reached)[1..] == Farewells(ws[..|ws| - 1], reached);
    }
  }

  lemma SentReplies(cap: nat, h: Hub, e: Event, id: Uuid)
    requires Enabled(h, e) && id != NIL
    ensures RepliesTo(Sent(cap, h, e), id)
            == if e.Hear? && e.request.Invoke? && e.request.id == id && Full(cap, h) then [(e.conn, QueueFull)]
               else if e.Hear? && e.request.FinishTask? && e.request.id == id && id in h.waiting
               then [(h.waiting[id], e.request.result)]
               else []
  {
    if e.Hear? && e.request.DropResource? {
      FarewellsReplyNothing(IdleAt(h.manager, NodeOf(e.conn)), e.reached, id);
    } else if Sent(cap, h, e) != [] {
      assert Sent(cap, h, e)[1..] == [];
    }
  }

  function Due(l: Life): seq<(Conn, Result)> {
    match l
    case Refused(c) => [(c, QueueFull)]
    case Settled(c, result) => [(c, result)]
    case _ => []
  }

  /** What the scheduler's tables say about a submission is what its life says. */
  ghost predicate Agrees(h: Hub, l: Life, id: Uuid) {
    && (id in h.drawn <==> !l.Unknown?)
    && (id in h.waiting <==> l.Listed?)
    && (l.Listed? ==> h.waiting[id] == l.sender)
    && (forall c :: DutyOf(h, c) == Enlisting(id) <==> l == Listing(c))
  }

  /** A turn touches the duty of its own connection only, and the tables only where its request says so. */
  lemma HearAgrees(cap: nat, h: Hub, e: Event, l: Life, id: Uuid)
    requires Enabled(h, e) && Agrees(h, l, id) && id != NIL && e.Hear?
    ensures Agrees(Next(cap, h, e), LiveOn(l, e, id, Full(cap, h)), id)
  {
    hide FindIdle, AddIdle, Update, RemoveNode, IndexOk, Full;
    var h' := Next(cap, h, e);
    forall c | c != e.conn ensures DutyOf(h', c) == DutyOf(h, c) {}
    match e.request
    case Invoke(_, _, _, _) =>
    case FinishTask(_, _) =>
    case _ =>
  }

  lemma AgreesNext(cap: nat, h: Hub, e: Event, l: Life, id: Uuid)
    requires Enabled(h, e) && Agrees(h, l, id) && id != NIL
    ensures Agrees(Next(cap, h, e), LiveOn(l, e, id, Full(cap, h)), id)
  {
    hide FindIdle, AddIdle, Update, RemoveNode, IndexOk, Full;
    var h' := Next(cap, h, e);
    if e.Hear? {
      HearAgrees(cap, h, e, l, id);
      hide *;
    } else if e.Enlist? || e.HangUp? {
      forall c | c != e.conn ensures DutyOf(h', c) == DutyOf(h, c) {}
    }
  }

  /** A submission gets exactly the reply its life calls for: at most one, and to the connection it came from. */
  lemma {:induction false} RepliesFollowLife(cap: nat, events: seq<Event>, id: Uuid)
    requires id != NIL
    ensures var h, l := Run(cap, events), LifeOf(cap, events, id);
            Agrees(h, l, id) && RepliesTo(h.wire, id) == Due(l)
  {
    if events != [] {
      var before, e := events[..|events| - 1], events[|events| - 1];
      var h, l := Run(cap, before), LifeOf(cap, before, id);
      RepliesFollowLife(cap, before, id);
      if Enabled(h, e) {
        AgreesNext(cap, h, e, l, id);
        SentReplies(cap, h, e, id);
        RepliesConcat(h.wire, Sent(cap, h, e), id);
      }
    }
  }

  predicate FinishesTask(e: Event, id: Uuid) {
    e.Hear? && e.request.FinishTask? && e.request.id == id
  }

  /** A submission that is not settled stays without an answer until some worker finishes it from now on. */
  lemma {:induction false} UnansweredUntilFinished(cap: nat, events: seq<Event>, more: seq<Event>, id: Uuid)
    requires id != NIL && (LifeOf(cap, events, id).Listing? || LifeOf(cap, events, id).Listed?)
    requires forall i | 0 <= i < |more| :: !FinishesTask(more[i], id)
    ensures var l := LifeOf(cap, events + more, id); l.Listing? || l.Listed?
    ensures RepliesTo(Run(cap, events + more).wire, id) == []
  {
    RepliesFollowLife(cap, events + more, id);
    if more == [] {
      assert events + more == events;
    } else {
      var m := more[..|more| - 1];
      UnansweredUntilFinished(cap, events, m, id);
      assert (events + more)[..|events + more| - 1] == events + m;
    }
  }

  lemma OnlyWorker(w: Worker, code: Function)
    ensures var m := State(map[NodeOf(w) := NodeInfo(0, 0, false)], map[], map[NodeOf(w) := [w]]);
            && IndexOk(m)
            && FindIdle(m, code, NodeOf(w)) == (State(map[NodeOf(w) := NodeInfo(0, 0, true)], map[], map[]), Some(w))
  {
    var n := NodeOf(w);
    assert [w][..0] == [];
    assert WithoutLast(map[n := [w]], n) == map[];
    assert map[n := NodeInfo(0, 0, false)][n := NodeInfo(0, 0, true)] == map[n := NodeInfo(0, 0, true)];
  }

  lemma TaskTaken(cap: nat, w: Conn, c: Conn, code: Function)
    requires cap > 0 && w != c
    ensures Run(cap, [Hear(w, GetTask, {}), Hear(c, Invoke(code, 0, true, 1), {}), Receive])
            == Hub(State(map[NodeOf(w) := NodeInfo(0, 0, false)], map[], map[NodeOf(w) := [w]]), map[], [],
                   Seeking(Task(1, code, 0)), map[c := Enlisting(1)], {1}, [])
  {
    var e1, e2 := Hear(w, GetTask, {}), Hear(c, Invoke(code, 0, true, 1), {});
    assert [] + [e1] == [e1] && [e1] + [e2] == [e1, e2] && [e1, e2] + [Receive] == [e1, e2, Receive];
    RunSnoc(cap, [], e1);
    RunSnoc(cap, [e1], e2);
    RunSnoc(cap, [e1, e2], Receive);
    assert [] + [w] == [w];
    assert AddIdle(EMPTY, w).idle == map[NodeOf(w) := [w]];
  }

  /** The schedule up to the moment when the worker holds a task whose sender is not on the wait list yet. */
  lemma TaskOutruns(cap: nat, w: Conn, c: Conn, code: Function)
    requires cap > 0 && w != c
    ensures var t := Task(1, code, 0);
            Run(cap, [Hear(w, GetTask, {}), Hear(c, Invoke(code, 0, true, 1), {}), Receive, Seek(NodeOf(w)),
                      Deliver(true)])
            == Hub(State(map[NodeOf(w) := NodeInfo(0, 0, true)], map[], map[]), map[], [], Receiving,
                   map[c := Enlisting(1)], {1}, [Packet(w, ProcessTask(t), true)])
  {
    var events := [Hear(w, GetTask, {}), Hear(c, Invoke(code, 0, true, 1), {}), Receive];
    TaskTaken(cap, w, c, code);
    var h := Run(cap, events);
    RunSnoc(cap, events, Seek(NodeOf(w)));
    var h' := Run(cap, events + [Seek(NodeOf(w))]);
    OnlyWorker(w, code);
    assert Enabled(h, Seek(NodeOf(w)));
    assert h'.desk == Sending(Task(1, code, 0), w);
    RunSnoc(cap, events + [Seek(NodeOf(w))], Deliver(true));
    assert events + [Seek(NodeOf(w))] + [Deliver(true)]
        == [Hear(w, GetTask, {}), Hear(c, Invoke(code, 0, true, 1), {}), Receive, Seek(NodeOf(w)), Deliver(true)];
  }

  /** The worker may finish before the sender is on the wait list; then the result is dropped. */
  function LostReply(w: Conn, c: Conn, code: Function, result: Result): seq<Event> {
    [Hear(w, GetTask, {}), Hear(c, Invoke(code, 0, true, 1), {}), Receive, Seek(NodeOf(w)), Deliver(true),
     Hear(w, FinishTask(1, result), {w, c}), Enlist(c)]
  }

  /** So a task may be delivered and finished and its sender still wait, for as long as nobody finishes it again. */
  lemma ReplyCanBeLost(cap: nat, w: Conn, c: Conn, code: Function, result: Result, more: seq<Event>)
    requires cap > 0 && w != c
    requires forall i | 0 <= i < |more| :: !FinishesTask(more[i], 1)
    ensures var start := LostReply(w, c, code, result);
            && Delivered(Run(cap, start).wire) == [Task(1, code, 0)]
            && FinishesTask(start[5], 1)
            && LifeOf(cap, start, 1) == Listed(c)
            && RepliesTo(Run(cap, start + more).wire, 1) == []
  {
    var start := LostReply(w, c, code, result);
    TaskOutruns(cap, w, c, code);
    var h5 := Run(cap, start[..5]);
    assert start[..5]
        == [Hear(w, GetTask, {}), Hear(c, Invoke(code, 0, true, 1), {}), Receive, Seek(NodeOf(w)), Deliver(true)];
    RunSnoc(cap, start[..5], start[5]);
    assert start[..5] + [start[5]] == start[..6];
    var h6 := Run(cap, start[..6]);
    RunSnoc(cap, start[..6], start[6]);
    assert start[..6] + [start[6]] == start;
    var h := Run(cap, start);
    assert h.wire == h5.wire && h.wire[1..] == [];
    assert h.waiting == map[1 := c];
    RepliesFollowLife(cap, start, 1);
    UnansweredUntilFinished(cap, start, more, 1);
  }
}
