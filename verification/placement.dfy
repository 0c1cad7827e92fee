/**
 * The global scheduler's view of its worker machines: which nodes are known, where virtual machines
 * are cached for a function, and which workers are idle. The operations are given here as functions
 * on a state; the class in `manager.dfy` performs them in place.
 */
module Placement {
  import opened Wrappers
  import Objects

  type Function = Objects.Function

  datatype Node = Node(ip: nat)
  datatype Address = Address(ip: nat, port: nat)
  datatype Worker = Worker(addr: Address, conn: nat)

  datatype NodeInfo = NodeInfo(totalMem: nat, freeMem: nat, dirty: bool)

  /** How many virtual machines a node holds for the function the slot is listed under. */
  datatype Slot = Slot(node: Node, count: nat)

  type Cached = map<Function, seq<Slot>>

  datatype State = State(info: map<Node, NodeInfo>, cached: Cached, idle: map<Node, seq<Worker>>)

  /** What a machine reports: cached machines per function, and memory. */
  datatype Report = Report(stats: map<Function, nat>, totalMem: nat, freeMem: nat)

  const EMPTY := State(map[], map[], map[])

  function NodeOf(w: Worker): Node {
    Node(w.addr.ip)
  }

  // ----- operations -----

  function WithNode(info: map<Node, NodeInfo>, n: Node): map<Node, NodeInfo> {
    if n in info then info else info[n := NodeInfo(0, 0, false)]
  }

  function IdleAt(m: State, n: Node): seq<Worker> {
    if n in m.idle then m.idle[n] else []
  }

  function AddIdle(m: State, w: Worker): State {
    State(WithNode(m.info, NodeOf(w)), m.cached, m.idle[NodeOf(w) := IdleAt(m, NodeOf(w)) + [w]])
  }

  /** The first slot whose node has not been marked dirty. */
  function FirstClean(info: map<Node, NodeInfo>, slots: seq<Slot>): Option<nat>
    ensures FirstClean(info, slots).Some? ==> FirstClean(info, slots).value < |slots|
  {
    if slots == [] then None
    else if slots[0].node in info && !info[slots[0].node].dirty then Some(0)
    else
      var rest := FirstClean(info, slots[1..]);
      if rest.Some? then Some(rest.value + 1) else None
  }

  /** `retain(|n| n.1 != 0)`. */
  function Positive(slots: seq<Slot>): seq<Slot> {
    if slots == [] then []
    else (if slots[0].count > 0 then [slots[0]] else []) + Positive(slots[1..])
  }

  function Used(slots: seq<Slot>, i: nat): seq<Slot>
    requires i < |slots| && slots[i].count > 0
  {
    Positive(slots[i := Slot(slots[i].node, slots[i].count - 1)])
  }

  function WithoutLast(idle: map<Node, seq<Worker>>, n: Node): map<Node, seq<Worker>>
    requires n in idle && idle[n] != []
  {
    var left := idle[n][..|idle[n]| - 1];
    if left == [] then idle - {n} else idle[n := left]
  }

  /** The cached node that the scheduler settles on for a function, if there is a clean one. */
  function Chosen(m: State, f: Function): Option<nat> {
    if f in m.cached then FirstClean(m.info, m.cached[f]) else None
  }

  /** Without a clean cached node any idle node may be picked, and becomes dirty. */
  function FindIdle(m: State, f: Function, pick: Node): (State, Option<Worker>)
    requires IndexOk(m) && (m.idle != map[] ==> pick in m.idle)
  {
    match Chosen(m, f)
    case Some(i) =>
      var n := m.cached[f][i].node;
      var m' := m.(cached := m.cached[f := Used(m.cached[f], i)]);
      if n in m.idle then (m'.(idle := WithoutLast(m.idle, n)), Some(m.idle[n][|m.idle[n]| - 1])) else (m', None)
    case None =>
      if m.idle == map[] then (m, None)
      else
        (State(m.info[pick := m.info[pick].(dirty := true)], m.cached, WithoutLast(m.idle, pick)),
         Some(m.idle[pick][|m.idle[pick]| - 1]))
  }

  /** The index of the node's slot, or the length if it has none. */
  function Position(slots: seq<Slot>, n: Node): (p: nat)
    ensures p <= |slots| && (p < |slots| ==> slots[p].node == n)
    ensures forall i | 0 <= i < p :: slots[i].node != n
  {
    if slots == [] || slots[0].node == n then 0 else 1 + Position(slots[1..], n)
  }

  function Reported(slots: seq<Slot>, n: Node, count: nat): seq<Slot> {
    var p := Position(slots, n);
    Positive(if p < |slots| then slots[p := Slot(n, count)] else slots + [Slot(n, count)])
  }

  function SlotsAfter(c: Cached, n: Node, stats: map<Function, nat>, f: Function): seq<Slot>
    requires f in c || f in stats
  {
    if f !in stats then c[f]
    else if f in c then Reported(c[f], n, stats[f])
    else [Slot(n, stats[f])]
  }

  function CachedAfter(c: Cached, n: Node, stats: map<Function, nat>): Cached {
    map f | f in c.Keys + stats.Keys && (f in c || stats[f] > 0) :: SlotsAfter(c, n, stats, f)
  }

  function Update(m: State, n: Node, r: Report): State {
    State(m.info[n := NodeInfo(r.totalMem, r.freeMem, false)], CachedAfter(m.cached, n, r.stats), m.idle)
  }

  /** `swap_remove` of the node's slot, followed by `retain`. */
  function Dropped(slots: seq<Slot>, n: Node): seq<Slot> {
    var p := Position(slots, n);
    if p == |slots| then slots
    else Positive(slots[p := slots[|slots| - 1]][..|slots| - 1])
  }

  function RemoveNode(m: State, n: Node): State {
    State(m.info - {n}, map f | f in m.cached :: Dropped(m.cached[f], n), m.idle - {n})
  }

  // ----- the index invariant -----

  ghost predicate SlotsOk(info: map<Node, NodeInfo>, slots: seq<Slot>) {
    && (forall i | 0 <= i < |slots| :: slots[i].node in info && slots[i].count > 0)
    && (forall i, j | 0 <= i < j < |slots| :: slots[i].node != slots[j].node)
  }

  ghost predicate IdleOk(info: map<Node, NodeInfo>, n: Node, ws: seq<Worker>) {
    n in info && ws != [] && forall i | 0 <= i < |ws| :: NodeOf(ws[i]) == n
  }

  /** All maps speak of known nodes, list a node once, and hold no empty counts or lists. */
  ghost predicate IndexOk(m: State) {
    && (forall f | f in m.cached :: SlotsOk(m.info, m.cached[f]))
    && (forall n | n in m.idle :: IdleOk(m.info, n, m.idle[n]))
  }

  lemma {:induction false} PositiveIsId(slots: seq<Slot>)
    requires forall i | 0 <= i < |slots| :: slots[i].count > 0
    ensures Positive(slots) == slots
  {
    if slots != [] { PositiveIsId(slots[1..]); }
  }

  lemma {:induction false} PositiveDropsOne(slots: seq<Slot>, p: nat)
    requires p < |slots| && slots[p].count == 0
    requires forall i | 0 <= i < |slots| && i != p :: slots[i].count > 0
    ensures Positive(slots) == slots[..p] + slots[p + 1..]
  {
    if p == 0 {
      PositiveIsId(slots[1..]);
    } else {
      PositiveDropsOne(slots[1..], p - 1);
      assert slots[..p] == [slots[0]] + slots[1..][..p - 1];
    }
  }

  /** Changing the count of one slot of a good list leaves a good list. */
  lemma CountChangeOk(info: map<Node, NodeInfo>, slots: seq<Slot>, p: nat, count: nat)
    requires p < |slots| && SlotsOk(info, slots)
    ensures SlotsOk(info, Positive(slots[p := Slot(slots[p].node, count)]))
  {
    var changed := slots[p := Slot(slots[p].node, count)];
    if count > 0 { PositiveIsId(changed); } else { PositiveDropsOne(changed, p); }
  }

  lemma AddIdleOk(m: State, w: Worker)
    requires IndexOk(m)
    ensures IndexOk(AddIdle(m, w))
  {
  }

  lemma FindIdleOk(m: State, f: Function, pick: Node)
    requires IndexOk(m) && (m.idle != map[] ==> pick in m.idle)
    ensures IndexOk(FindIdle(m, f, pick).0)
  {
    if Chosen(m, f).Some? {
      var i := Chosen(m, f).value;
      CountChangeOk(m.info, m.cached[f], i, m.cached[f][i].count - 1);
    }
  }

  lemma AppendedOk(info: map<Node, NodeInfo>, slots: seq<Slot>, slot: Slot)
    requires SlotsOk(info, slots) && slot.node in info
    requires forall i | 0 <= i < |slots| :: slots[i].node != slot.node
    ensures SlotsOk(info, Positive(slots + [slot]))
  {
    if slot.count > 0 {
      PositiveIsId(slots + [slot]);
    } else {
      PositiveDropsOne(slots + [slot], |slots|);
      assert slots + [] == slots;
    }
  }

  lemma ReportedOk(info: map<Node, NodeInfo>, slots: seq<Slot>, n: Node, count: nat)
    requires SlotsOk(info, slots) && n in info
    ensures SlotsOk(info, Reported(slots, n, count))
  {
    hide SlotsOk, Positive;
    var p := Position(slots, n);
    if p < |slots| { CountChangeOk(info, slots, p, count); } else { AppendedOk(info, slots, Slot(n, count)); }
  }

  lemma MoreInfoOk(info: map<Node, NodeInfo>, slots: seq<Slot>, n: Node, i: NodeInfo)
    requires SlotsOk(info, slots)
    ensures SlotsOk(info[n := i], slots)
  {
  }

  lemma UpdateOk(m: State, n: Node, r: Report)
    requires IndexOk(m)
    ensures IndexOk(Update(m, n, r))
  {
    var m' := Update(m, n, r);
    forall f | f in m'.cached ensures SlotsOk(m'.info, m'.cached[f]) {
      hide Reported;
      if f in m.cached {
        MoreInfoOk(m.info, m.cached[f], n, m'.info[n]);
        if f in r.stats { ReportedOk(m'.info, m.cached[f], n, r.stats[f]); }
      }
    }
  }

  lemma DroppedOk(info: map<Node, NodeInfo>, slots: seq<Slot>, n: Node)
    requires SlotsOk(info, slots)
    ensures SlotsOk(info - {n}, Dropped(slots, n))
  {
    var p := Position(slots, n);
    if p < |slots| {
      var rest := slots[p := slots[|slots| - 1]][..|slots| - 1];
      PositiveIsId(rest);
    }
  }

  lemma RemoveOk(m: State, n: Node)
    requires IndexOk(m)
    ensures IndexOk(RemoveNode(m, n))
  {
    forall f | f in m.cached { DroppedOk(m.info, m.cached[f], n); }
  }

  // ----- when the scheduler finds nobody -----

  /** It comes back empty-handed exactly when the node it settled on, or else every node, has no idle worker. */
  lemma FindIdleNoneIff(m: State, f: Function, pick: Node)
    requires IndexOk(m) && (m.idle != map[] ==> pick in m.idle)
    ensures FindIdle(m, f, pick).1.None? <==>
            if Chosen(m, f).Some? then m.cached[f][Chosen(m, f).value].node !in m.idle else m.idle == map[]
  {
  }

  /** With a stale report it can miss an idle worker that is there. */
  lemma StaleReportsHideWorkers(f: Function, total: nat, free: nat, port: nat, conn: nat)
    ensures var w := Worker(Address(2, port), conn);
            var m := Update(AddIdle(EMPTY, w), Node(1), Report(map[f := 1], total, free));
            IndexOk(m) && IdleAt(m, Node(2)) == [w] && FindIdle(m, f, Node(2)).1.None?
  {
    var w := Worker(Address(2, port), conn);
    AddIdleOk(EMPTY, w);
    UpdateOk(AddIdle(EMPTY, w), Node(1), Report(map[f := 1], total, free));
    var m := Update(AddIdle(EMPTY, w), Node(1), Report(map[f := 1], total, free));
    assert m.cached[f] == [Slot(Node(1), 1)];
    assert FirstClean(m.info, m.cached[f]) == Some(0);
  }
}
