/**
 * The labelled store as a concurrent protocol.
 *
 * Any number of threads share one store; each thread serves one run of a function. A turn of a
 * thread performs at most one atomic operation on the store, together with the thread-private code
 * that follows it. `Run` plays an arbitrary schedule of turns, so a statement about `Run` for every
 * schedule is a statement about every interleaving.
 */
module Protocol {
  import opened Wrappers
  import opened Labels
  import opened Objects

  type Tid = nat

  // ----- what a thread may ask for -----

  /** New contents, with the target of a redirect named by a descriptor. */
  datatype Draft =
    | DraftFile(bytes: seq<Byte>)
    | DraftBlob(name: string)
    | DraftDirect(privilege: Component, clearance: Component, declassify: Component, code: Function)
    | DraftRedirect(privilege: Component, clearance: Component, declassify: Component, target: nat)
    | DraftService(service: Service)

  /** The parts of a function that an update of a direct gate gives. */
  datatype CodePatch = CodePatch(
    memory: Option<nat>, appImage: Option<string>, runtimeImage: Option<string>, kernel: Option<string>)

  /** An update of a gate: what is not given stays, and so do the kind of gate and its declassification. */
  datatype Patch =
    | PatchDirect(privilege: Option<Component>, clearance: Option<Component>, code: CodePatch)
    | PatchRedirect(privilege: Option<Component>, clearance: Option<Component>, target: nat)

  /** `TakeReply` names the run whose response it takes; only the accounts look at the name. */
  datatype Op =
    | OpenName(fd: nat, name: string)
    | OpenFacet(fd: nat, facet: Label)
    | Close(fd: nat)
    | Read(fd: nat)
    | ListFacets(fd: nat, clearance: Label)
    | GetLabel
    | Taint(tag: Label)
    | Declassify(secrecy: Component)
    | TakeReply(tag: Label, from: Tid)
    | Link(fd: nat, name: string, target: nat)
    | Unlink(fd: nat, name: string)
    | Create(kind: Kind, tag: Label)
    | CreateBlob(tag: Label, name: string)
    | CreateChecked(tag: Label, draft: Draft)
    | Replace(fd: nat, draft: Draft)
    | UpdateGate(fd: nat, patch: Patch)
    | Resolve(fd: nat)
    | CallService(fd: nat, reply: Option<seq<Byte>>)
    | Respond

  datatype Outcome =
    | Failed
    | Refused
    | Opened(fd: nat)
    | Contents(body: Body)
    | FacetList(facets: seq<Facet>)
    | Edited(dir: Uid, edit: Edit, ok: bool)
    | FacetOpened(faceted: Uid, facet: Label, found: Uid)
    | Stored
    | LabelIs(tag: Label)
    | Offered(offer: Option<Label>)
    | Resolved(authority: Authority, code: Function)
    | Called(reply: Option<seq<Byte>>)
    | Responded(tag: Label)

  // ----- the state of a thread -----

  datatype Goal =
    | Publish(kind: Kind)
    | ForBlob(name: string)
    | ForFacet(faceted: Uid, facet: Label, seen: Option<seq<Facet>>)

  /** Where a thread is between two of its atomic operations. */
  datatype PC =
    | Idle
    | Editing(dir: Uid, edit: Edit, prev: Cell, proposed: Cell)
    | Reserving(cell: Cell, goal: Goal)
    | Filling(uid: Uid, cell: Cell, goal: Goal)
    | Appending(faceted: Uid, facet: Label, seen: Option<seq<Facet>>, made: Uid)
    | Rewriting(uid: Uid, body: Body, publish: bool)
    | Replacing(uid: Uid, cell: Cell, publish: bool)
    | Resolving(target: Uid, authority: Authority)
    | Finished
    | Panicked

  datatype Thread = Thread(
    current: Label, privilege: Component, fds: map<nat, DirEntry>, nextFd: nat, pc: PC)

  datatype Update = Update(uid: Uid, cell: Cell)

  /** The result of one turn: the thread, the cell it wrote if any, and the answer if it is done. */
  datatype Effect = Effect(thread: Thread, write: Option<Update>, outcome: Option<Outcome>)

  datatype Choice = Begin(op: Op) | Continue(coin: Uid)

  function Start(tag: Label, privilege: Component): Thread {
    Thread(Lub(PUBLIC, tag), privilege, map[0 := DirEntry(KDirectory, ROOT)], 1, Idle)
  }

  // ----- one turn -----

  function Finish(t: Thread, o: Outcome): Effect {
    Effect(t.(pc := Idle), None, Some(o))
  }

  function Go(t: Thread, pc: PC): Effect {
    Effect(t.(pc := pc), None, None)
  }

  function WithFd(t: Thread, e: DirEntry): Thread {
    t.(fds := t.fds[t.nextFd := e], nextFd := t.nextFd + 1)
  }

  function Raised(t: Thread, read: Label): Thread {
    t.(current := Raise(read, t.current))
  }

  /** `get(..).unwrap()`: the cell must decode as an object of the kind, or the thread dies. */
  predicate Decodes(c: Option<Cell>, k: Kind) {
    c.Some? && Fits(c.value, k)
  }

  function DecodeFacets(c: Option<Cell>): Option<seq<Facet>> {
    if Decodes(c, KFaceted) then Some(c.value.facets) else None
  }

  function ConsiderDir(t: Thread, dir: Uid, e: Edit, c: Option<Cell>): Effect {
    if !Decodes(c, KDirectory) then Go(t, Panicked)
    else
      var t' := Raised(t, c.value.tag);
      match Consider(c.value, e, t.current, t.privilege)
      case Denied => Finish(t', Refused)
      case Unchanged => Finish(t', Edited(dir, e, false))
      case Proposed(cell) => Go(t', Editing(dir, e, c.value, cell))
  }

  function ConsiderFacets(t: Thread, faceted: Uid, facet: Label, seen: Option<seq<Facet>>): Effect {
    if seen.Some? && FindFacet(seen.value, facet).Some? then
      var dir := FindFacet(seen.value, facet).value;
      Finish(WithFd(t, DirEntry(KDirectory, dir)), FacetOpened(faceted, facet, dir))
    else
      Go(t, Reserving(EmptyDirectory(facet), ForFacet(faceted, facet, seen)))
  }

  function ResolveAt(t: Thread, s: Store, gate: Uid, a: Authority): Effect {
    if !Decodes(Lookup(s, gate), KGate) then Go(t, Panicked)
    else
      var t' := Raised(t, s[gate].tag);
      var g := s[gate].body.gate;
      var a' := Accumulate(a, g);
      match g
      case Redirect(_, _, _, target) => Go(t', Resolving(target, a'))
      case Direct(_, _, _, code) =>
        if Implies(t.privilege, a'.clearance) then Finish(t', Resolved(a', code)) else Finish(t', Refused)
  }

  function Compose(fds: map<nat, DirEntry>, d: Draft): Option<Body> {
    match d
    case DraftFile(bytes) => Some(File(bytes))
    case DraftBlob(name) => Some(Blob(name))
    case DraftDirect(p, c, x, code) => Some(GateBody(Direct(p, c, x, code)))
    case DraftService(v) => Some(ServiceBody(v))
    case DraftRedirect(p, c, x, fd) =>
      if fd in fds && fds[fd].kind.KGate? then Some(GateBody(Redirect(p, c, x, fds[fd].uid))) else None
  }

  predicate MayDelegate(privilege: Component, b: Body) {
    && Implies(privilege, Delegated(b))
    && (b.GateBody? ==> Implies(privilege, b.gate.declassify))
  }

  function DefaultBody(k: Kind): Body {
    match k
    case KDirectory => Directory(map[])
    case KFile => File([])
    case _ => Blob("")
  }

  function Given<T>(given: Option<T>, kept: T): T {
    if given.Some? then given.value else kept
  }

  function PatchedCode(f: Function, p: CodePatch): Function {
    Function(Given(p.memory, f.memory), Given(p.appImage, f.appImage),
             Given(p.runtimeImage, f.runtimeImage), Given(p.kernel, f.kernel))
  }

  /** The gate as `dent_update` wants it, if the update fits the gate. */
  function Patched(fds: map<nat, DirEntry>, g: Gate, p: Patch): Option<Gate> {
    match (g, p)
    case (Direct(privilege, clearance, declassify, code), PatchDirect(p', c', f')) =>
      Some(Direct(Given(p', privilege), Given(c', clearance), declassify, PatchedCode(code, f')))
    case (Redirect(privilege, clearance, declassify, _), PatchRedirect(p', c', fd)) =>
      if fd !in fds || !fds[fd].kind.KGate? then None
      else Some(Redirect(Given(p', privilege), Given(c', clearance), declassify, fds[fd].uid))
    case _ => None
  }

  /** `replace` and `write`: the delegation check, the get, and the flow check; the put is still to come. */
  function RewriteAt(t: Thread, s: Store, uid: Uid, b: Body, publish: bool): Effect {
    if !Implies(t.privilege, Delegated(b)) then Finish(t, Refused)
    else if !Decodes(Lookup(s, uid), BodyKind(b)) then Go(t, Panicked)
    else if !CanFlowToWith(t.current, s[uid].tag, t.privilege) then Finish(t, Refused)
    else Go(t, Replacing(uid, Labeled(s[uid].tag, b), publish))
  }

  function OpenNameAt(t: Thread, s: Store, fd: nat, name: string): Effect {
    if fd !in t.fds || !t.fds[fd].kind.KDirectory? then Finish(t, Failed)
    else if !Decodes(Lookup(s, t.fds[fd].uid), KDirectory) then Go(t, Panicked)
    else
      var c := s[t.fds[fd].uid];
      var t' := Raised(t, c.tag);
      if name !in c.body.entries then Finish(t', Failed)
      else Finish(WithFd(t', c.body.entries[name]), Opened(t.nextFd))
  }

  function UpdateGateAt(t: Thread, s: Store, fd: nat, patch: Patch): Effect {
    if fd !in t.fds || !t.fds[fd].kind.KGate? || !Decodes(Lookup(s, t.fds[fd].uid), KGate) then Finish(t, Failed)
    else
      var c := s[t.fds[fd].uid];
      var t' := Raised(t, c.tag);
      var g := Patched(t.fds, c.body.gate, patch);
      if g.None? then Finish(t', Failed) else Go(t', Rewriting(t.fds[fd].uid, GateBody(g.value), false))
  }

  function CallServiceAt(t: Thread, s: Store, fd: nat, reply: Option<seq<Byte>>): Effect {
    if fd !in t.fds || !t.fds[fd].kind.KService? then Finish(t, Failed)
    else if !Decodes(Lookup(s, t.fds[fd].uid), KService) then Go(t, Panicked)
    else
      var c := s[t.fds[fd].uid];
      var t' := Raised(t, c.tag);
      if !Implies(t.privilege, c.body.service.clearance) then Finish(t', Refused)
      else
        Finish(t'.(current := Lub(Downgrade(t'.current, c.body.service.privilege), c.body.service.taint)),
               Called(reply))
  }

  function BeginOp(t: Thread, s: Store, op: Op): Effect {
    match op
    case OpenName(fd, name) => OpenNameAt(t, s, fd, name)
    case OpenFacet(fd, facet) =>
      if fd !in t.fds || !t.fds[fd].kind.KFaceted? then Finish(t, Failed)
      else ConsiderFacets(t, t.fds[fd].uid, facet, DecodeFacets(Lookup(s, t.fds[fd].uid)))
    case Close(fd) =>
      Finish(t.(fds := t.fds - {fd}), Stored)
    case Read(fd) =>
      if fd !in t.fds || t.fds[fd].kind.KFaceted? then Finish(t, Failed)
      else if !Decodes(Lookup(s, t.fds[fd].uid), t.fds[fd].kind) then Go(t, Panicked)
      else
        var c := s[t.fds[fd].uid];
        Finish(Raised(t, c.tag), Contents(c.body))
    case ListFacets(fd, clearance) =>
      if fd !in t.fds || !t.fds[fd].kind.KFaceted? then Finish(t, Failed)
      else if !Decodes(Lookup(s, t.fds[fd].uid), KFaceted) then Go(t, Panicked)
      else
        var visible := Visible(s[t.fds[fd].uid].facets, clearance);
        Finish(t.(current := Lub(t.current, clearance)), FacetList(visible))
    case GetLabel =>
      Finish(t, LabelIs(t.current))
    case Taint(tag) =>
      Finish(t.(current := Lub(t.current, tag)), LabelIs(Lub(t.current, tag)))
    case Declassify(target) =>
      Finish(t, Offered(Declassified(t, target)))
    case TakeReply(tag, _) =>
      Finish(t.(current := Lub(t.current, tag)), LabelIs(Lub(t.current, tag)))
    case Link(fd, name, target) =>
      if fd !in t.fds || target !in t.fds || !t.fds[fd].kind.KDirectory? then Finish(t, Failed)
      else ConsiderDir(t, t.fds[fd].uid, Insert(name, t.fds[target]), Lookup(s, t.fds[fd].uid))
    case Unlink(fd, name) =>
      if fd !in t.fds || !t.fds[fd].kind.KDirectory? then Finish(t, Failed)
      else ConsiderDir(t, t.fds[fd].uid, Remove(name), Lookup(s, t.fds[fd].uid))
    case Create(kind, tag) =>
      if kind.KGate? || kind.KService? || kind.KBlob? then Finish(t, Failed)
      else
        var c := if kind.KFaceted? then Facets([]) else Labeled(tag, DefaultBody(kind));
        Go(t, Reserving(c, Publish(kind)))
    case CreateBlob(tag, name) =>
      Go(t, Reserving(Labeled(tag, Blob("")), ForBlob(name)))
    case CreateChecked(tag, draft) =>
      var b := Compose(t.fds, draft);
      if b.None? || !(b.value.GateBody? || b.value.ServiceBody?) then Finish(t, Failed)
      else if !CanFlowToWith(t.current, tag, t.privilege) || !MayDelegate(t.privilege, b.value) then
        Finish(t, Refused)
      else
        Go(t, Reserving(Labeled(tag, b.value), Publish(BodyKind(b.value))))
    case Replace(fd, draft) =>
      var b := Compose(t.fds, draft);
      if b.None? || b.value.GateBody? || fd !in t.fds || t.fds[fd].kind != BodyKind(b.value) then Finish(t, Failed)
      else RewriteAt(t, s, t.fds[fd].uid, b.value, false)
    case UpdateGate(fd, patch) => UpdateGateAt(t, s, fd, patch)
    case Resolve(fd) =>
      if fd !in t.fds || !t.fds[fd].kind.KGate? then Finish(t, Failed)
      else ResolveAt(t, s, t.fds[fd].uid, NO_AUTHORITY)
    case CallService(fd, reply) => CallServiceAt(t, s, fd, reply)
    case Respond =>
      var tag := Downgrade(t.current, t.privilege);
      Effect(t.(current := tag, pc := Finished), None, Some(Responded(tag)))
  }

  /** `declassify` offers a label, and installs nothing. */
  function Declassified(t: Thread, target: Component): Option<Label> {
    if Implies(And(target, t.privilege), t.current.secrecy) then Some(Label(target, t.current.integrity)) else None
  }

  function Visible(fs: seq<Facet>, clearance: Label): seq<Facet> {
    if fs == [] then []
    else (if CanFlowTo(fs[0].tag, clearance) then [fs[0]] else []) + Visible(fs[1..], clearance)
  }

  function ContinueOp(t: Thread, s: Store, coin: Uid): Effect {
    match t.pc
    case Editing(dir, e, prev, proposed) =>
      if CasSucceeds(s, dir, Some(prev)) then
        Effect(t.(pc := Idle), Some(Update(dir, proposed)), Some(Edited(dir, e, true)))
      else if Decodes(Lookup(s, dir), KDirectory) then
        ConsiderDir(t, dir, e, Lookup(s, dir))
      else
        Finish(t, Edited(dir, e, true))
    case Reserving(cell, goal) =>
      if coin in s then Effect(t, None, None)
      else Effect(t.(pc := Filling(coin, cell, goal)), Some(Update(coin, Reserved)), None)
    case Filling(uid, cell, goal) =>
      (match goal
       case Publish(kind) =>
         Effect(WithFd(t, DirEntry(kind, uid)).(pc := Idle), Some(Update(uid, cell)), Some(Opened(t.nextFd)))
       case ForBlob(name) =>
         Effect(t.(pc := Rewriting(uid, Blob(name), true)), Some(Update(uid, cell)), None)
       case ForFacet(faceted, facet, seen) =>
         Effect(t.(pc := Appending(faceted, facet, seen, uid)), Some(Update(uid, cell)), None))
    case Appending(faceted, facet, seen, made) =>
      var expected := if seen.Some? then Some(Facets(seen.value)) else None;
      var known := if seen.Some? then seen.value else [];
      if CasSucceeds(s, faceted, expected) then
        Effect(WithFd(t, DirEntry(KDirectory, made)).(pc := Idle),
               Some(Update(faceted, Facets(known + [Facet(facet, made)]))),
               Some(FacetOpened(faceted, facet, made)))
      else
        ConsiderFacets(t, faceted, facet, DecodeFacets(Lookup(s, faceted)))
    case Rewriting(uid, body, publish) =>
      RewriteAt(t, s, uid, body, publish)
    case Replacing(uid, cell, publish) =>
      if publish && cell.Labeled? then
        Effect(WithFd(t, DirEntry(BodyKind(cell.body), uid)).(pc := Idle), Some(Update(uid, cell)),
               Some(Opened(t.nextFd)))
      else
        Effect(t.(pc := Idle), Some(Update(uid, cell)), Some(Stored))
    case Resolving(target, a) =>
      ResolveAt(t, s, target, a)
    case _ => Effect(t, None, None)
  }

  function TakeTurn(t: Thread, s: Store, c: Choice): Effect {
    match c
    case Begin(op) => if t.pc.Idle? then BeginOp(t, s, op) else Effect(t, None, None)
    case Continue(coin) => ContinueOp(t, s, coin)
  }

  // ----- the system -----

  datatype Sys = Sys(store: Store, threads: map<Tid, Thread>)

  /** A run may be started from outside, or by another run that invokes a gate. */
  datatype Turn =
    | Spawn(tid: Tid, tag: Label, privilege: Component, invoker: Option<Tid>)
    | Act(tid: Tid, choice: Choice)

  function Written(s: Store, w: Option<Update>): Store {
    if w.Some? then s[w.value.uid := w.value.cell] else s
  }

  /** The effect of a turn on its thread; a turn of an unknown thread does nothing. */
  function EffectOf(y: Sys, turn: Turn): Option<Effect> {
    if turn.Act? && turn.tid in y.threads then Some(TakeTurn(y.threads[turn.tid], y.store, turn.choice)) else None
  }

  function Step(y: Sys, turn: Turn): Sys {
    if turn.Spawn? then
      if turn.tid in y.threads then y
      else y.(threads := y.threads[turn.tid := Start(turn.tag, turn.privilege)])
    else if EffectOf(y, turn).Some? then
      var e := EffectOf(y, turn).value;
      Sys(Written(y.store, e.write), y.threads[turn.tid := e.thread])
    else y
  }

  function Run(y: Sys, schedule: seq<Turn>): Sys {
    if schedule == [] then y
    else Step(Run(y, schedule[..|schedule| - 1]), schedule[|schedule| - 1])
  }

  /** A typed store that no thread is using yet. */
  ghost predicate Initial(y: Sys) {
    StoreTyped(y.store) && y.threads == map[]
  }

  /** The store as `FS::initialize` leaves it. */
  const FRESH_STORE: Store := map[ROOT := EmptyDirectory(ROOT_LABEL)]

  lemma FreshStoreIsTyped()
    ensures Initial(Sys(FRESH_STORE, map[]))
  {
    assert forall e :: !Refers(EmptyDirectory(ROOT_LABEL), e);
  }
}
