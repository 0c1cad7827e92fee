/**
 * What every answer means. An operation may take many turns, with other threads moving in between and
 * attempts that fail; whatever it answers in the end is stated here in terms of the operation as it
 * was asked for and of the store at the turn that answers it, and so is what that turn leaves behind.
 */
module Answers {
  import opened Wrappers
  import opened Labels
  import opened Objects
  import opened Protocol
  import opened StoreTyping
  import opened Exposure

  /** An operation as it was asked for: who asked, and the store at its first turn. */
  datatype Call = Call(op: Op, thread: Thread, store: Store)

  /** The operation that thread `i` began last. */
  function CallOf(y: Sys, schedule: seq<Turn>, i: Tid): Option<Call> {
    if schedule == [] then None
    else
      var before, turn := schedule[..|schedule| - 1], schedule[|schedule| - 1];
      var z := Run(y, before);
      if turn.Act? && turn.tid == i && i in z.threads && z.threads[i].pc.Idle? && turn.choice.Begin?
      then Some(Call(turn.choice.op, z.threads[i], z.store))
      else CallOf(y, before, i)
  }

  // ----- what an answer says -----

  predicate Holds(t: Thread, fd: nat, k: Kind) {
    fd in t.fds && t.fds[fd].kind == k
  }

  predicate SameFds(t: Thread, f: Effect) {
    f.thread.fds == t.fds && f.thread.nextFd == t.nextFd
  }

  /** One new descriptor, for this entry. */
  predicate NewFd(t: Thread, f: Effect, e: DirEntry) {
    f.thread.fds == t.fds[t.nextFd := e] && f.thread.nextFd == t.nextFd + 1
  }

  /** The operation answers, and neither writes nor opens anything. */
  predicate JustAnswers(t: Thread, f: Effect, o: Outcome) {
    f.outcome == Some(o) && f.write.None? && SameFds(t, f)
  }

  /** Fills a reserved cell and opens it. */
  predicate Makes(s: Store, t: Thread, f: Effect, k: Kind) {
    && f.outcome == Some(Opened(t.nextFd)) && f.write.Some?
    && Lookup(s, f.write.value.uid) == Some(Reserved) && NewFd(t, f, DirEntry(k, f.write.value.uid))
  }

  ghost predicate NameOpened(s: Store, t: Thread, fd: nat, name: string, f: Effect)
    requires ThreadTyped(s, t)
  {
    if Holds(t, fd, KDirectory) && name in s[t.fds[fd].uid].body.entries then
      && f.outcome == Some(Opened(t.nextFd)) && f.write.None?
      && NewFd(t, f, s[t.fds[fd].uid].body.entries[name])
    else JustAnswers(t, f, Failed)
  }

  /** The directory listed for the facet, or a new one of that label, appended to a list that lacks the facet. */
  ghost predicate FacetIsOpened(s: Store, t: Thread, fd: nat, facet: Label, f: Effect)
    requires ThreadTyped(s, t)
  {
    if !Holds(t, fd, KFaceted) then JustAnswers(t, f, Failed)
    else
      && f.outcome.Some? && f.outcome.value.FacetOpened?
      && (var u, d := t.fds[fd].uid, f.outcome.value.found;
          && f.outcome == Some(FacetOpened(u, facet, d)) && NewFd(t, f, DirEntry(KDirectory, d))
          && if f.write.None? then Facet(facet, d) in s[u].facets
             else
               && (forall x | x in s[u].facets :: x.tag != facet)
               && f.write == Some(Update(u, Facets(s[u].facets + [Facet(facet, d)])))
               && RefOk(s, DirEntry(KDirectory, d)) && s[d].tag == facet)
  }

  ghost predicate IsRead(s: Store, t: Thread, fd: nat, f: Effect)
    requires ThreadTyped(s, t)
  {
    JustAnswers(t, f, if fd in t.fds && !t.fds[fd].kind.KFaceted? then Contents(s[t.fds[fd].uid].body) else Failed)
  }

  ghost predicate IsListed(s: Store, t: Thread, fd: nat, clearance: Label, f: Effect)
    requires ThreadTyped(s, t)
  {
    if !Holds(t, fd, KFaceted) then JustAnswers(t, f, Failed)
    else
      && f.outcome.Some? && f.outcome.value.FacetList? && JustAnswers(t, f, f.outcome.value)
      && forall x :: x in f.outcome.value.facets <==> x in s[t.fds[fd].uid].facets && CanFlowTo(x.tag, clearance)
  }

  /** The label is the join of what it was with this one, and that is the answer. */
  ghost predicate IsTainted(t: Thread, tag: Label, f: Effect) {
    && JustAnswers(t, f, LabelIs(f.thread.current))
    && forall to, p :: CanFlowToWith(f.thread.current, to, p)
                       <==> CanFlowToWith(t.current, to, p) && CanFlowToWith(tag, to, p)
  }

  /** Offers the label with that secrecy exactly when the current one may flow there, and changes nothing. */
  ghost predicate IsOffered(t: Thread, secrecy: Component, f: Effect) {
    var target := Label(secrecy, t.current.integrity);
    f == Effect(t, None, Some(Offered(if CanFlowToWith(t.current, target, t.privilege) then Some(target) else None)))
  }

  /**
   * The edit asked for, and no other, is the one decided on: refused exactly when the label may not
   * flow to the directory, in vain exactly when an insertion finds its name or a removal does not, and
   * done otherwise.
   */
  ghost predicate IsEdited(s: Store, t: Thread, dir: Uid, e: Edit, f: Effect)
    requires RefOk(s, DirEntry(KDirectory, dir))
  {
    var d := s[dir];
    if !CanFlowToWith(f.thread.current, d.tag, t.privilege) then JustAnswers(t, f, Refused)
    else if e.Insert? <==> e.name in d.body.entries then JustAnswers(t, f, Edited(dir, e, false))
    else
      && f.outcome == Some(Edited(dir, e, true)) && SameFds(t, f)
      && f.write == Some(Update(dir, Labeled(d.tag, Directory(
                        if e.Insert? then d.body.entries[e.name := e.entry] else d.body.entries - {e.name}))))
  }

  ghost predicate IsLinked(s: Store, t: Thread, fd: nat, name: string, target: nat, f: Effect)
    requires ThreadTyped(s, t)
  {
    if !Holds(t, fd, KDirectory) || target !in t.fds then JustAnswers(t, f, Failed)
    else IsEdited(s, t, t.fds[fd].uid, Insert(name, t.fds[target]), f)
  }

  ghost predicate IsUnlinked(s: Store, t: Thread, fd: nat, name: string, f: Effect)
    requires ThreadTyped(s, t)
  {
    if !Holds(t, fd, KDirectory) then JustAnswers(t, f, Failed)
    else IsEdited(s, t, t.fds[fd].uid, Remove(name), f)
  }

  /** An empty object of the kind: with the label asked for, unless it is a facet list. */
  predicate IsEmpty(c: Cell, k: Kind, tag: Label) {
    match k
    case KDirectory => c == Labeled(tag, Directory(map[]))
    case KFile => c == Labeled(tag, File([]))
    case KFaceted => c == Facets([])
    case _ => false
  }

  ghost predicate IsCreated(s: Store, t: Thread, k: Kind, tag: Label, f: Effect) {
    if k.KGate? || k.KService? || k.KBlob? then JustAnswers(t, f, Failed)
    else Makes(s, t, f, k) && IsEmpty(f.write.value.cell, k, tag)
  }

  /** The body is exactly what the draft says, field by field. */
  predicate IsDrafted(t: Thread, d: Draft, b: Body) {
    match d
    case DraftFile(bytes) => b.File? && b.bytes == bytes
    case DraftBlob(name) => b.Blob? && b.name == name
    case DraftDirect(privilege, clearance, declassify, code) =>
      && b.GateBody? && b.gate.Direct? && b.gate.privilege == privilege && b.gate.clearance == clearance
      && b.gate.declassify == declassify && b.gate.code == code
    case DraftRedirect(privilege, clearance, declassify, target) =>
      && b.GateBody? && b.gate.Redirect? && b.gate.privilege == privilege && b.gate.clearance == clearance
      && b.gate.declassify == declassify && Holds(t, target, KGate) && b.gate.target == t.fds[target].uid
    case DraftService(service) => b.ServiceBody? && b.service == service
  }

  predicate DraftKind(d: Draft, k: Kind) {
    match d
    case DraftFile(_) => k.KFile?
    case DraftBlob(_) => k.KBlob?
    case DraftDirect(_, _, _, _) => k.KGate?
    case DraftRedirect(_, _, _, _) => k.KGate?
    case DraftService(_) => k.KService?
  }

  /** The privilege covers what the draft hands out. */
  predicate Covers(privilege: Component, d: Draft) {
    match d
    case DraftDirect(p, _, x, _) => Implies(privilege, p) && Implies(privilege, x)
    case DraftRedirect(p, _, x, _) => Implies(privilege, p) && Implies(privilege, x)
    case DraftService(service) => Implies(privilege, service.privilege)
    case _ => true
  }

  /** Made with the label asked for exactly when the label may flow there and the privilege covers it. */
  ghost predicate IsCreatedChecked(call: Call, s: Store, t: Thread, tag: Label, d: Draft, f: Effect) {
    if d.DraftFile? || d.DraftBlob? || (d.DraftRedirect? && !Holds(t, d.target, KGate)) then JustAnswers(t, f, Failed)
    else if !CanFlowToWith(call.thread.current, tag, t.privilege) || !Covers(t.privilege, d) then
      JustAnswers(t, f, Refused)
    else
      && Makes(s, t, f, if d.DraftService? then KService else KGate)
      && f.write.value.cell.Labeled? && f.write.value.cell.tag == tag && IsDrafted(t, d, f.write.value.cell.body)
  }

  /** Published with its name exactly when the label may flow to it. */
  ghost predicate BlobIsCreated(s: Store, t: Thread, tag: Label, name: string, f: Effect) {
    if !CanFlowToWith(t.current, tag, t.privilege) then JustAnswers(t, f, Refused)
    else
      && f.outcome == Some(Opened(t.nextFd)) && f.write.Some? && f.write.value.cell == Labeled(tag, Blob(name))
      && NewFd(t, f, DirEntry(KBlob, f.write.value.uid))
  }

  /** Only the contents of the cell change. */
  predicate Overwrites(s: Store, t: Thread, uid: Uid, f: Effect) {
    && f.outcome == Some(Stored) && SameFds(t, f) && f.write.Some? && f.write.value.uid == uid
    && f.write.value.cell.Labeled? && uid in s && s[uid].Labeled? && f.write.value.cell.tag == s[uid].tag
  }

  ghost predicate IsReplaced(s: Store, t: Thread, fd: nat, d: Draft, f: Effect)
    requires ThreadTyped(s, t)
  {
    if d.DraftDirect? || d.DraftRedirect? || fd !in t.fds || !DraftKind(d, t.fds[fd].kind) then
      JustAnswers(t, f, Failed)
    else if !Covers(t.privilege, d) || !CanFlowToWith(t.current, s[t.fds[fd].uid].tag, t.privilege) then
      JustAnswers(t, f, Refused)
    else Overwrites(s, t, t.fds[fd].uid, f) && IsDrafted(t, d, f.write.value.cell.body)
  }

  /** The update fits the gate. */
  predicate FitsGate(t: Thread, g: Gate, p: Patch) {
    if p.PatchDirect? then g.Direct? else g.Redirect? && Holds(t, p.target, KGate)
  }

  predicate IsGiven<T(==)>(given: Option<T>, kept: T, now: T) {
    now == if given.Some? then given.value else kept
  }

  /** What the update gives is new, and everything else is as it was read. */
  predicate IsPatched(t: Thread, g: Gate, p: Patch, now: Gate) {
    && IsGiven(p.privilege, g.privilege, now.privilege) && IsGiven(p.clearance, g.clearance, now.clearance)
    && now.declassify == g.declassify
    && match p
       case PatchDirect(_, _, code) =>
         && g.Direct? && now.Direct? && IsGiven(code.memory, g.code.memory, now.code.memory)
         && IsGiven(code.appImage, g.code.appImage, now.code.appImage)
         && IsGiven(code.runtimeImage, g.code.runtimeImage, now.code.runtimeImage)
         && IsGiven(code.kernel, g.code.kernel, now.code.kernel)
       case PatchRedirect(_, _, target) =>
         now.Redirect? && Holds(t, target, KGate) && now.target == t.fds[target].uid
  }

  /** The gate as it was read at the first turn of the call. */
  predicate ReadGate(call: Call, u: Uid, g: Gate) {
    Lookup(call.store, u).Some? && Fits(call.store[u], KGate) && call.store[u].body.gate == g
  }

  ghost predicate GateIsUpdated(call: Call, s: Store, t: Thread, fd: nat, p: Patch, f: Effect)
    requires ThreadTyped(s, t)
  {
    if !Holds(t, fd, KGate) then JustAnswers(t, f, Failed)
    else
      var u := t.fds[fd].uid;
      exists g ::
        && ReadGate(call, u, g)
        && if !FitsGate(t, g, p) then JustAnswers(t, f, Failed)
           else if !Implies(t.privilege, if p.privilege.Some? then p.privilege.value else g.privilege)
                   || !CanFlowToWith(t.current, s[u].tag, t.privilege) then JustAnswers(t, f, Refused)
           else Overwrites(s, t, u, f) && f.write.value.cell.body.GateBody?
                && IsPatched(t, g, p, f.write.value.cell.body.gate)
  }

  /** The gate read last is direct; it is refused exactly when the privilege does not meet all clearances. */
  ghost predicate IsResolved(s: Store, t: Thread, fd: nat, f: Effect)
    requires ThreadTyped(s, t)
  {
    if !Holds(t, fd, KGate) then JustAnswers(t, f, Failed)
    else
      var u := if t.pc.Resolving? then t.pc.target else t.fds[fd].uid;
      var a := if t.pc.Resolving? then t.pc.authority else Authority(DC_TRUE, DC_TRUE, DC_TRUE);
      && RefOk(s, DirEntry(KGate, u)) && s[u].body.gate.Direct?
      && var g := s[u].body.gate;
         if !Implies(t.privilege, And(a.clearance, g.clearance)) then JustAnswers(t, f, Refused)
         else
           var sum := Authority(And(a.privilege, g.privilege), And(a.clearance, g.clearance), a.declassify);
           JustAnswers(t, f, Resolved(sum, g.code))
  }

  /**
   * The service is called exactly when the privilege meets its clearance. The label is then the least
   * that the old one, raised to the service and lowered by the service's privilege, and the service's
   * taint may both flow to.
   */
  ghost predicate IsCalled(s: Store, t: Thread, fd: nat, reply: Option<seq<Byte>>, f: Effect)
    requires ThreadTyped(s, t)
  {
    if !Holds(t, fd, KService) then JustAnswers(t, f, Failed)
    else
      var c := s[t.fds[fd].uid];
      var v := c.body.service;
      if !Implies(t.privilege, v.clearance) then JustAnswers(t, f, Refused)
      else
        && JustAnswers(t, f, Called(reply))
        && forall to :: CanFlowTo(f.thread.current, to)
                        <==> && CanFlowToWith(c.tag, to, v.privilege) && CanFlowToWith(t.current, to, v.privilege)
                             && CanFlowTo(v.taint, to)
  }

  /** The response carries the least label that the current one may flow to under the run's privilege. */
  ghost predicate IsResponse(t: Thread, f: Effect) {
    && JustAnswers(t, f, Responded(f.thread.current)) && f.thread.pc.Finished?
    && forall to :: CanFlowTo(f.thread.current, to) <==> CanFlowToWith(t.current, to, t.privilege)
  }

  /** The turn of thread `t` on store `s` answers the call as it should. */
  ghost predicate Right(call: Call, s: Store, t: Thread, f: Effect)
    requires ThreadTyped(s, t)
  {
    match call.op
    case OpenName(fd, name) => NameOpened(s, t, fd, name, f)
    case OpenFacet(fd, facet) => FacetIsOpened(s, t, fd, facet, f)
    case Close(fd) => f == Effect(t.(fds := t.fds - {fd}), None, Some(Stored))
    case Read(fd) => IsRead(s, t, fd, f)
    case ListFacets(fd, clearance) => IsListed(s, t, fd, clearance, f)
    case GetLabel => f == Effect(t, None, Some(LabelIs(t.current)))
    case Taint(tag) => IsTainted(t, tag, f)
    case Declassify(secrecy) => IsOffered(t, secrecy, f)
    case TakeReply(tag, _) => IsTainted(t, tag, f)
    case Link(fd, name, target) => IsLinked(s, t, fd, name, target, f)
    case Unlink(fd, name) => IsUnlinked(s, t, fd, name, f)
    case Create(k, tag) => IsCreated(s, t, k, tag, f)
    case CreateBlob(tag, name) => BlobIsCreated(s, t, tag, name, f)
    case CreateChecked(tag, d) => IsCreatedChecked(call, s, t, tag, d, f)
    case Replace(fd, d) => IsReplaced(s, t, fd, d, f)
    case UpdateGate(fd, p) => GateIsUpdated(call, s, t, fd, p, f)
    case Resolve(fd) => IsResolved(s, t, fd, f)
    case CallService(fd, reply) => IsCalled(s, t, fd, reply, f)
    case Respond => IsResponse(t, f)
  }

  // ----- what an operation under way is about -----

  predicate Busy(pc: PC) {
    !pc.Idle? && !pc.Finished? && !pc.Panicked?
  }

  predicate Edits(op: Op, t: Thread, dir: Uid, e: Edit) {
    match op
    case Link(fd, name, target) =>
      Holds(t, fd, KDirectory) && target in t.fds && dir == t.fds[fd].uid && e == Insert(name, t.fds[target])
    case Unlink(fd, name) => Holds(t, fd, KDirectory) && dir == t.fds[fd].uid && e == Remove(name)
    case _ => false
  }

  predicate Prepares(call: Call, t: Thread, c: Cell, g: Goal) {
    match call.op
    case Create(k, tag) => !k.KGate? && !k.KService? && !k.KBlob? && g == Publish(k) && IsEmpty(c, k, tag)
    case CreateBlob(tag, name) => g == ForBlob(name) && c == Labeled(tag, Blob(""))
    case CreateChecked(tag, d) =>
      && !d.DraftFile? && !d.DraftBlob? && (d.DraftRedirect? ==> Holds(t, d.target, KGate))
      && g == Publish(if d.DraftService? then KService else KGate)
      && c.Labeled? && c.tag == tag && IsDrafted(t, d, c.body)
      && CanFlowToWith(call.thread.current, tag, t.privilege) && Covers(t.privilege, d)
    case OpenFacet(fd, facet) =>
      Holds(t, fd, KFaceted) && g.ForFacet? && g.faceted == t.fds[fd].uid && g.facet == facet
    case _ => false
  }

  /** What is about to be written has been asked for, and the privilege covers it. */
  predicate Rewrites(call: Call, t: Thread, uid: Uid, b: Body, covered: bool) {
    match call.op
    case Replace(fd, d) =>
      && !d.DraftDirect? && !d.DraftRedirect? && fd in t.fds && DraftKind(d, t.fds[fd].kind)
      && uid == t.fds[fd].uid && IsDrafted(t, d, b) && (covered ==> Covers(t.privilege, d))
    case UpdateGate(fd, p) =>
      && Holds(t, fd, KGate) && uid == t.fds[fd].uid && b.GateBody?
      && Lookup(call.store, uid).Some? && Fits(call.store[uid], KGate)
      && FitsGate(t, call.store[uid].body.gate, p) && IsPatched(t, call.store[uid].body.gate, p, b.gate)
      && (covered ==> Implies(t.privilege, b.gate.privilege))
    case _ => false
  }

  ghost predicate Names(call: Call, s: Store, uid: Uid, b: Body) {
    call.op.CreateBlob? && b == Blob(call.op.name) && uid in s && s[uid].Labeled? && s[uid].tag == call.op.tag
  }

  /** Whatever a thread is in the middle of is what it was asked for. */
  ghost predicate Pursues(call: Call, s: Store, t: Thread) {
    && t.fds == call.thread.fds && t.nextFd == call.thread.nextFd && t.privilege == call.thread.privilege
    && match t.pc
       case Editing(dir, e, _, _) => Edits(call.op, t, dir, e)
       case Reserving(c, g) => Prepares(call, t, c, g)
       case Filling(_, c, g) => Prepares(call, t, c, g)
       case Appending(faceted, facet, _, _) =>
         && call.op.OpenFacet? && Holds(t, call.op.fd, KFaceted)
         && faceted == t.fds[call.op.fd].uid && facet == call.op.facet
       case Rewriting(uid, b, publish) => if publish then Names(call, s, uid, b) else Rewrites(call, t, uid, b, false)
       case Replacing(uid, c, publish) =>
         c.Labeled? && if publish then Names(call, s, uid, c.body) else Rewrites(call, t, uid, c.body, true)
       case Resolving(_, _) => call.op.Resolve? && Holds(t, call.op.fd, KGate)
       case _ => true
  }

  lemma OthersLetPursue(call: Call, s: Store, s': Store, t: Thread)
    requires Pursues(call, s, t) && Evolves(s, s')
    ensures Pursues(call, s', t)
  {
    hide Prepares, Rewrites, Edits;
    if t.pc.Rewriting? && t.pc.publish { assert CellEvolves(s[t.pc.uid], s'[t.pc.uid]); }
    if t.pc.Replacing? && t.pc.publish { assert CellEvolves(s[t.pc.uid], s'[t.pc.uid]); }
  }

  // ----- the first turn -----

  /** A turn that answers answers right, and one that does not is still about the call. */
  ghost predicate Good(call: Call, s: Store, t: Thread, f: Effect)
    requires ThreadTyped(s, t)
  {
    && (f.outcome.Some? ==> Right(call, s, t, f))
    && (Busy(f.thread.pc) ==> f.outcome.None? && Pursues(call, Written(s, f.write), f.thread))
  }

  ghost predicate GoodStart(s: Store, t: Thread, op: Op)
    requires ThreadTyped(s, t)
  {
    Good(Call(op, t, s), s, t, BeginOp(t, s, op))
  }

  lemma ReadsStartWell(s: Store, t: Thread, op: Op)
    requires StoreTyped(s) && ThreadTyped(s, t) && t.pc.Idle?
    requires op.OpenName? || op.Read? || op.Close? || op.GetLabel?
    ensures GoodStart(s, t, op)
  {
  }

  lemma ListingStartsWell(s: Store, t: Thread, op: Op)
    requires StoreTyped(s) && ThreadTyped(s, t) && t.pc.Idle? && op.ListFacets?
    ensures GoodStart(s, t, op)
  {
    hide CanFlowTo, Lub;
    if Holds(t, op.fd, KFaceted) {
      forall x ensures x in Visible(s[t.fds[op.fd].uid].facets, op.clearance)
                       <==> x in s[t.fds[op.fd].uid].facets && CanFlowTo(x.tag, op.clearance)
      {
        VisibleIsAllBelow(s[t.fds[op.fd].uid].facets, op.clearance, x);
      }
    }
  }

  lemma {:induction false} VisibleIsAllBelow(fs: seq<Facet>, clearance: Label, f: Facet)
    ensures f in Visible(fs, clearance) <==> f in fs && CanFlowTo(f.tag, clearance)
  {
    if fs != [] {
      VisibleIsAllBelow(fs[1..], clearance, f);
      assert f in fs <==> f == fs[0] || f in fs[1..];
    }
  }

  lemma LabelsStartWell(s: Store, t: Thread, op: Op)
    requires StoreTyped(s) && ThreadTyped(s, t) && t.pc.Idle? && (op.Taint? || op.TakeReply?)
    ensures GoodStart(s, t, op)
  {
    hide CanFlowToWith, Lub;
    forall to, p ensures CanFlowToWith(Lub(t.current, op.tag), to, p)
                         <==> CanFlowToWith(t.current, to, p) && CanFlowToWith(op.tag, to, p)
    {
      LubIsLeast(t.current, op.tag, to, p);
    }
  }

  lemma OfferStartsWell(s: Store, t: Thread, op: Op)
    requires StoreTyped(s) && ThreadTyped(s, t) && t.pc.Idle? && op.Declassify?
    ensures GoodStart(s, t, op)
  {
    AndImplies(t.current.integrity, t.privilege);
    hide Implies;
  }

  lemma ResponseStartsWell(s: Store, t: Thread, op: Op)
    requires StoreTyped(s) && ThreadTyped(s, t) && t.pc.Idle? && op.Respond?
    ensures GoodStart(s, t, op)
  {
    hide CanFlowToWith, CanFlowTo, Downgrade;
    forall to ensures CanFlowTo(Downgrade(t.current, t.privilege), to) <==> CanFlowToWith(t.current, to, t.privilege) {
      DowngradeIsLeast(t.current, t.privilege, to);
    }
  }

  /** The label after a service call, seen from where it may flow. */
  lemma LabelAfterService(read: Label, current: Label, p: Component, taint: Label, to: Label)
    ensures CanFlowTo(Lub(Downgrade(Raise(read, current), p), taint), to)
            <==> CanFlowToWith(read, to, p) && CanFlowToWith(current, to, p) && CanFlowTo(taint, to)
  {
    hide CanFlowTo, CanFlowToWith, Downgrade, Lub;
    var low := Downgrade(Raise(read, current), p);
    FlowPlain(Lub(low, taint), to);
    FlowPlain(low, to);
    FlowPlain(taint, to);
    LubIsLeast(low, taint, to, DC_TRUE);
    DowngradeIsLeast(Raise(read, current), p, to);
    LubIsLeast(read, current, to, p);
  }

  lemma ServiceStartsWell(s: Store, t: Thread, op: Op)
    requires StoreTyped(s) && ThreadTyped(s, t) && t.pc.Idle? && op.CallService?
    ensures GoodStart(s, t, op)
  {
    hide CanFlowTo, CanFlowToWith, Downgrade, Lub, Implies, Raise;
    if Holds(t, op.fd, KService) {
      var c := s[t.fds[op.fd].uid];
      var v := c.body.service;
      forall to ensures CanFlowTo(Lub(Downgrade(Raise(c.tag, t.current), v.privilege), v.taint), to)
                        <==> && CanFlowToWith(c.tag, to, v.privilege) && CanFlowToWith(t.current, to, v.privilege)
                             && CanFlowTo(v.taint, to)
      {
        LabelAfterService(c.tag, t.current, v.privilege, v.taint, to);
      }
    }
  }

  /** A pass over the value read: it decides on the edit, or is about to try it. */
  lemma ConsideringIsRight(s: Store, t: Thread, dir: Uid, e: Edit)
    requires RefOk(s, DirEntry(KDirectory, dir))
    ensures var f := ConsiderDir(t, dir, e, Lookup(s, dir));
            && (f.outcome.Some? ==> IsEdited(s, t, dir, e, f) && f.thread.pc.Idle?)
            && (f.outcome.None? ==> f.thread.pc.Editing? && f.thread.pc.dir == dir && f.thread.pc.edit == e)
            && f.write.None? && SameFds(t, f) && f.thread.privilege == t.privilege
  {
    hide CanFlowToWith, Lub;
  }

  lemma EditStartsWell(s: Store, t: Thread, op: Op)
    requires StoreTyped(s) && ThreadTyped(s, t) && t.pc.Idle? && (op.Link? || op.Unlink?)
    ensures GoodStart(s, t, op)
  {
    hide ConsiderDir, IsEdited, StoreTyped;
    if Holds(t, op.fd, KDirectory) && (op.Link? ==> op.target in t.fds) {
      var e := if op.Link? then Insert(op.name, t.fds[op.target]) else Remove(op.name);
      ConsideringIsRight(s, t, t.fds[op.fd].uid, e);
    }
  }

  lemma FacetsConsidered(s: Store, t: Thread, faceted: Uid, facet: Label)
    requires StoreTyped(s) && RefOk(s, DirEntry(KFaceted, faceted))
    ensures var f := ConsiderFacets(t, faceted, facet, DecodeFacets(Lookup(s, faceted)));
            f.write.None? &&
            if f.outcome.Some? then
              && f.outcome.value.FacetOpened? && f.thread.pc.Idle?
              && f.outcome == Some(FacetOpened(faceted, facet, f.outcome.value.found))
              && NewFd(t, f, DirEntry(KDirectory, f.outcome.value.found))
              && Facet(facet, f.outcome.value.found) in s[faceted].facets
            else
              && f.thread == t.(pc := f.thread.pc) && f.thread.pc.Reserving? && f.thread.pc.goal.ForFacet?
              && f.thread.pc.goal.faceted == faceted && f.thread.pc.goal.facet == facet
  {
    FindFacetIsFirst(s[faceted].facets, facet);
  }

  lemma OpenFacetStartsWell(s: Store, t: Thread, op: Op)
    requires StoreTyped(s) && ThreadTyped(s, t) && t.pc.Idle? && op.OpenFacet?
    ensures GoodStart(s, t, op)
  {
    hide ConsiderFacets, StoreTyped, FindFacet, DecodeFacets;
    if Holds(t, op.fd, KFaceted) { FacetsConsidered(s, t, t.fds[op.fd].uid, op.facet); }
  }

  lemma CreationStartsWell(s: Store, t: Thread, op: Op)
    requires StoreTyped(s) && ThreadTyped(s, t) && t.pc.Idle? && (op.Create? || op.CreateBlob?)
    ensures GoodStart(s, t, op)
  {
  }

  lemma CheckedCreationStartsWell(s: Store, t: Thread, op: Op)
    requires StoreTyped(s) && ThreadTyped(s, t) && t.pc.Idle? && op.CreateChecked?
    ensures GoodStart(s, t, op)
  {
    hide CanFlowToWith, Implies;
  }

  lemma ReplacementStartsWell(s: Store, t: Thread, op: Op)
    requires StoreTyped(s) && ThreadTyped(s, t) && t.pc.Idle? && op.Replace?
    ensures GoodStart(s, t, op)
  {
    TrueIsUnit(t.privilege);
    hide CanFlowToWith, Implies;
  }

  lemma GateUpdateStartsWell(s: Store, t: Thread, op: Op)
    requires StoreTyped(s) && ThreadTyped(s, t) && t.pc.Idle? && op.UpdateGate?
    ensures GoodStart(s, t, op)
  {
    hide CanFlowToWith, Implies;
    if Holds(t, op.fd, KGate) {
      assert ReadGate(Call(op, t, s), t.fds[op.fd].uid, s[t.fds[op.fd].uid].body.gate);
    }
  }

  lemma ResolutionStartsWell(s: Store, t: Thread, op: Op)
    requires StoreTyped(s) && ThreadTyped(s, t) && t.pc.Idle? && op.Resolve?
    ensures GoodStart(s, t, op)
  {
    hide Implies;
  }

  lemma StartsWell(s: Store, t: Thread, op: Op)
    requires StoreTyped(s) && ThreadTyped(s, t) && t.pc.Idle?
    ensures GoodStart(s, t, op)
  {
    hide GoodStart, StoreTyped, ThreadTyped;
    match op
    case OpenFacet(_, _) => OpenFacetStartsWell(s, t, op);
    case ListFacets(_, _) => ListingStartsWell(s, t, op);
    case Taint(_) => LabelsStartWell(s, t, op);
    case TakeReply(_, _) => LabelsStartWell(s, t, op);
    case Declassify(_) => OfferStartsWell(s, t, op);
    case Link(_, _, _) => EditStartsWell(s, t, op);
    case Unlink(_, _) => EditStartsWell(s, t, op);
    case Create(_, _) => CreationStartsWell(s, t, op);
    case CreateBlob(_, _) => CreationStartsWell(s, t, op);
    case CreateChecked(_, _) => CheckedCreationStartsWell(s, t, op);
    case Replace(_, _) => ReplacementStartsWell(s, t, op);
    case UpdateGate(_, _) => GateUpdateStartsWell(s, t, op);
    case Resolve(_) => ResolutionStartsWell(s, t, op);
    case CallService(_, _) => ServiceStartsWell(s, t, op);
    case Respond => ResponseStartsWell(s, t, op);
    case _ => ReadsStartWell(s, t, op);
  }

  // ----- the later turns -----

  ghost predicate GoodTurn(call: Call, s: Store, t: Thread, coin: Uid)
    requires ThreadTyped(s, t)
  {
    Good(call, s, t, ContinueOp(t, s, coin))
  }

  lemma EditGoesOnWell(call: Call, s: Store, t: Thread, coin: Uid)
    requires StoreTyped(s) && ThreadTyped(s, t) && Pursues(call, s, t) && Checked(t) && t.pc.Editing?
    ensures GoodTurn(call, s, t, coin)
  {
    hide ConsiderDir, CanFlowToWith, StoreTyped;
    ConsideringIsRight(s, t, t.pc.dir, t.pc.edit);
  }

  lemma MakingGoesOnWell(call: Call, s: Store, t: Thread, coin: Uid)
    requires StoreTyped(s) && ThreadTyped(s, t) && Pursues(call, s, t) && (t.pc.Reserving? || t.pc.Filling?)
    ensures GoodTurn(call, s, t, coin)
  {
    hide CanFlowToWith, Implies, StoreTyped;
  }

  lemma AppendGoesOnWell(call: Call, s: Store, t: Thread, coin: Uid)
    requires StoreTyped(s) && ThreadTyped(s, t) && Pursues(call, s, t) && t.pc.Appending?
    ensures GoodTurn(call, s, t, coin)
  {
    FindFacetIsFirst(t.pc.seen.value, t.pc.facet);
    FacetsConsidered(s, t, t.pc.faceted, t.pc.facet);
    hide ConsiderFacets, FindFacet, StoreTyped;
  }

  lemma RewriteGoesOnWell(call: Call, s: Store, t: Thread, coin: Uid)
    requires StoreTyped(s) && ThreadTyped(s, t) && Pursues(call, s, t) && t.pc.Rewriting?
    ensures GoodTurn(call, s, t, coin)
  {
    TrueIsUnit(t.privilege);
    hide CanFlowToWith, Implies, StoreTyped;
    if call.op.UpdateGate? { assert ReadGate(call, t.pc.uid, call.store[t.pc.uid].body.gate); }
  }

  lemma ReplacementGoesOnWell(call: Call, s: Store, t: Thread, coin: Uid)
    requires StoreTyped(s) && ThreadTyped(s, t) && Pursues(call, s, t) && Checked(t) && t.pc.Replacing?
    ensures GoodTurn(call, s, t, coin)
  {
    hide CanFlowToWith, Implies, StoreTyped;
    if call.op.UpdateGate? { assert ReadGate(call, t.pc.uid, call.store[t.pc.uid].body.gate); }
  }

  lemma ResolutionGoesOnWell(call: Call, s: Store, t: Thread, coin: Uid)
    requires StoreTyped(s) && ThreadTyped(s, t) && Pursues(call, s, t) && t.pc.Resolving?
    ensures GoodTurn(call, s, t, coin)
  {
    hide Implies;
  }

  lemma GoesOnWell(call: Call, s: Store, t: Thread, coin: Uid)
    requires StoreTyped(s) && ThreadTyped(s, t) && Pursues(call, s, t) && Checked(t) && Busy(t.pc)
    ensures GoodTurn(call, s, t, coin)
  {
    hide GoodTurn, StoreTyped, ThreadTyped, Pursues, Checked;
    match t.pc
    case Editing(_, _, _, _) => EditGoesOnWell(call, s, t, coin);
    case Reserving(_, _) => MakingGoesOnWell(call, s, t, coin);
    case Filling(_, _, _) => MakingGoesOnWell(call, s, t, coin);
    case Appending(_, _, _, _) => AppendGoesOnWell(call, s, t, coin);
    case Rewriting(_, _, _) => RewriteGoesOnWell(call, s, t, coin);
    case Replacing(_, _, _) => ReplacementGoesOnWell(call, s, t, coin);
    case Resolving(_, _) => ResolutionGoesOnWell(call, s, t, coin);
  }

  // ----- every run -----

  /** Whatever a thread is in the middle of, in any reachable state, is what it was asked for. */
  lemma {:induction false} RunPursues(y: Sys, schedule: seq<Turn>, i: Tid)
    requires Initial(y) && i in Run(y, schedule).threads && Busy(Run(y, schedule).threads[i].pc)
    ensures CallOf(y, schedule, i).Some?
    ensures Pursues(CallOf(y, schedule, i).value, Run(y, schedule).store, Run(y, schedule).threads[i])
  {
    assert schedule != [];
    hide TakeTurn, Pursues, StoreTyped, Evolves, Initial, Checked;
    var before, turn := schedule[..|schedule| - 1], schedule[|schedule| - 1];
    var z := Run(y, before);
    InitialIsTyped(y);
    RunTyped(y, before);
    if turn.Act? && turn.tid == i {
      if Busy(z.threads[i].pc) { RunPursues(y, before, i); }
      RunChecked(y, before);
      TurnPursues(CallOf(y, before, i), CallOf(y, schedule, i), z, turn);
    } else {
      assert i in z.threads && z.threads[i] == Run(y, schedule).threads[i] by { OthersKeep(z, turn, i); }
      RunPursues(y, before, i);
      StepTyped(z, turn);
      OthersLetPursue(CallOf(y, before, i).value, z.store, Run(y, schedule).store, z.threads[i]);
    }
  }

  lemma OthersKeep(z: Sys, turn: Turn, i: Tid)
    requires !(turn.Act? && turn.tid == i) && i in Step(z, turn).threads && Busy(Step(z, turn).threads[i].pc)
    ensures i in z.threads && z.threads[i] == Step(z, turn).threads[i]
  {
    hide TakeTurn;
  }

  lemma TurnPursues(was: Option<Call>, now: Option<Call>, z: Sys, turn: Turn)
    requires Typed(z) && AllChecked(z) && turn.Act? && turn.tid in z.threads
    requires var t := z.threads[turn.tid];
             && (Busy(t.pc) ==> was.Some? && Pursues(was.value, z.store, t))
             && now == (if t.pc.Idle? && turn.choice.Begin? then Some(Call(turn.choice.op, t, z.store)) else was)
    requires Busy(Step(z, turn).threads[turn.tid].pc)
    ensures now.Some? && Pursues(now.value, Step(z, turn).store, Step(z, turn).threads[turn.tid])
  {
    hide BeginOp, ContinueOp, Pursues, StoreTyped, ThreadTyped, Right, Checked;
    var t, c := z.threads[turn.tid], turn.choice;
    assert ThreadTyped(z.store, t) && Checked(t);
    if c.Begin? {
      if t.pc.Idle? { StartsWell(z.store, t, c.op); }
    } else if Busy(t.pc) {
      GoesOnWell(was.value, z.store, t, c.coin);
    } else {
      NothingGoesOn(z.store, t, c.coin);
    }
  }

  lemma NothingGoesOn(s: Store, t: Thread, coin: Uid)
    requires !Busy(t.pc)
    ensures ContinueOp(t, s, coin) == Effect(t, None, None)
  {
  }

  /**
   * Under every interleaving, whatever turn answers an operation answers that operation as it was asked
   * for, with the descriptors and the privilege that the thread had then.
   */
  lemma AnswersAreRight(y: Sys, schedule: seq<Turn>, turn: Turn)
    requires Initial(y) && EffectOf(Run(y, schedule), turn).Some?
    requires EffectOf(Run(y, schedule), turn).value.outcome.Some?
    ensures CallOf(y, schedule + [turn], turn.tid).Some?
    ensures var z, call := Run(y, schedule), CallOf(y, schedule + [turn], turn.tid).value;
            var t := z.threads[turn.tid];
            && StoreTyped(z.store) && ThreadTyped(z.store, t)
            && t.fds == call.thread.fds && t.nextFd == call.thread.nextFd && t.privilege == call.thread.privilege
            && Right(call, z.store, t, EffectOf(z, turn).value)
  {
    hide BeginOp, ContinueOp, StoreTyped, ThreadTyped, Right, Checked, Initial;
    var z, all := Run(y, schedule), schedule + [turn];
    var t, c := z.threads[turn.tid], turn.choice;
    assert all[..|all| - 1] == schedule;
    InitialIsTyped(y);
    RunTyped(y, schedule);
    RunChecked(y, schedule);
    assert ThreadTyped(z.store, t) && Checked(t);
    if c.Begin? {
      StartsWell(z.store, t, c.op);
    } else if Busy(t.pc) {
      RunPursues(y, schedule, turn.tid);
      GoesOnWell(CallOf(y, schedule, turn.tid).value, z.store, t, c.coin);
    } else {
      NothingGoesOn(z.store, t, c.coin);
    }
  }

  // ----- read off for some operations -----

  /** The call that the turn answers. */
  function Asked(y: Sys, schedule: seq<Turn>, turn: Turn): Option<Op> {
    var call := CallOf(y, schedule + [turn], turn.tid);
    if call.Some? then Some(call.value.op) else None
  }

  function AnswerAt(y: Sys, schedule: seq<Turn>, turn: Turn): Option<Outcome> {
    var e := EffectOf(Run(y, schedule), turn);
    if e.Some? then e.value.outcome else None
  }

  /** The edit that answers a `link` or an `unlink` is the one that was asked for, of that directory. */
  lemma EditsAreRequested(y: Sys, schedule: seq<Turn>, turn: Turn, dir: Uid, e: Edit, ok: bool)
    requires Initial(y) && AnswerAt(y, schedule, turn) == Some(Edited(dir, e, ok))
    ensures CallOf(y, schedule + [turn], turn.tid).Some?
    ensures var call := CallOf(y, schedule + [turn], turn.tid).value;
            match call.op
            case Link(fd, name, target) =>
              && fd in call.thread.fds && call.thread.fds[fd] == DirEntry(KDirectory, dir)
              && target in call.thread.fds && e == Insert(name, call.thread.fds[target])
            case Unlink(fd, name) =>
              fd in call.thread.fds && call.thread.fds[fd] == DirEntry(KDirectory, dir) && e == Remove(name)
            case _ => false
  {
    AnswersAreRight(y, schedule, turn);
    var z, call := Run(y, schedule), CallOf(y, schedule + [turn], turn.tid).value;
    OnlyEditsEdit(call, z.store, z.threads[turn.tid], EffectOf(z, turn).value);
    hide TakeTurn, StoreTyped, CanFlowToWith;
  }

  /** Only `link` and `unlink` answer with an edit. */
  lemma OnlyEditsEdit(call: Call, s: Store, t: Thread, f: Effect)
    requires ThreadTyped(s, t) && Right(call, s, t, f) && f.outcome.Some? && f.outcome.value.Edited?
    ensures call.op.Link? || call.op.Unlink?
  {
    hide CanFlowTo, CanFlowToWith, Implies, IsDrafted, IsPatched, IsEmpty, ThreadTyped;
  }

  lemma CallsNeedClearance(s: Store, t: Thread, fd: nat, reply: Option<seq<Byte>>)
    requires StoreTyped(s) && ThreadTyped(s, t) && t.pc.Idle?
    ensures var answer := BeginOp(t, s, CallService(fd, reply)).outcome;
            && (Holds(t, fd, KService) ==> RefOk(s, t.fds[fd]))
            && answer.Some? && (answer.value.Called? ==> answer == Some(Called(reply)))
            && (answer.value.Called? <==>
                  Holds(t, fd, KService) && Implies(t.privilege, s[t.fds[fd].uid].body.service.clearance))
  {
    hide Implies, CanFlowTo, CanFlowToWith, Lub, Downgrade, StoreTyped;
  }

  /** A service is called exactly when the privilege meets the clearance that the service then has. */
  lemma ServicesNeedClearance(y: Sys, schedule: seq<Turn>, i: Tid, fd: nat, reply: Option<seq<Byte>>)
    requires Initial(y) && i in Run(y, schedule).threads && Run(y, schedule).threads[i].pc.Idle?
    ensures var z, turn := Run(y, schedule), Act(i, Begin(CallService(fd, reply)));
            var t, answer := z.threads[i], AnswerAt(y, schedule, turn);
            && (Holds(t, fd, KService) ==> RefOk(z.store, t.fds[fd]))
            && answer.Some? && (answer.value.Called? ==> answer == Some(Called(reply)))
            && (answer.value.Called? <==>
                  Holds(t, fd, KService) && Implies(t.privilege, z.store[t.fds[fd].uid].body.service.clearance))
  {
    InitialIsTyped(y);
    RunTyped(y, schedule);
    var z := Run(y, schedule);
    assert ThreadTyped(z.store, z.threads[i]);
    CallsNeedClearance(z.store, z.threads[i], fd, reply);
    hide StoreTyped, Implies, BeginOp, CanFlowTo, CanFlowToWith, Pursues, Typed, ThreadTyped;
  }

  /** A read answers the object that the descriptor's cell then holds. */
  lemma ReadsAnswerWhatIsStored(y: Sys, schedule: seq<Turn>, i: Tid, fd: nat)
    requires Initial(y) && i in Run(y, schedule).threads && Run(y, schedule).threads[i].pc.Idle?
    ensures var z := Run(y, schedule);
            var t, answer := z.threads[i], AnswerAt(y, schedule, Act(i, Begin(Read(fd))));
            if fd !in t.fds || t.fds[fd].kind.KFaceted? then answer == Some(Failed)
            else RefOk(z.store, t.fds[fd]) && answer == Some(Contents(z.store[t.fds[fd].uid].body))
  {
    InitialIsTyped(y);
    RunTyped(y, schedule);
    var z := Run(y, schedule);
    assert ThreadTyped(z.store, z.threads[i]);
    ReadsStartWell(z.store, z.threads[i], Read(fd));
    hide StoreTyped;
  }

  /** From turn `a` on nobody writes the cell. */
  ghost predicate Unwritten(y: Sys, schedule: seq<Turn>, u: Uid, a: nat) {
    |schedule| > a ==>
      var before, turn := schedule[..|schedule| - 1], schedule[|schedule| - 1];
      var e := EffectOf(Run(y, before), turn);
      Unwritten(y, before, u, a) && !(e.Some? && e.value.write.Some? && e.value.write.value.uid == u)
  }

  lemma {:induction false} UnwrittenStays(y: Sys, schedule: seq<Turn>, u: Uid, a: nat)
    requires a <= |schedule| && Unwritten(y, schedule, u, a)
    ensures Lookup(Run(y, schedule).store, u) == Lookup(Run(y, schedule[..a]).store, u)
  {
    if a == |schedule| {
      assert schedule[..a] == schedule;
    } else {
      var before := schedule[..|schedule| - 1];
      assert before[..a] == schedule[..a];
      UnwrittenStays(y, before, u, a);
      hide TakeTurn;
    }
  }

  /** The turn that answers an update leaves the new contents in the cell. */
  lemma UpdateIsStored(y: Sys, schedule: seq<Turn>, turn: Turn, fd: nat, d: Draft)
    requires Initial(y) && Asked(y, schedule, turn) == Some(Replace(fd, d))
    requires AnswerAt(y, schedule, turn) == Some(Stored)
    ensures var z, z' := Run(y, schedule), Run(y, schedule + [turn]);
            var t := z.threads[turn.tid];
            && fd in t.fds && t.fds[fd].uid in z.store && z.store[t.fds[fd].uid].Labeled?
            && t.fds[fd].uid in z'.store && z'.store[t.fds[fd].uid].Labeled?
            && z'.store[t.fds[fd].uid].tag == z.store[t.fds[fd].uid].tag
            && IsDrafted(t, d, z'.store[t.fds[fd].uid].body)
  {
    hide TakeTurn, StoreTyped, IsDrafted, Initial, ThreadTyped, CanFlowToWith, Covers, CallOf;
    AnswersAreRight(y, schedule, turn);
    assert (schedule + [turn])[..|schedule|] == schedule;
  }

  /** The same for a gate: what was not given is as it was read at the first turn. */
  lemma GateUpdateIsStored(y: Sys, schedule: seq<Turn>, turn: Turn, fd: nat, p: Patch)
    requires Initial(y) && Asked(y, schedule, turn) == Some(UpdateGate(fd, p))
    requires AnswerAt(y, schedule, turn) == Some(Stored)
    ensures var z, z' := Run(y, schedule), Run(y, schedule + [turn]);
            var t, call := z.threads[turn.tid], CallOf(y, schedule + [turn], turn.tid).value;
            && fd in t.fds && t.fds[fd].uid in z'.store && z'.store[t.fds[fd].uid].Labeled?
            && z'.store[t.fds[fd].uid].body.GateBody?
            && exists g :: ReadGate(call, t.fds[fd].uid, g) && IsPatched(t, g, p, z'.store[t.fds[fd].uid].body.gate)
  {
    hide TakeTurn, StoreTyped, IsPatched, Initial, ThreadTyped, CanFlowToWith, Implies, CallOf, FitsGate;
    AnswersAreRight(y, schedule, turn);
    assert (schedule + [turn])[..|schedule|] == schedule;
  }

  /**
   * What an update answered as stored is what every later read of that cell answers, by whomever and
   * through whichever descriptor, until somebody writes the cell again.
   */
  lemma WrittenIsRead(y: Sys, schedule: seq<Turn>, a: nat, fd: nat, d: Draft, i: Tid, fd': nat)
    requires Initial(y) && a < |schedule|
    requires Asked(y, schedule[..a], schedule[a]) == Some(Replace(fd, d))
    requires AnswerAt(y, schedule[..a], schedule[a]) == Some(Stored)
    requires i in Run(y, schedule).threads && Run(y, schedule).threads[i].pc.Idle?
    requires var writer, reader := Run(y, schedule[..a]).threads[schedule[a].tid], Run(y, schedule).threads[i];
             && fd' in reader.fds && fd in writer.fds && reader.fds[fd'].uid == writer.fds[fd].uid
             && Unwritten(y, schedule, writer.fds[fd].uid, a + 1)
    ensures var answer := AnswerAt(y, schedule, Act(i, Begin(Read(fd'))));
            && answer.Some? && answer.value.Contents?
            && IsDrafted(Run(y, schedule[..a]).threads[schedule[a].tid], d, answer.value.body)
  {
    hide TakeTurn, IsDrafted, Initial, Step, Unwritten, CallOf, StoreTyped;
    InitialIsTyped(y);
    RunTyped(y, schedule);
    assert RefOk(Run(y, schedule).store, Run(y, schedule).threads[i].fds[fd']);
    UpdateIsStored(y, schedule[..a], schedule[a], fd, d);
    assert schedule[..a] + [schedule[a]] == schedule[..a + 1];
    UnwrittenStays(y, schedule, Run(y, schedule[..a]).threads[schedule[a].tid].fds[fd].uid, a + 1);
    ReadsAnswerWhatIsStored(y, schedule, i, fd');
  }

  /** What a creation answered with a descriptor is in the store, at that descriptor, as it was asked for. */
  lemma CreatedIsStored(y: Sys, schedule: seq<Turn>, turn: Turn, fd: nat)
    requires Initial(y) && AnswerAt(y, schedule, turn) == Some(Opened(fd))
    requires var op := Asked(y, schedule, turn);
             op.Some? && (op.value.Create? || op.value.CreateChecked? || op.value.CreateBlob?)
    ensures var op, z, z' := Asked(y, schedule, turn).value, Run(y, schedule), Step(Run(y, schedule), turn);
            var t := z.threads[turn.tid];
            var fds' := z'.threads[turn.tid].fds;
            && fd !in t.fds && fd in fds' && fds' - {fd} == t.fds && fds'[fd].uid in z'.store
            && var c := z'.store[fds'[fd].uid];
               match op
               case Create(k, tag) => fds'[fd].kind == k && IsEmpty(c, k, tag)
               case CreateBlob(tag, name) => fds'[fd].kind == KBlob && c == Labeled(tag, Blob(name))
               case CreateChecked(tag, d) =>
                 DraftKind(d, fds'[fd].kind) && c.Labeled? && c.tag == tag && IsDrafted(t, d, c.body)
               case _ => false
  {
    hide TakeTurn, StoreTyped, IsDrafted, IsEmpty, Initial;
    AnswersAreRight(y, schedule, turn);
    var t := Run(y, schedule).threads[turn.tid];
    assert t.nextFd !in t.fds;
    assert t.fds[fd := Step(Run(y, schedule), turn).threads[turn.tid].fds[fd]] - {fd} == t.fds;
  }
}
