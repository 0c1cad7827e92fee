/**
 * The system-call server of one run, in the form the server has: fields updated in place, retry
 * loops, early returns. Between two store accesses the other threads may do anything, given here as
 * a list of store transformers. `Valid` says that everything the server has done so far is exactly
 * a play of protocol turns, so all that is proved about turns holds of the server.
 */
module Server {
  import opened Wrappers
  import opened Labels
  import opened Objects
  import opened Protocol
  import Answers

  /** What the other threads make of the store before each of the next turns of this one. */
  type Others = seq<Store -> Store>

  datatype Moment = Moment(thread: Thread, store: Store, others: Others, answer: Option<Outcome>)

  function Interfered(m: Moment): Store {
    if m.others == [] then m.store else m.others[0](m.store)
  }

  /** The cell is labelled, and this is what it holds. */
  predicate StoresAt(s: Store, u: Uid, b: Body) {
    u in s && s[u].Labeled? && s[u].body == b
  }

  function Rest(o: Others): Others {
    if o == [] then [] else o[1..]
  }

  /** One turn of the thread after one turn of interference. */
  function Beat(m: Moment, c: Choice): Moment {
    var s := Interfered(m);
    var f := TakeTurn(m.thread, s, c);
    Moment(f.thread, Written(s, f.write), Rest(m.others), f.outcome)
  }

  function Play(m: Moment, script: seq<Choice>): Moment {
    if script == [] then m else Beat(Play(m, script[..|script| - 1]), script[|script| - 1])
  }

  lemma PlaySnoc(m: Moment, script: seq<Choice>, c: Choice)
    ensures Play(m, script + [c]) == Beat(Play(m, script), c)
  {
    assert (script + [c])[..|script|] == script;
  }

  /** `after` continues `before` with the turns of one operation. */
  ghost predicate Performs(before: seq<Choice>, after: seq<Choice>, op: Op) {
    && |before| < |after| && after[..|before|] == before && after[|before|] == Begin(op)
    && forall k | |before| < k < |after| :: after[k].Continue?
  }

  /** `c` may be the next turn of an operation that began after `before`. */
  ghost predicate Next(before: seq<Choice>, script: seq<Choice>, op: Op, c: Choice) {
    (script == before && c == Begin(op)) || (Performs(before, script, op) && c.Continue?)
  }

  /** Where one step of a gate resolution leads. */
  datatype Hop =
    | Onward(target: Uid, authority: Authority)
    | Arrived(authority: Authority, code: Function)
    | Stopped

  /** What a guest may ask for: four ways of reading an object, and the operations as they are. */
  datatype Syscall =
    | DoesRead(fd: nat)
    | DoesList(fd: nat)
    | DoesLsGate(fd: nat)
    | DoesGetBlob(fd: nat)
    | Does(op: Op)
  {
    function Wants(): Kind
      requires !Does?
    {
      match this
      case DoesRead(_) => KFile
      case DoesList(_) => KDirectory
      case DoesLsGate(_) => KGate
      case DoesGetBlob(_) => KBlob
    }

    function Operation(): Op {
      if Does? then op else Read(fd)
    }
  }

  /** The descriptors of the blobs that hold a function's images. */
  datatype Images = Images(app: nat, runtime: nat, kernel: nat)

  /** A direct gate with exactly these parts. */
  predicate IsDirect(b: Body, gives: Authority, memory: nat, app: string, runtime: string, kernel: string) {
    && b.GateBody? && b.gate.Direct? && b.gate.privilege == gives.privilege && b.gate.clearance == gives.clearance
    && b.gate.declassify == gives.declassify && b.gate.code.memory == memory && b.gate.code.appImage == app
    && b.gate.code.runtimeImage == runtime && b.gate.code.kernel == kernel
  }

  function DirectDraft(gives: Authority, code: Function): Draft {
    DraftDirect(gives.privilege, gives.clearance, gives.declassify, code)
  }

  function ImageReads(images: Images): seq<Choice> {
    [Begin(Read(images.app))] + [Begin(Read(images.runtime))] + [Begin(Read(images.kernel))]
  }

  /** The three reads after `script` answered these names. */
  ghost predicate NamesRead(m: Moment, script: seq<Choice>, images: Images, a: string, r: string, k: string) {
    var s1 := script + [Begin(Read(images.app))];
    var s2 := s1 + [Begin(Read(images.runtime))];
    && Play(m, s1).answer == Some(Contents(Blob(a)))
    && Play(m, s2).answer == Some(Contents(Blob(r)))
    && Play(m, s2 + [Begin(Read(images.kernel))]).answer == Some(Contents(Blob(k)))
  }

  class SyscallProcessor {
    var store: Store
    var current: Label
    var privilege: Component
    var dents: map<nat, DirEntry>
    var maxDentId: nat
    var others: Others
    /** The random numbers still to be drawn for new uids. */
    var coins: seq<Uid>

    ghost var pc: PC
    ghost var answer: Option<Outcome>
    ghost var start: Moment
    ghost var script: seq<Choice>
    ghost var begun: Moment

    ghost function Self(): Thread
      reads this
    {
      Thread(current, privilege, dents, maxDentId, pc)
    }

    ghost function Now(): Moment
      reads this
    {
      Moment(Self(), store, others, answer)
    }

    /** Between two turns: the server is where the play of its script is. */
    ghost predicate Valid()
      reads this
    {
      Play(start, script) == Now()
    }

    /** Inside a turn: the other threads have moved, and the turn is still to be recorded. */
    ghost predicate Open()
      reads this
    {
      && Play(start, script) == begun
      && others == Rest(begun.others)
    }

    /** `clear_label`, `taint_with_label`, `set_my_privilge`, and the root as descriptor 0. */
    constructor (store: Store, tag: Label, privilege: Component, others: Others, coins: seq<Uid>)
      ensures Valid() && script == [] && pc.Idle?
      ensures start == Moment(Start(tag, privilege), store, others, None)
      ensures this.coins == coins
    {
      this.store := store;
      this.current := Lub(PUBLIC, tag);
      this.privilege := privilege;
      this.dents := map[0 := DirEntry(KDirectory, ROOT)];
      this.maxDentId := 1;
      this.others := others;
      this.coins := coins;
      pc := Idle;
      answer := None;
      script := [];
      start := Moment(Start(tag, privilege), store, others, None);
      begun := Moment(Start(tag, privilege), store, others, None);
    }

    /** Other threads run, and the turn begins. */
    method Pause()
      requires Valid()
      modifies this`store, this`others, this`begun
      ensures Open() && begun == old(Now()) && store == Interfered(begun)
    {
      hide Play, Performs;
      begun := Now();
      if others != [] {
        store := others[0](store);
        others := others[1..];
      }
    }

    ghost method Record(before: seq<Choice>, op: Op, c: Choice)
      requires Open() && Beat(begun, c) == Now() && Next(before, script, op, c)
      modifies this`script
      ensures Valid() && Performs(before, script, op) && script == old(script) + [c]
    {
      PlaySnoc(start, script, c);
      assert (script + [c])[..|before|] == before;
      script := script + [c];
    }

    // ----- directories -----

    /** One pass over the directory value read last: raise the label, check, and work out the change. */
    method Propose(dir: Uid, e: Edit, prev: Cell, ghost c: Choice, ghost before: seq<Choice>, ghost op: Op)
      returns (verdict: Verdict)
      requires Open() && store == Interfered(begun) && Next(before, script, op, c) && Fits(prev, KDirectory)
      requires TakeTurn(begun.thread, store, c) == ConsiderDir(Self(), dir, e, Some(prev))
      modifies this`current, this`pc, this`answer, this`script
      ensures Valid() && Performs(before, script, op) && |script| == |old(script)| + 1
      ensures verdict == Consider(prev, e, old(current), privilege)
      ensures pc == if verdict.Proposed? then Editing(dir, e, prev, verdict.cell) else Idle
      ensures answer == match verdict
                        case Denied => Some(Refused)
                        case Unchanged => Some(Edited(dir, e, false))
                        case Proposed(_) => None
    {
      hide Play, Performs;
      verdict := Consider(prev, e, current, privilege);
      current := Raise(prev.tag, current);
      match verdict {
        case Denied => pc, answer := Idle, Some(Refused);
        case Unchanged => pc, answer := Idle, Some(Edited(dir, e, false));
        case Proposed(cell) => pc, answer := Editing(dir, e, prev, cell), None;
      }
      Record(before, op, c);
    }

    /** One cas; when it fails, the value found is the next one to consider. */
    method Swap(dir: Uid, e: Edit, prev: Cell, cell: Cell, ghost before: seq<Choice>, ghost op: Op)
      returns (again: Option<Cell>)
      requires Valid() && pc == Editing(dir, e, prev, cell) && Performs(before, script, op)
      modifies this`store, this`others, this`begun, this`pc, this`answer, this`script
      ensures again.None? ==>
                Valid() && Performs(before, script, op) && pc == Idle && answer == Some(Edited(dir, e, true))
      ensures again.Some? ==>
                && Open() && store == Interfered(begun) && Performs(before, script, op)
                && Fits(again.value, KDirectory) && Lookup(store, dir) == again && again != Some(prev)
                && TakeTurn(begun.thread, store, Continue(0)) == ConsiderDir(Self(), dir, e, again)
                && store == Interfered(begun) && begun == old(Now()) && script == old(script)
      ensures again.Some? && old(Lookup(store, dir)) == Some(prev) ==> |others| < |old(others)|
      ensures again.None? ==> |script| == |old(script)| + 1 && |others| <= |old(others)|
    {
      hide Play, Performs;
      Pause();
      var found := Lookup(store, dir);
      if found == Some(prev) {
        store := store[dir := cell];
      } else if Decodes(found, KDirectory) {
        return found;
      }
      again := None;
      pc, answer := Idle, Some(Edited(dir, e, true));
      Record(before, op, Continue(0));
    }

    /**
     * The retry loop of `link` and `unlink`. The first `get` has been done; each pass considers the
     * value read last and tries one cas. A pass fails only if other threads moved, so it ends.
     */
    method EditDirectory(dir: Uid, e: Edit, first: Option<Cell>, ghost before: seq<Choice>, ghost op: Op)
      returns (refused: bool, done: bool)
      requires Open() && store == Interfered(begun) && script == before && first == Lookup(store, dir)
      requires TakeTurn(begun.thread, store, Begin(op)) == ConsiderDir(Self(), dir, e, first)
      modifies this
      ensures Valid() && start == old(start) && coins == old(coins) && Performs(before, script, op)
      ensures pc.Idle? || pc.Panicked?
      ensures pc.Idle? ==> answer == if refused then Some(Refused) else Some(Edited(dir, e, done))
      ensures pc.Panicked? ==> refused
    {
      hide Play, Performs, TakeTurn;
      if !Decodes(first, KDirectory) {
        pc, answer := Panicked, None;
        Record(before, op, Begin(op));
        return true, false;
      }
      refused, done := EditLoop(dir, e, first.value, before, op);
    }

    method EditLoop(dir: Uid, e: Edit, first: Cell, ghost before: seq<Choice>, ghost op: Op)
      returns (refused: bool, done: bool)
      requires Open() && store == Interfered(begun) && script == before
      requires Lookup(store, dir) == Some(first) && Fits(first, KDirectory)
      requires TakeTurn(begun.thread, store, Begin(op)) == ConsiderDir(Self(), dir, e, Some(first))
      modifies this
      ensures Valid() && start == old(start) && coins == old(coins) && Performs(before, script, op)
      ensures pc.Idle? && answer == if refused then Some(Refused) else Some(Edited(dir, e, done))
      // One pass, and at most one more for each time that other threads moved.
      ensures |script| + |others| <= |before| + |old(others)| + 2
    {
      hide Play, Performs, TakeTurn, ConsiderDir;
      ghost var c := Begin(op);
      var prev := first;
      while true
        invariant Open() && store == Interfered(begun) && start == old(start) && coins == old(coins)
        invariant Fits(prev, KDirectory) && Lookup(store, dir) == Some(prev) && Next(before, script, op, c)
        invariant TakeTurn(begun.thread, store, c) == ConsiderDir(Self(), dir, e, Some(prev))
        invariant |script| + |others| <= |before| + |old(others)|
        decreases |others|
      {
        var verdict := Propose(dir, e, prev, c, before, op);
        if !verdict.Proposed? {
          return verdict.Denied?, false;
        }
        var again := Swap(dir, e, prev, verdict.cell, before, op);
        if again.None? {
          return false, true;
        }
        c, prev := Continue(0), again.value;
      }
    }

    method DentLink(fd: nat, name: string, target: nat) returns (success: bool)
      requires Valid() && pc.Idle?
      modifies this
      ensures Valid() && start == old(start) && Performs(old(script), script, Link(fd, name, target))
      ensures pc.Idle? || pc.Panicked?
      // The answer is a success even when the name was taken; only a refusal or a bad descriptor is not.
      ensures pc.Idle? ==> answer.Some? && success == answer.value.Edited?
      ensures pc.Idle? && success ==>
                && fd in old(dents) && target in old(dents) && old(dents)[fd].kind.KDirectory?
                && answer.value.dir == old(dents)[fd].uid && answer.value.edit == Insert(name, old(dents)[target])
    {
      hide Play, Performs;
      ghost var before, op := script, Link(fd, name, target);
      Pause();
      if fd in dents && target in dents && dents[fd].kind.KDirectory? {
        var dir, edit := dents[fd].uid, Insert(name, dents[target]);
        var refused, done := EditDirectory(dir, edit, Lookup(store, dir), before, op);
        return !refused;
      }
      answer := Some(Failed);
      Record(before, op, Begin(op));
      success := false;
    }

    method DentUnlink(fd: nat, name: string) returns (success: bool)
      requires Valid() && pc.Idle?
      modifies this
      ensures Valid() && start == old(start) && Performs(old(script), script, Unlink(fd, name))
      ensures pc.Idle? || pc.Panicked?
      ensures pc.Idle? ==> answer.Some? && success == (answer.value.Edited? && answer.value.ok)
      ensures pc.Idle? && answer.value.Edited? ==>
                && fd in old(dents) && old(dents)[fd].kind.KDirectory?
                && answer.value.dir == old(dents)[fd].uid && answer.value.edit == Remove(name)
    {
      hide Play, Performs;
      ghost var before, op := script, Unlink(fd, name);
      Pause();
      if fd in dents && dents[fd].kind.KDirectory? {
        var refused, done := EditDirectory(dents[fd].uid, Remove(name), Lookup(store, dents[fd].uid), before, op);
        return !refused && done;
      }
      answer := Some(Failed);
      Record(before, op, Begin(op));
      success := false;
    }

    // ----- opening and reading -----

    method AddDent(e: DirEntry) returns (fd: nat)
      modifies this`dents, this`maxDentId
      ensures fd == old(maxDentId) && maxDentId == old(maxDentId) + 1 && dents == old(dents)[fd := e]
    {
      hide Play, Performs;
      fd := maxDentId;
      dents := dents[maxDentId := e];
      maxDentId := maxDentId + 1;
    }

    method DentOpenName(fd: nat, name: string) returns (got: Option<nat>)
      requires Valid() && pc.Idle?
      modifies this
      ensures Valid() && start == old(start) && script == old(script) + [Begin(OpenName(fd, name))]
      ensures pc.Idle? || pc.Panicked?
      ensures pc.Idle? ==> answer == if got.Some? then Some(Opened(got.value)) else Some(Failed)
      ensures got.Some? ==>
                && fd in old(dents) && Decodes(Lookup(store, old(dents)[fd].uid), KDirectory)
                && name in store[old(dents)[fd].uid].body.entries
                && dents == old(dents)[got.value := store[old(dents)[fd].uid].body.entries[name]]
    {
      hide Play, Performs, TakeTurn;
      ghost var before, op := script, OpenName(fd, name);
      Pause();
      OpenNameTurn(begun.thread, store, fd, name);
      got, answer := None, Some(Failed);
      if fd in dents && dents[fd].kind.KDirectory? {
        var found := Lookup(store, dents[fd].uid);
        if !Decodes(found, KDirectory) {
          pc, answer := Panicked, None;
        } else {
          current := Raise(found.value.tag, current);
          if name in found.value.body.entries {
            var id := AddDent(found.value.body.entries[name]);
            got, answer := Some(id), Some(Opened(id));
          }
        }
      }
      Record(before, op, Begin(op));
    }

    /** `get(..).unwrap().unlabel()`: reads any labelled object and raises the label. */
    method Unlabel(fd: nat) returns (body: Option<Body>)
      requires Valid() && pc.Idle?
      modifies this
      ensures Valid() && start == old(start) && coins == old(coins) && script == old(script) + [Begin(Read(fd))]
      ensures dents == old(dents) && maxDentId == old(maxDentId) && privilege == old(privilege)
      ensures if pc.Panicked? then body == None
              else pc == Idle && answer == if body.Some? then Some(Contents(body.value)) else Some(Failed)
      ensures store == Interfered(old(Now()))
      ensures body.Some? ==> fd in dents && BodyKind(body.value) == dents[fd].kind
      ensures body.Some? ==> StoresAt(store, dents[fd].uid, body.value)
    {
      hide Play, Performs;
      ghost var before, op := script, Read(fd);
      Pause();
      body, answer := None, Some(Failed);
      if fd in dents && !dents[fd].kind.KFaceted? {
        var found := Lookup(store, dents[fd].uid);
        if !Decodes(found, dents[fd].kind) {
          pc, answer := Panicked, None;
        } else {
          current := Raise(found.value.tag, current);
          body, answer := Some(found.value.body), Some(Contents(found.value.body));
        }
      }
      Record(before, op, Begin(op));
    }

    method DentRead(fd: nat) returns (data: Option<seq<Byte>>)
      requires Valid() && pc.Idle?
      modifies this
      ensures Valid() && start == old(start) && (pc.Idle? || pc.Panicked?)
      ensures script == old(script) + if fd in old(dents) && old(dents)[fd].kind.KFile? then [Begin(Read(fd))] else []
      ensures data.Some? ==> answer == Some(Contents(File(data.value)))
      ensures data.Some? ==>
                && fd in old(dents) && store == Interfered(old(Now()))
                && StoresAt(store, old(dents)[fd].uid, File(data.value))
      ensures data.None? ==> pc.Panicked? || fd !in old(dents) || !old(dents)[fd].kind.KFile?
    {
      data := None;
      if fd in dents && dents[fd].kind.KFile? {
        var body := Unlabel(fd);
        if body.Some? { data := Some(body.value.bytes); }
      }
    }

    /** Lists names and kinds; anything but a directory lists as empty. */
    method DentList(fd: nat) returns (kinds: map<string, Kind>)
      requires Valid() && pc.Idle?
      modifies this
      ensures Valid() && start == old(start) && (pc.Idle? || pc.Panicked?)
      ensures script == old(script)
                        + if fd in old(dents) && old(dents)[fd].kind.KDirectory? then [Begin(Read(fd))] else []
      ensures pc.Idle? && fd in old(dents) && old(dents)[fd].kind.KDirectory? ==>
                && answer.Some? && answer.value.Contents? && answer.value.body.Directory?
                && kinds.Keys == answer.value.body.entries.Keys
                && (forall n | n in kinds :: kinds[n] == answer.value.body.entries[n].kind)
                && store == Interfered(old(Now())) && StoresAt(store, old(dents)[fd].uid, answer.value.body)
      ensures fd !in old(dents) || !old(dents)[fd].kind.KDirectory? ==> kinds == map[]
    {
      kinds := map[];
      if fd in dents && dents[fd].kind.KDirectory? {
        var body := Unlabel(fd);
        if body.Some? { kinds := map n | n in body.value.entries :: body.value.entries[n].kind; }
      }
    }

    /** The gate as it is stored; `dent_ls_gate` opens its images besides. */
    method DentLsGate(fd: nat) returns (gate: Option<Gate>)
      requires Valid() && pc.Idle?
      modifies this
      ensures Valid() && start == old(start) && (pc.Idle? || pc.Panicked?)
      ensures script == old(script) + if fd in old(dents) && old(dents)[fd].kind.KGate? then [Begin(Read(fd))] else []
      ensures gate.Some? ==> answer == Some(Contents(GateBody(gate.value)))
      ensures gate.Some? ==>
                && fd in old(dents) && store == Interfered(old(Now()))
                && StoresAt(store, old(dents)[fd].uid, GateBody(gate.value))
      ensures gate.None? ==> pc.Panicked? || fd !in old(dents) || !old(dents)[fd].kind.KGate?
    {
      gate := None;
      if fd in dents && dents[fd].kind.KGate? {
        var body := Unlabel(fd);
        if body.Some? { gate := Some(body.value.gate); }
      }
    }

    /** The name of the blob; `dent_get_blob` opens it besides. */
    method DentGetBlob(fd: nat) returns (name: Option<string>)
      requires Valid() && pc.Idle?
      modifies this
      ensures Valid() && start == old(start) && (pc.Idle? || pc.Panicked?)
      ensures script == old(script) + if fd in old(dents) && old(dents)[fd].kind.KBlob? then [Begin(Read(fd))] else []
      ensures dents == old(dents)
      ensures name.Some? ==> pc.Idle? && answer == Some(Contents(Blob(name.value)))
      ensures name.Some? ==>
                && fd in old(dents) && store == Interfered(old(Now()))
                && StoresAt(store, old(dents)[fd].uid, Blob(name.value))
      ensures name.None? ==> pc.Panicked? || fd !in old(dents) || !old(dents)[fd].kind.KBlob?
    {
      name := None;
      if fd in dents && dents[fd].kind.KBlob? {
        var body := Unlabel(fd);
        if body.Some? { name := Some(body.value.name); }
      }
    }

    method DentListFaceted(fd: nat, clearance: Label) returns (facets: Option<seq<Facet>>)
      requires Valid() && pc.Idle?
      modifies this
      ensures Valid() && start == old(start) && script == old(script) + [Begin(ListFacets(fd, clearance))]
      ensures if pc.Panicked? then facets == None
              else pc == Idle && answer == if facets.Some? then Some(FacetList(facets.value)) else Some(Failed)
    {
      hide Play, Performs;
      ghost var before, op := script, ListFacets(fd, clearance);
      Pause();
      facets, answer := None, Some(Failed);
      if fd in dents && dents[fd].kind.KFaceted? {
        var found := Lookup(store, dents[fd].uid);
        if !Decodes(found, KFaceted) {
          pc, answer := Panicked, None;
        } else {
          current := Lub(current, clearance);
          facets := Some(Visible(found.value.facets, clearance));
          answer := Some(FacetList(facets.value));
        }
      }
      Record(before, op, Begin(op));
    }

    method DentClose(fd: nat)
      requires Valid() && pc.Idle?
      modifies this
      ensures Valid() && start == old(start) && script == old(script) + [Begin(Close(fd))] && pc.Idle?
    {
      hide Play, Performs;
      ghost var before, op := script, Close(fd);
      Pause();
      dents := dents - {fd};
      answer := Some(Stored);
      Record(before, op, Begin(op));
    }

    // ----- creating -----

    /** One draw: `add` succeeds exactly when the uid is not taken. */
    method Draw(cell: Cell, goal: Goal, ghost before: seq<Choice>, ghost op: Op) returns (reserved: Option<Uid>)
      requires Valid() && pc == Reserving(cell, goal) && Performs(before, script, op) && coins != []
      modifies this`store, this`others, this`begun, this`pc, this`answer, this`script, this`coins
      ensures Valid() && Performs(before, script, op) && coins == old(coins)[1..]
      ensures pc == if reserved.Some? then Filling(reserved.value, cell, goal) else Reserving(cell, goal)
    {
      hide Play, Performs;
      Pause();
      var uid := coins[0];
      coins := coins[1..];
      answer, reserved := None, None;
      if uid !in store {
        store := store[uid := Reserved];
        pc, reserved := Filling(uid, cell, goal), Some(uid);
      }
      Record(before, op, Continue(uid));
    }

    /**
     * Draws random uids until one is free, and reserves it. `None` while the drawn numbers do not
     * suffice: the loop is then still drawing.
     */
    method SetNewId(cell: Cell, goal: Goal, ghost before: seq<Choice>, ghost op: Op) returns (made: Option<Uid>)
      requires Valid() && pc == Reserving(cell, goal) && Performs(before, script, op)
      modifies this`store, this`others, this`begun, this`pc, this`answer, this`script, this`coins
      ensures Valid() && Performs(before, script, op)
      ensures if made.Some? then pc == Filling(made.value, cell, goal) && |coins| < |old(coins)|
              else pc == Reserving(cell, goal) && coins == []
    {
      hide Play, Performs;
      made := None;
      while coins != []
        invariant Valid() && pc == Reserving(cell, goal) && Performs(before, script, op) && |coins| <= |old(coins)|
        decreases |coins|
      {
        made := Draw(cell, goal, before, op);
        if made.Some? { return; }
      }
      made := None;
    }

    /** Puts the object at its reserved uid and opens a descriptor for it. */
    method PutAndPublish(uid: Uid, cell: Cell, kind: Kind, ghost before: seq<Choice>, ghost op: Op) returns (fd: nat)
      requires Valid() && pc == Filling(uid, cell, Publish(kind)) && Performs(before, script, op)
      modifies this`store, this`others, this`begun, this`dents, this`maxDentId, this`pc, this`answer, this`script
      ensures Valid() && Performs(before, script, op)
      ensures pc == Idle && answer == Some(Opened(fd)) && dents == old(dents)[fd := DirEntry(kind, uid)]
      ensures uid in store && store[uid] == cell
    {
      hide Play, Performs;
      Pause();
      store := store[uid := cell];
      fd := AddDent(DirEntry(kind, uid));
      pc, answer := Idle, Some(Opened(fd));
      Record(before, op, Continue(0));
    }

    /** One descriptor of this kind is new, and its object is in the store. */
    ghost predicate Publishes(was: map<nat, DirEntry>, fd: nat, kind: Kind)
      reads this
    {
      && fd in dents && dents == was[fd := dents[fd]] && dents[fd].kind == kind
      && dents[fd].uid in store
    }

    method Make(cell: Cell, kind: Kind, ghost before: seq<Choice>, ghost op: Op) returns (fd: Option<nat>)
      requires Open() && store == Interfered(begun) && script == before && pc.Idle?
      requires TakeTurn(begun.thread, store, Begin(op)) == Go(Self(), Reserving(cell, Publish(kind)))
      modifies this
      ensures Valid() && start == old(start) && Performs(before, script, op)
      ensures if fd.Some? then pc == Idle && answer == Some(Opened(fd.value))
              else pc == Reserving(cell, Publish(kind)) && coins == []
      ensures fd.Some? ==> Publishes(old(dents), fd.value, kind) && store[dents[fd.value].uid] == cell
    {
      hide Play, Performs, TakeTurn;
      pc, answer := Reserving(cell, Publish(kind)), None;
      Record(before, op, Begin(op));
      var made := SetNewId(cell, Publish(kind), before, op);
      if made.None? { return None; }
      var id := PutAndPublish(made.value, cell, kind, before, op);
      fd := Some(id);
    }

    method DentCreate(kind: Kind, tag: Label) returns (fd: Option<nat>)
      requires Valid() && pc.Idle?
      modifies this
      ensures Valid() && start == old(start) && Performs(old(script), script, Create(kind, tag))
      ensures fd.Some? ==> pc == Idle && answer == Some(Opened(fd.value))
      ensures fd.Some? ==>
                Publishes(old(dents), fd.value, kind) && Answers.IsEmpty(store[dents[fd.value].uid], kind, tag)
      ensures fd.None? ==> (pc.Idle? && answer == Some(Failed)) || (pc.Reserving? && coins == [])
    {
      hide Play, Performs;
      ghost var before, op := script, Create(kind, tag);
      Pause();
      if kind.KGate? || kind.KService? || kind.KBlob? {
        answer := Some(Failed);
        Record(before, op, Begin(op));
        return None;
      }
      fd := Make(if kind.KFaceted? then Facets([]) else Labeled(tag, DefaultBody(kind)), kind, before, op);
    }

    /** `create_blob`: an empty blob is made, then overwritten after a flow check, and only then published. */
    method DentCreateBlob(tag: Label, name: string) returns (fd: Option<nat>)
      requires Valid() && pc.Idle?
      modifies this
      ensures Valid() && start == old(start) && Performs(old(script), script, CreateBlob(tag, name))
      ensures fd.Some? ==>
                && pc == Idle && answer == Some(Opened(fd.value))
                && Publishes(old(dents), fd.value, KBlob) && StoresAt(store, dents[fd.value].uid, Blob(name))
      ensures fd.None? ==> pc.Panicked? || (pc.Idle? && answer == Some(Refused)) || (pc.Reserving? && coins == [])
    {
      hide Play, Performs, RewriteAt, TakeTurn;
      ghost var before, op := script, CreateBlob(tag, name);
      var made := MakeEmptyBlob(tag, name, before, op);
      fd := None;
      if made.Some? {
        Pause();
        RewritesOn(begun.thread, store);
        var cell := Rewrite(made.value, Blob(name), true, Continue(0), before, op);
        if cell.Some? { fd := PutReplacement(made.value, cell.value, true, before, op); }
      }
    }

    method MakeEmptyBlob(tag: Label, name: string, ghost before: seq<Choice>, ghost op: Op) returns (made: Option<Uid>)
      requires Valid() && pc.Idle? && script == before && op == CreateBlob(tag, name)
      modifies this`store, this`others, this`begun, this`pc, this`answer, this`script, this`coins
      ensures Valid() && Performs(before, script, op)
      ensures made.Some? ==> pc == Rewriting(made.value, Blob(name), true)
      ensures made.None? ==> pc.Reserving? && coins == []
    {
      hide Play, Performs, TakeTurn;
      var cell := Labeled(tag, Blob(""));
      Pause();
      CreateBlobTurn(begun.thread, store, tag, name);
      pc, answer := Reserving(cell, ForBlob(name)), None;
      Record(before, op, Begin(op));
      made := SetNewId(cell, ForBlob(name), before, op);
      if made.Some? {
        Pause();
        FillBlobTurn(begun.thread, store);
        store := store[made.value := cell];
        pc, answer := Rewriting(made.value, Blob(name), true), None;
        Record(before, op, Continue(0));
      }
    }

    /** `create_direct_gate`, `create_redirect_gate` and `create_service`: checked before the object is made. */
    method DentCreateChecked(tag: Label, draft: Draft) returns (fd: Option<nat>)
      requires Valid() && pc.Idle?
      modifies this
      ensures Valid() && start == old(start) && Performs(old(script), script, CreateChecked(tag, draft))
      ensures fd.Some? ==> pc == Idle && answer == Some(Opened(fd.value))
      ensures fd.Some? ==>
                && Publishes(old(dents), fd.value, if draft.DraftService? then KService else KGate)
                && store[dents[fd.value].uid].Labeled? && store[dents[fd.value].uid].tag == tag
                && Answers.IsDrafted(old(Self()), draft, store[dents[fd.value].uid].body)
      ensures fd.None? ==> (pc.Idle? && answer in {Some(Failed), Some(Refused)}) || (pc.Reserving? && coins == [])
    {
      hide Play, Performs;
      ghost var before, op := script, CreateChecked(tag, draft);
      Pause();
      var b := Compose(dents, draft);
      if b.None? || !(b.value.GateBody? || b.value.ServiceBody?) {
        answer := Some(Failed);
      } else if !CanFlowToWith(current, tag, privilege) || !MayDelegate(privilege, b.value) {
        answer := Some(Refused);
      } else {
        fd := Make(Labeled(tag, b.value), BodyKind(b.value), before, op);
        return;
      }
      Record(before, op, Begin(op));
      fd := None;
    }

    ghost predicate IsBlob(fd: nat)
      reads this
    {
      fd in dents && dents[fd].kind.KBlob?
    }

    /**
     * `dent_create` of a direct gate: the descriptors of its images are checked, the three blobs are
     * read, and then the gate is created with the names that were read.
     */
    method DentCreateDirectGate(tag: Label, gives: Authority, memory: nat, images: Images) returns (fd: Option<nat>)
      requires Valid() && pc.Idle?
      modifies this
      ensures Valid() && start == old(start)
      ensures !old(IsBlob(images.app) && IsBlob(images.runtime) && IsBlob(images.kernel)) ==>
                script == old(script) && fd == None
      ensures fd.Some? ==> pc == Idle && answer == Some(Opened(fd.value))
      ensures old(IsBlob(images.app) && IsBlob(images.runtime) && IsBlob(images.kernel)) && !pc.Panicked? ==>
                exists a, r, k ::
                  && NamesRead(start, old(script), images, a, r, k)
                  && (fd.Some? ==>
                        && Publishes(old(dents), fd.value, KGate) && store[dents[fd.value].uid].Labeled?
                        && store[dents[fd.value].uid].tag == tag
                        && IsDirect(store[dents[fd.value].uid].body, gives, memory, a, r, k))
                  && Performs(old(script) + ImageReads(images), script,
                              CreateChecked(tag, DirectDraft(gives, Function(memory, a, r, k))))
    {
      hide Play, Performs;
      if images.app !in dents || images.runtime !in dents || images.kernel !in dents
         || !dents[images.app].kind.KBlob? || !dents[images.runtime].kind.KBlob? || !dents[images.kernel].kind.KBlob? {
        return None;
      }
      ghost var before := script;
      fd := None;
      var a := DentGetBlob(images.app);
      if a.None? { return; }
      var r := DentGetBlob(images.runtime);
      if r.None? { return; }
      var k := DentGetBlob(images.kernel);
      if k.None? { return; }
      assert script == before + ImageReads(images);
      assert NamesRead(start, before, images, a.value, r.value, k.value);
      var code := Function(memory, a.value, r.value, k.value);
      fd := DentCreateChecked(tag, DirectDraft(gives, code));
    }

    // ----- faceted directories -----

    /** The lazy creation loop of a facet: look, make a directory, try to append it, and look again. */
    method DentOpenFacet(fd: nat, facet: Label) returns (got: Option<nat>)
      requires Valid() && pc.Idle?
      modifies this
      ensures Valid() && start == old(start) && Performs(old(script), script, OpenFacet(fd, facet))
      ensures got.Some? ==> pc == Idle && answer.Some? && answer.value.FacetOpened?
                               && got.value in dents && dents[got.value] == DirEntry(KDirectory, answer.value.found)
                               && fd in old(dents) && answer.value.faceted == old(dents)[fd].uid
                               && answer.value.facet == facet
      ensures got.None? ==> (pc.Idle? && answer == Some(Failed)) || (pc.Reserving? && coins == [])
    {
      hide Play, Performs;
      ghost var before, op := script, OpenFacet(fd, facet);
      Pause();
      if fd !in dents || !dents[fd].kind.KFaceted? {
        answer := Some(Failed);
        Record(before, op, Begin(op));
        return None;
      }
      got := OpenFacetLoop(dents[fd].uid, facet, DecodeFacets(Lookup(store, dents[fd].uid)), before, op);
    }

    method OpenFacetLoop(faceted: Uid, facet: Label, first: Option<seq<Facet>>, ghost before: seq<Choice>, ghost op: Op)
      returns (got: Option<nat>)
      requires Open() && store == Interfered(begun) && script == before
      requires TakeTurn(begun.thread, store, Begin(op)) == ConsiderFacets(Self(), faceted, facet, first)
      modifies this
      ensures Valid() && start == old(start) && Performs(before, script, op)
      ensures got.Some? ==> pc == Idle && answer.Some? && answer.value.FacetOpened?
                            && got.value in dents && dents[got.value] == DirEntry(KDirectory, answer.value.found)
                            && answer.value.faceted == faceted && answer.value.facet == facet
      ensures got.None? ==> pc.Reserving? && coins == []
    {
      hide Play, Performs, TakeTurn;
      ghost var c := Begin(op);
      var seen := first;
      while true
        invariant Open() && store == Interfered(begun) && start == old(start) && Next(before, script, op, c)
        invariant TakeTurn(begun.thread, store, c) == ConsiderFacets(Self(), faceted, facet, seen)
        decreases |coins|
      {
        var found := if seen.Some? then FindFacet(seen.value, facet) else None;
        if found.Some? {
          got := Found(faceted, facet, found.value, c, before, op);
          return;
        }
        var dir := NewFacetDirectory(faceted, facet, seen, c, before, op);
        if dir.None? { return None; }
        got := AppendFacet(faceted, facet, seen, dir.value, before, op);
        if got.Some? { return; }
        c, seen := Continue(0), DecodeFacets(Lookup(store, faceted));
      }
    }

    method Found(faceted: Uid, facet: Label, dir: Uid, ghost c: Choice, ghost before: seq<Choice>, ghost op: Op)
      returns (got: Option<nat>)
      requires Open() && store == Interfered(begun) && Next(before, script, op, c)
      requires TakeTurn(begun.thread, store, c) ==
               Finish(WithFd(Self(), DirEntry(KDirectory, dir)), FacetOpened(faceted, facet, dir))
      modifies this`dents, this`maxDentId, this`pc, this`answer, this`script
      ensures Valid() && Performs(before, script, op) && pc == Idle
      ensures answer == Some(FacetOpened(faceted, facet, dir))
      ensures got.Some? && got.value in dents && dents[got.value] == DirEntry(KDirectory, dir)
    {
      hide Play, Performs, TakeTurn;
      var id := AddDent(DirEntry(KDirectory, dir));
      pc, answer := Idle, Some(FacetOpened(faceted, facet, dir));
      Record(before, op, c);
      got := Some(id);
    }

    method NewFacetDirectory(faceted: Uid, facet: Label, seen: Option<seq<Facet>>,
                             ghost c: Choice, ghost before: seq<Choice>, ghost op: Op)
      returns (dir: Option<Uid>)
      requires Open() && store == Interfered(begun) && Next(before, script, op, c)
      requires TakeTurn(begun.thread, store, c) ==
               Go(Self(), Reserving(EmptyDirectory(facet), ForFacet(faceted, facet, seen)))
      modifies this`store, this`others, this`begun, this`pc, this`answer, this`script, this`coins
      ensures Valid() && Performs(before, script, op)
      ensures if dir.Some? then pc == Appending(faceted, facet, seen, dir.value) && |coins| < |old(coins)|
              else pc.Reserving? && coins == []
    {
      hide Play, Performs, TakeTurn;
      pc, answer := Reserving(EmptyDirectory(facet), ForFacet(faceted, facet, seen)), None;
      Record(before, op, c);
      dir := SetNewId(EmptyDirectory(facet), ForFacet(faceted, facet, seen), before, op);
      if dir.Some? { PutFacetDirectory(faceted, facet, seen, dir.value, before, op); }
    }

    method PutFacetDirectory(faceted: Uid, facet: Label, seen: Option<seq<Facet>>, dir: Uid,
                             ghost before: seq<Choice>, ghost op: Op)
      requires Valid() && pc == Filling(dir, EmptyDirectory(facet), ForFacet(faceted, facet, seen))
      requires Performs(before, script, op)
      modifies this`store, this`others, this`begun, this`pc, this`answer, this`script
      ensures Valid() && Performs(before, script, op) && pc == Appending(faceted, facet, seen, dir)
    {
      hide Play, Performs;
      Pause();
      store := store[dir := EmptyDirectory(facet)];
      pc, answer := Appending(faceted, facet, seen, dir), None;
      Record(before, op, Continue(0));
    }

    method AppendFacet(faceted: Uid, facet: Label, seen: Option<seq<Facet>>, dir: Uid,
                       ghost before: seq<Choice>, ghost op: Op)
      returns (got: Option<nat>)
      requires Valid() && pc == Appending(faceted, facet, seen, dir) && Performs(before, script, op)
      modifies this`store, this`others, this`begun, this`dents, this`maxDentId, this`pc, this`answer, this`script
      ensures Performs(before, script, op)
      ensures got.Some? ==>
                && Valid() && pc == Idle && answer == Some(FacetOpened(faceted, facet, dir))
                && got.value in dents && dents[got.value] == DirEntry(KDirectory, dir)
      ensures got.None? ==>
                && Open() && store == Interfered(begun)
                && TakeTurn(begun.thread, store, Continue(0)) ==
                   ConsiderFacets(Self(), faceted, facet, DecodeFacets(Lookup(store, faceted)))
    {
      hide Play, Performs;
      Pause();
      var expected := if seen.Some? then Some(Facets(seen.value)) else None;
      var known := if seen.Some? then seen.value else [];
      if Lookup(store, faceted) == expected {
        store := store[faceted := Facets(known + [Facet(facet, dir)])];
        var id := AddDent(DirEntry(KDirectory, dir));
        pc, answer := Idle, Some(FacetOpened(faceted, facet, dir));
        Record(before, op, Continue(0));
        return Some(id);
      }
      got := None;
    }

    // ----- updating -----

    /** `replace` and `write` up to the put: the delegation check, the get, and the flow check. */
    method Rewrite(uid: Uid, b: Body, publish: bool, ghost c: Choice, ghost before: seq<Choice>, ghost op: Op)
      returns (cell: Option<Cell>)
      requires Open() && store == Interfered(begun) && Next(before, script, op, c)
      requires TakeTurn(begun.thread, store, c) == RewriteAt(Self(), store, uid, b, publish)
      modifies this`pc, this`answer, this`script
      ensures Valid() && Performs(before, script, op) && script == old(script) + [c]
      ensures cell.Some? ==> pc == Replacing(uid, cell.value, publish) && cell.value.Labeled? && cell.value.body == b
      ensures cell.None? ==> pc.Panicked? || (pc.Idle? && answer == Some(Refused))
    {
      hide Play, Performs, TakeTurn;
      cell := None;
      if !Implies(privilege, Delegated(b)) {
        pc, answer := Idle, Some(Refused);
      } else {
        var found := Lookup(store, uid);
        if !Decodes(found, BodyKind(b)) {
          pc, answer := Panicked, None;
        } else if !CanFlowToWith(current, found.value.tag, privilege) {
          pc, answer := Idle, Some(Refused);
        } else {
          cell := Some(Labeled(found.value.tag, b));
          pc, answer := Replacing(uid, cell.value, publish), None;
        }
      }
      Record(before, op, c);
    }

    /** The put; a new blob gets its descriptor only now. */
    method PutReplacement(uid: Uid, cell: Cell, publish: bool, ghost before: seq<Choice>, ghost op: Op)
      returns (fd: Option<nat>)
      requires Valid() && pc == Replacing(uid, cell, publish) && cell.Labeled? && Performs(before, script, op)
      modifies this`store, this`others, this`begun, this`dents, this`maxDentId, this`pc, this`answer, this`script
      ensures Valid() && Performs(before, script, op) && pc == Idle && fd.Some? == publish
      ensures answer == if publish then Some(Opened(fd.value)) else Some(Stored)
      ensures publish ==> dents == old(dents)[fd.value := DirEntry(BodyKind(cell.body), uid)]
      ensures !publish ==> dents == old(dents)
      ensures uid in store && store[uid] == cell
    {
      hide Play, Performs;
      Pause();
      store := store[uid := cell];
      fd, answer := None, Some(Stored);
      if publish {
        var id := AddDent(DirEntry(BodyKind(cell.body), uid));
        fd, answer := Some(id), Some(Opened(id));
      }
      pc := Idle;
      Record(before, op, Continue(0));
    }

    method DentUpdate(fd: nat, draft: Draft) returns (success: bool)
      requires Valid() && pc.Idle?
      modifies this
      ensures Valid() && start == old(start) && Performs(old(script), script, Replace(fd, draft))
      ensures success ==>
                && fd in old(dents) && dents == old(dents) && old(dents)[fd].uid in store
                && store[old(dents)[fd].uid].Labeled?
                && Answers.IsDrafted(old(Self()), draft, store[old(dents)[fd].uid].body)
      ensures if pc.Panicked? then !success else pc.Idle? && answer.Some? && success == answer.value.Stored?
    {
      hide Play, Performs, RewriteAt, TakeTurn;
      ghost var before, op := script, Replace(fd, draft);
      Pause();
      ReplaceTurn(begun.thread, store, fd, draft);
      success := false;
      var b := Compose(dents, draft);
      if b.None? || b.value.GateBody? || fd !in dents || dents[fd].kind != BodyKind(b.value) {
        answer := Some(Failed);
        Record(before, op, Begin(op));
      } else {
        var uid := dents[fd].uid;
        var cell := Rewrite(uid, b.value, false, Begin(op), before, op);
        if cell.Some? {
          var _ := PutReplacement(uid, cell.value, false, before, op);
          success := true;
        }
      }
    }

    /**
     * `dent_update` of a gate. The gate is read first; what the update does not give is taken from it,
     * and so are its kind and its declassification. Then comes `replace`, with a get of its own.
     */
    method DentUpdateGate(fd: nat, patch: Patch) returns (success: bool)
      requires Valid() && pc.Idle?
      modifies this
      ensures Valid() && start == old(start) && Performs(old(script), script, UpdateGate(fd, patch))
      ensures success ==>
                && fd in old(dents) && dents == old(dents)
                && exists was: Gate, now: Gate ::
                     && StoresAt(Interfered(old(Now())), old(dents)[fd].uid, GateBody(was))
                     && StoresAt(store, old(dents)[fd].uid, GateBody(now))
                     && Answers.IsPatched(old(Self()), was, patch, now)
      ensures if pc.Panicked? then !success else pc.Idle? && answer.Some? && success == answer.value.Stored?
    {
      hide Play, Performs, RewriteAt, TakeTurn, Answers.IsPatched, Implies, CanFlowToWith;
      ghost var before, op := script, UpdateGate(fd, patch);
      var gate := ReadForUpdate(fd, patch, before, op);
      success := false;
      if gate.Some? {
        var uid := dents[fd].uid;
        Pause();
        RewritesOn(begun.thread, store);
        var cell := Rewrite(uid, GateBody(gate.value), false, Continue(0), before, op);
        if cell.Some? {
          var _ := PutReplacement(uid, cell.value, false, before, op);
          success := true;
        }
      }
    }

    /** Reads the gate and works out what to write; `None` if the update does not fit it. */
    method ReadForUpdate(fd: nat, patch: Patch, ghost before: seq<Choice>, ghost op: Op) returns (gate: Option<Gate>)
      requires Valid() && pc.Idle? && script == before && op == UpdateGate(fd, patch)
      modifies this`store, this`others, this`begun, this`current, this`pc, this`answer, this`script
      ensures Valid() && Performs(before, script, op)
      ensures gate.Some? ==> fd in dents && pc == Rewriting(dents[fd].uid, GateBody(gate.value), false)
      ensures gate.Some? ==>
                exists was :: && StoresAt(Interfered(old(Now())), dents[fd].uid, GateBody(was))
                              && Answers.IsPatched(old(Self()), was, patch, gate.value)
      ensures gate.None? ==> pc.Idle? && answer == Some(Failed)
    {
      hide Play, Performs, TakeTurn;
      Pause();
      UpdateGateTurn(begun.thread, store, fd, patch);
      hide Patched, Answers.IsPatched;
      gate, answer := None, Some(Failed);
      if fd in dents && dents[fd].kind.KGate? {
        var found := Lookup(store, dents[fd].uid);
        if Decodes(found, KGate) {
          PatchedIsPatched(old(Self()), found.value.body.gate, patch);
          assert StoresAt(store, dents[fd].uid, GateBody(found.value.body.gate));
          current := Raise(found.value.tag, current);
          gate := Patched(dents, found.value.body.gate, patch);
          if gate.Some? { pc, answer := Rewriting(dents[fd].uid, GateBody(gate.value), false), None; }
        }
      }
      Record(before, op, Begin(op));
    }

    // ----- invoking -----

    /**
     * `to_invokable` and the clearance check. The loop follows redirects for at most `passes` further
     * gates; on a cyclic chain the server goes round for ever, which no number of passes ends.
     */
    method ResolveGate(fd: nat, passes: nat) returns (gate: Option<(Authority, Function)>)
      requires Valid() && pc.Idle?
      modifies this
      ensures Valid() && start == old(start) && Performs(old(script), script, Resolve(fd))
      ensures gate.Some? ==> pc == Idle && answer == Some(Resolved(gate.value.0, gate.value.1))
      ensures gate.None? ==>
                || (pc.Idle? && answer in {Some(Failed), Some(Refused)}) || pc.Panicked?
                || (pc.Resolving? && |script| == |old(script)| + passes + 1)
    {
      hide Play, Performs;
      ghost var before, op := script, Resolve(fd);
      Pause();
      if fd !in dents || !dents[fd].kind.KGate? {
        answer := Some(Failed);
        Record(before, op, Begin(op));
        return None;
      }
      gate := ResolveLoop(dents[fd].uid, passes, before, op);
    }

    /** The loop of `to_invokable`, from the gate whose descriptor was given. */
    method ResolveLoop(gate: Uid, passes: nat, ghost before: seq<Choice>, ghost op: Op)
      returns (found: Option<(Authority, Function)>)
      requires Open() && store == Interfered(begun) && script == before
      requires TakeTurn(begun.thread, store, Begin(op)) == ResolveAt(Self(), store, gate, NO_AUTHORITY)
      modifies this
      ensures Valid() && start == old(start) && Performs(before, script, op)
      ensures found.Some? ==> pc == Idle && answer == Some(Resolved(found.value.0, found.value.1))
      ensures found.None? ==>
                || (pc.Idle? && answer == Some(Refused)) || pc.Panicked?
                || (pc.Resolving? && |script| == |before| + passes + 1)
    {
      hide Play, Performs, TakeTurn, ResolveAt;
      ghost var c := Begin(op);
      var at, authority := gate, NO_AUTHORITY;
      var left := passes;
      while true
        invariant Open() && store == Interfered(begun) && start == old(start) && Next(before, script, op, c)
        invariant TakeTurn(begun.thread, store, c) == ResolveAt(Self(), store, at, authority)
        invariant |script| + left == |before| + passes
        decreases left
      {
        var hop := FollowGate(at, authority, c, before, op);
        if hop.Arrived? { return Some((hop.authority, hop.code)); }
        if hop.Stopped? || left == 0 { return None; }
        at, authority := hop.target, hop.authority;
        left := left - 1;
        Pause();
        c := Continue(0);
        ResolvesOn(begun.thread, store);
      }
    }

    /** Reads one gate of the chain; answers if it is direct, and returns the next one if it is not. */
    method FollowGate(at: Uid, authority: Authority, ghost c: Choice, ghost before: seq<Choice>, ghost op: Op)
      returns (hop: Hop)
      requires Open() && store == Interfered(begun) && Next(before, script, op, c)
      requires TakeTurn(begun.thread, store, c) == ResolveAt(Self(), store, at, authority)
      modifies this`current, this`pc, this`answer, this`script
      ensures Valid() && Performs(before, script, op) && |script| == |old(script)| + 1
      ensures match hop
              case Onward(target, sum) => pc == Resolving(target, sum)
              case Arrived(sum, code) => pc.Idle? && answer == Some(Resolved(sum, code))
              case Stopped => pc.Panicked? || (pc.Idle? && answer == Some(Refused))
    {
      hide Play, Performs;
      var found := Lookup(store, at);
      hop := Stopped;
      if !Decodes(found, KGate) {
        pc, answer := Panicked, None;
      } else {
        current := Raise(found.value.tag, current);
        var gate := found.value.body.gate;
        var sum := Accumulate(authority, gate);
        match gate {
          case Redirect(_, _, _, target) =>
            hop := Onward(target, sum);
            pc, answer := Resolving(target, sum), None;
          case Direct(_, _, _, code) =>
            if Implies(privilege, sum.clearance) { hop := Arrived(sum, code); }
            pc, answer := Idle, if hop.Arrived? then Some(Resolved(sum, code)) else Some(Refused);
        }
      }
      Record(before, op, c);
    }

    /** The descriptor is that of a service whose clearance the run meets. */
    ghost predicate MayCall(fd: nat)
      reads this
    {
      && fd in dents && dents[fd].kind.KService? && Decodes(Lookup(store, dents[fd].uid), KService)
      && Implies(privilege, store[dents[fd].uid].body.service.clearance)
    }

    /**
     * Calling an external service. What comes back is whatever the outside makes it, or nothing; the
     * labels are the same either way.
     */
    method InvokeService(fd: nat, reply: Option<seq<Byte>>) returns (data: Option<seq<Byte>>)
      requires Valid() && pc.Idle?
      modifies this
      ensures Valid() && start == old(start) && script == old(script) + [Begin(CallService(fd, reply))]
      ensures if pc.Panicked? then data == None
              else pc.Idle? && answer.Some? && data == if answer.value.Called? then reply else None
      ensures dents == old(dents) && privilege == old(privilege) && store == Interfered(old(Now()))
      ensures pc.Idle? ==> (answer.value.Called? <==> MayCall(fd))
      ensures pc.Idle? && answer.value.Called? ==>
                var c := store[dents[fd].uid];
                forall to :: CanFlowTo(current, to)
                             <==> && CanFlowToWith(c.tag, to, c.body.service.privilege)
                                  && CanFlowToWith(old(current), to, c.body.service.privilege)
                                  && CanFlowTo(c.body.service.taint, to)
    {
      hide Play, Performs, TakeTurn;
      ghost var before, op := script, CallService(fd, reply);
      Pause();
      CallServiceTurn(begun.thread, store, fd, reply);
      data := None;
      if fd !in dents || !dents[fd].kind.KService? {
        answer := Some(Failed);
      } else {
        var found := Lookup(store, dents[fd].uid);
        if !Decodes(found, KService) {
          pc, answer := Panicked, None;
        } else {
          var service := found.value.body.service;
          current := Raise(found.value.tag, current);
          if !Implies(privilege, service.clearance) {
            answer := Some(Refused);
          } else {
            ServiceLabel(found.value.tag, old(current), service.privilege, service.taint);
            current := Downgrade(current, service.privilege);
            data, answer := reply, Some(Called(reply));
            current := Lub(current, service.taint);
          }
        }
      }
      Record(before, op, Begin(op));
    }

    /** A synchronous invocation taints its caller with the label of the response. */
    method TakeResponse(tag: Label, from: Tid)
      requires Valid() && pc.Idle?
      modifies this
      ensures Valid() && start == old(start) && script == old(script) + [Begin(TakeReply(tag, from))] && pc.Idle?
      ensures current == Lub(old(current), tag) && answer == Some(LabelIs(current))
    {
      hide Play, Performs;
      ghost var before, op := script, TakeReply(tag, from);
      Pause();
      current := Lub(current, tag);
      answer := Some(LabelIs(current));
      Record(before, op, Begin(op));
    }

    // ----- labels -----

    method GetCurrentLabel() returns (now: Label)
      requires Valid() && pc.Idle?
      modifies this
      ensures Valid() && start == old(start) && script == old(script) + [Begin(GetLabel)] && pc.Idle?
      ensures now == current == old(current) && answer == Some(LabelIs(now))
    {
      hide Play, Performs;
      ghost var before, op := script, GetLabel;
      Pause();
      now := current;
      answer := Some(LabelIs(now));
      Record(before, op, Begin(op));
    }

    method TaintWithLabel(tag: Label) returns (now: Label)
      requires Valid() && pc.Idle?
      modifies this
      ensures Valid() && start == old(start) && script == old(script) + [Begin(Taint(tag))] && pc.Idle?
      ensures now == current == Lub(old(current), tag) && answer == Some(LabelIs(now))
    {
      hide Play, Performs;
      ghost var before, op := script, Taint(tag);
      Pause();
      current := Lub(current, tag);
      answer := Some(LabelIs(current));
      Record(before, op, Begin(op));
      now := current;
    }

    /**
     * `declassify` only computes: it offers the label with that secrecy exactly when the current
     * label may flow there with the run's privilege, and installs nothing.
     */
    method DeclassifyTo(secrecy: Component) returns (offered: Option<Label>)
      requires Valid() && pc.Idle?
      modifies this
      ensures Valid() && start == old(start) && script == old(script) + [Begin(Declassify(secrecy))] && pc.Idle?
      ensures current == old(current) && privilege == old(privilege) && answer == Some(Offered(offered))
      ensures offered.Some? ==> offered.value == Label(secrecy, current.integrity)
      ensures offered.Some? <==> CanFlowToWith(current, Label(secrecy, current.integrity), privilege)
    {
      hide Play, Performs;
      ghost var before, op := script, Declassify(secrecy);
      Pause();
      AndImplies(current.integrity, privilege);
      offered := None;
      if Implies(And(secrecy, privilege), current.secrecy) {
        offered := Some(Label(secrecy, current.integrity));
      }
      answer := Some(Offered(offered));
      Record(before, op, Begin(op));
    }

    /** The last system call: the result is labelled with the current label lowered by the run's privilege. */
    method Response() returns (tag: Label)
      requires Valid() && pc.Idle?
      modifies this
      ensures Valid() && start == old(start) && script == old(script) + [Begin(Respond)]
      ensures pc.Finished? && tag == current && answer == Some(Responded(tag))
      ensures forall to :: CanFlowTo(tag, to) <==> CanFlowToWith(old(current), to, old(privilege))
      ensures CanFlowToWith(old(current), tag, old(privilege))
    {
      hide Play, Performs;
      ghost var before, op := script, Respond;
      Pause();
      DowngradeFlows(current, privilege);
      ResponseLabel(current, privilege);
      current := Downgrade(current, privilege);
      pc, answer := Finished, Some(Responded(current));
      Record(before, op, Begin(op));
      tag := current;
    }

    // ----- dispatch -----

    /** The reads look at the kind of the descriptor, and come to a turn only if it is the one they want. */
    ghost predicate Comes(call: Syscall)
      reads this
    {
      call.Does? || (call.fd in dents && dents[call.fd].kind == call.Wants())
    }

    /** One system call performs exactly the turns of its operation; only a response ends the run. */
    method DoSyscall(call: Syscall, passes: nat) returns (result: Option<Label>)
      requires Valid() && pc.Idle? && (call.Does? ==> !call.op.Read?)
      modifies this
      ensures Valid() && start == old(start)
      ensures if old(Comes(call)) then Performs(old(script), script, call.Operation()) else script == old(script)
      ensures result.Some? <==> call == Does(Respond)
      ensures result.Some? ==> pc.Finished? && CanFlowToWith(old(current), result.value, old(privilege))
    {
      hide Play;
      result := None;
      match call {
        case DoesRead(fd) => var _ := DentRead(fd);
        case DoesList(fd) => var _ := DentList(fd);
        case DoesLsGate(fd) => var _ := DentLsGate(fd);
        case DoesGetBlob(fd) => var _ := DentGetBlob(fd);
        case Does(op) => result := Dispatch(op, passes);
      }
    }

    /** The system calls that are an operation as they are. */
    method Dispatch(op: Op, passes: nat) returns (result: Option<Label>)
      requires Valid() && pc.Idle? && !op.Read?
      modifies this
      ensures Valid() && start == old(start) && Performs(old(script), script, op)
      ensures result.Some? <==> op.Respond?
      ensures result.Some? ==> pc.Finished? && CanFlowToWith(old(current), result.value, old(privilege))
    {
      hide Play;
      result := None;
      match op {
        case OpenName(fd, name) => var _ := DentOpenName(fd, name);
        case OpenFacet(fd, facet) => var _ := DentOpenFacet(fd, facet);
        case Close(fd) => DentClose(fd);
        case ListFacets(fd, clearance) => var _ := DentListFaceted(fd, clearance);
        case GetLabel => var _ := GetCurrentLabel();
        case Taint(tag) => var _ := TaintWithLabel(tag);
        case Declassify(secrecy) => var _ := DeclassifyTo(secrecy);
        case TakeReply(tag, from) => TakeResponse(tag, from);
        case Link(fd, name, target) => var _ := DentLink(fd, name, target);
        case Unlink(fd, name) => var _ := DentUnlink(fd, name);
        case Create(kind, tag) => var _ := DentCreate(kind, tag);
        case CreateBlob(tag, name) => var _ := DentCreateBlob(tag, name);
        case CreateChecked(tag, draft) => var _ := DentCreateChecked(tag, draft);
        case Replace(fd, draft) => var _ := DentUpdate(fd, draft);
        case UpdateGate(fd, patch) => var _ := DentUpdateGate(fd, patch);
        case Resolve(fd) => var _ := ResolveGate(fd, passes);
        case CallService(fd, reply) => var _ := InvokeService(fd, reply);
        case Respond =>
          var tag := Response();
          result := Some(tag);
      }
    }
  }

  lemma ResponseLabel(current: Label, p: Component)
    ensures forall to :: CanFlowTo(Downgrade(current, p), to) <==> CanFlowToWith(current, to, p)
  {
    forall to ensures CanFlowTo(Downgrade(current, p), to) <==> CanFlowToWith(current, to, p) {
      DowngradeIsLeast(current, p, to);
    }
  }

  lemma ServiceLabel(read: Label, current: Label, p: Component, taint: Label)
    ensures forall to :: CanFlowTo(Lub(Downgrade(Raise(read, current), p), taint), to)
                         <==> CanFlowToWith(read, to, p) && CanFlowToWith(current, to, p) && CanFlowTo(taint, to)
  {
    hide CanFlowTo, CanFlowToWith, Downgrade, Lub, Raise;
    forall to ensures CanFlowTo(Lub(Downgrade(Raise(read, current), p), taint), to)
                      <==> CanFlowToWith(read, to, p) && CanFlowToWith(current, to, p) && CanFlowTo(taint, to)
    {
      Answers.LabelAfterService(read, current, p, taint, to);
    }
  }

  lemma OpenNameTurn(t: Thread, s: Store, fd: nat, name: string)
    requires t.pc.Idle?
    ensures TakeTurn(t, s, Begin(OpenName(fd, name))) == OpenNameAt(t, s, fd, name)
  {
  }

  lemma CallServiceTurn(t: Thread, s: Store, fd: nat, reply: Option<seq<Byte>>)
    requires t.pc.Idle?
    ensures TakeTurn(t, s, Begin(CallService(fd, reply))) == CallServiceAt(t, s, fd, reply)
  {
  }

  lemma PatchedIsPatched(t: Thread, g: Gate, p: Patch)
    ensures var now := Patched(t.fds, g, p); now.Some? ==> Answers.IsPatched(t, g, p, now.value)
  {
  }

  lemma UpdateGateTurn(t: Thread, s: Store, fd: nat, patch: Patch)
    requires t.pc.Idle?
    ensures TakeTurn(t, s, Begin(UpdateGate(fd, patch))) == UpdateGateAt(t, s, fd, patch)
  {
  }

  lemma CreateBlobTurn(t: Thread, s: Store, tag: Label, name: string)
    requires t.pc.Idle?
    ensures TakeTurn(t, s, Begin(CreateBlob(tag, name))) == Go(t, Reserving(Labeled(tag, Blob("")), ForBlob(name)))
  {
  }

  lemma FillBlobTurn(t: Thread, s: Store)
    requires t.pc.Filling? && t.pc.goal.ForBlob?
    ensures TakeTurn(t, s, Continue(0))
            == Effect(t.(pc := Rewriting(t.pc.uid, Blob(t.pc.goal.name), true)), Some(Update(t.pc.uid, t.pc.cell)),
                      None)
  {
  }

  lemma ReplaceTurn(t: Thread, s: Store, fd: nat, draft: Draft)
    requires t.pc.Idle?
    ensures var b := Compose(t.fds, draft);
            TakeTurn(t, s, Begin(Replace(fd, draft)))
            == if b.None? || b.value.GateBody? || fd !in t.fds || t.fds[fd].kind != BodyKind(b.value)
               then Finish(t, Failed) else RewriteAt(t, s, t.fds[fd].uid, b.value, false)
  {
  }

  lemma ResolvesOn(t: Thread, s: Store)
    requires t.pc.Resolving?
    ensures TakeTurn(t, s, Continue(0)) == ResolveAt(t, s, t.pc.target, t.pc.authority)
  {
  }

  lemma RewritesOn(t: Thread, s: Store)
    requires t.pc.Rewriting?
    ensures TakeTurn(t, s, Continue(0)) == RewriteAt(t, s, t.pc.uid, t.pc.body, t.pc.publish)
  {
  }

  // ----- every environment of the protocol is one of these -----

  /** The turns of thread `i` in a schedule. */
  function ScriptOf(schedule: seq<Turn>, i: Tid): seq<Choice> {
    if schedule == [] then []
    else
      var before, turn := schedule[..|schedule| - 1], schedule[|schedule| - 1];
      ScriptOf(before, i) + if turn.Act? && turn.tid == i then [turn.choice] else []
  }

  /** Before each of its turns, thread `i` finds the store as the schedule has made it. */
  function OthersOf(y: Sys, schedule: seq<Turn>, i: Tid): Others {
    if schedule == [] then []
    else
      var before, turn := schedule[..|schedule| - 1], schedule[|schedule| - 1];
      OthersOf(y, before, i) + if turn.Act? && turn.tid == i then [Leave(Run(y, before).store)] else []
  }

  /** The others leave the store at `found`. */
  function Leave(found: Store): Store -> Store {
    _ => found
  }

  lemma OwnTurn(z: Sys, turn: Turn, p: Moment)
    requires turn.Act? && turn.tid in z.threads
    requires p.thread == z.threads[turn.tid] && p.others == [Leave(z.store)]
    ensures Beat(p, turn.choice).thread == Step(z, turn).threads[turn.tid]
  {
    assert Interfered(p) == z.store;
  }

  lemma {:induction false} PlayFrame(m: Moment, script: seq<Choice>, more: Others)
    requires |m.others| == |script|
    ensures Play(m, script).others == []
    ensures Play(m.(others := m.others + more), script) == Play(m, script).(others := more)
  {
    PlayLeaves(m, script);
    PlayWith(m, script, more);
  }

  lemma {:induction false} PlayLeaves(m: Moment, script: seq<Choice>)
    requires |script| <= |m.others|
    ensures Play(m, script).others == m.others[|script|..]
  {
    if script != [] {
      PlayLeaves(m, script[..|script| - 1]);
    }
  }

  lemma {:induction false} PlayWith(m: Moment, script: seq<Choice>, more: Others)
    requires |script| <= |m.others|
    ensures Play(m.(others := m.others + more), script) == Play(m, script).(others := m.others[|script|..] + more)
  {
    hide TakeTurn, Written;
    if script == [] {
      assert m.others[0..] == m.others;
    } else {
      var before := script[..|script| - 1];
      PlayLeaves(m, before);
      PlayWith(m, before, more);
      assert (m.others[|before|..] + more)[1..] == m.others[|script|..] + more;
    }
  }

  /**
   * Whatever the schedule, what happens to one thread is a play of its turns against the store
   * changes of the others; so the server, run against all such lists, meets every interleaving.
   */
  lemma {:induction false} RunsArePlays(y: Sys, schedule: seq<Turn>, i: Tid)
    requires i in y.threads
    ensures i in Run(y, schedule).threads && |OthersOf(y, schedule, i)| == |ScriptOf(schedule, i)|
    ensures Play(Moment(y.threads[i], y.store, OthersOf(y, schedule, i), None), ScriptOf(schedule, i)).thread
              == Run(y, schedule).threads[i]
  {
    hide Play, TakeTurn, Leave;
    if schedule == [] {
      PlayNothing(Moment(y.threads[i], y.store, OthersOf(y, schedule, i), None));
    } else {
      var before, turn := schedule[..|schedule| - 1], schedule[|schedule| - 1];
      RunsArePlays(y, before, i);
      if turn.Act? && turn.tid == i {
        OneMore(y, before, turn);
      } else {
        assert ScriptOf(schedule, i) == ScriptOf(before, i);
        assert OthersOf(y, schedule, i) == OthersOf(y, before, i);
      }
    }
  }

  lemma PlayNothing(m: Moment)
    ensures Play(m, []) == m
  {
  }

  lemma OneMore(y: Sys, before: seq<Turn>, turn: Turn)
    requires turn.Act? && turn.tid in y.threads && turn.tid in Run(y, before).threads
    requires var i := turn.tid;
             && |OthersOf(y, before, i)| == |ScriptOf(before, i)|
             && Play(Moment(y.threads[i], y.store, OthersOf(y, before, i), None), ScriptOf(before, i)).thread
                == Run(y, before).threads[i]
    ensures var i := turn.tid;
            var script := ScriptOf(before, i) + [turn.choice];
            var others := OthersOf(y, before, i) + [Leave(Run(y, before).store)];
            Play(Moment(y.threads[i], y.store, others, None), script).thread == Step(Run(y, before), turn).threads[i]
  {
    var i := turn.tid;
    var m := Moment(y.threads[i], y.store, OthersOf(y, before, i), None);
    var more := [Leave(Run(y, before).store)];
    PlayFrame(m, ScriptOf(before, i), more);
    PlaySnoc(m.(others := m.others + more), ScriptOf(before, i), turn.choice);
    OwnTurn(Run(y, before), turn, Play(m, ScriptOf(before, i)).(others := more));
  }
}
