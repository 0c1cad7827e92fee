/**
 * The objects of the labelled store, the atomic operations of the backing store, and the pure
 * pieces of work that a thread does between two atomic operations.
 */
module Objects {
  import opened Wrappers
  import opened Labels

  type Uid = u: int | 0 <= u < 0x1_0000_0000_0000_0000
  type Byte = b: int | 0 <= b < 256

  const ROOT: Uid := 0

  datatype Kind = KDirectory | KFile | KFaceted | KGate | KService | KBlob

  /** A directory entry is a typed reference; so is an open file descriptor. */
  datatype DirEntry = DirEntry(kind: Kind, uid: Uid)

  datatype Function = Function(memory: nat, appImage: string, runtimeImage: string, kernel: string)

  datatype Gate =
    | Direct(privilege: Component, clearance: Component, declassify: Component, code: Function)
    | Redirect(privilege: Component, clearance: Component, declassify: Component, target: Uid)

  datatype Verb = Head | Get | Post | Put | Delete

  datatype Service = Service(
    privilege: Component, clearance: Component, taint: Label,
    url: string, verb: Verb, headers: map<string, string>)

  datatype Body =
    | Directory(entries: map<string, DirEntry>)
    | File(bytes: seq<Byte>)
    | GateBody(gate: Gate)
    | ServiceBody(service: Service)
    | Blob(name: string)

  datatype Facet = Facet(tag: Label, dir: Uid)

  /** `Reserved` is the empty value that `add` leaves until the object is put. */
  datatype Cell = Reserved | Labeled(tag: Label, body: Body) | Facets(facets: seq<Facet>)

  type Store = map<Uid, Cell>

  function BodyKind(b: Body): Kind {
    match b
    case Directory(_) => KDirectory
    case File(_) => KFile
    case GateBody(_) => KGate
    case ServiceBody(_) => KService
    case Blob(_) => KBlob
  }

  /** Whether a cell decodes as an object of the given kind. */
  predicate Fits(c: Cell, k: Kind) {
    if k.KFaceted? then c.Facets? else c.Labeled? && BodyKind(c.body) == k
  }

  // ----- atomic operations -----

  function Lookup(s: Store, u: Uid): Option<Cell> {
    if u in s then Some(s[u]) else None
  }

  predicate CasSucceeds(s: Store, u: Uid, expected: Option<Cell>) {
    Lookup(s, u) == expected
  }

  // ----- directories -----

  datatype Edit = Insert(name: string, entry: DirEntry) | Remove(name: string)

  /** The edit would overwrite a name, or remove one that is not there. */
  predicate Blocked(e: Edit, entries: map<string, DirEntry>) {
    e.Insert? <==> e.name in entries
  }

  function Apply(e: Edit, entries: map<string, DirEntry>): map<string, DirEntry> {
    if e.Insert? then entries[e.name := e.entry] else entries - {e.name}
  }

  datatype Verdict = Denied | Unchanged | Proposed(cell: Cell)

  /** Reading a directory to edit it raises the current label before the write check. */
  function Raise(read: Label, current: Label): Label {
    Lub(read, current)
  }

  function Consider(prev: Cell, e: Edit, current: Label, privilege: Component): Verdict
    requires Fits(prev, KDirectory)
  {
    if !CanFlowToWith(Raise(prev.tag, current), prev.tag, privilege) then Denied
    else if Blocked(e, prev.body.entries) then Unchanged
    else Proposed(Labeled(prev.tag, Directory(Apply(e, prev.body.entries))))
  }

  // ----- faceted directories -----

  function FindFacet(fs: seq<Facet>, f: Label): Option<Uid> {
    if fs == [] then None
    else if fs[0].tag == f then Some(fs[0].dir)
    else FindFacet(fs[1..], f)
  }

  /** `FindFacet` finds the first entry of the facet, and nothing exactly when there is none. */
  lemma {:induction false} FindFacetIsFirst(fs: seq<Facet>, f: Label)
    ensures match FindFacet(fs, f)
            case None => forall i | 0 <= i < |fs| :: fs[i].tag != f
            case Some(d) => exists i :: 0 <= i < |fs| && fs[i] == Facet(f, d) && forall j | 0 <= j < i :: fs[j].tag != f
  {
    if fs != [] && fs[0].tag != f {
      FindFacetIsFirst(fs[1..], f);
      match FindFacet(fs[1..], f)
      case None =>
        forall i | 0 <= i < |fs| ensures fs[i].tag != f {
          if i > 0 { assert fs[i] == fs[1..][i - 1]; }
        }
      case Some(d) =>
        var i :| 0 <= i < |fs[1..]| && fs[1..][i] == Facet(f, d) && forall j | 0 <= j < i :: fs[1..][j].tag != f;
        assert fs[i + 1] == Facet(f, d);
        forall j | 0 <= j < i + 1 ensures fs[j].tag != f {
          if j > 0 { assert fs[j] == fs[1..][j - 1]; }
        }
    } else if fs != [] {
      assert fs[0] == Facet(f, fs[0].dir);
    }
  }

  function EmptyDirectory(tag: Label): Cell {
    Labeled(tag, Directory(map[]))
  }

  // ----- gates -----

  /** What a gate delegates when it is resolved; accumulated along a chain of redirects. */
  datatype Authority = Authority(privilege: Component, clearance: Component, declassify: Component)

  const NO_AUTHORITY := Authority(DC_TRUE, DC_TRUE, DC_TRUE)

  /** A direct gate contributes its privilege and clearance; only redirects contribute `declassify`. */
  function Accumulate(a: Authority, g: Gate): Authority {
    Authority(
      And(a.privilege, g.privilege),
      And(a.clearance, g.clearance),
      if g.Direct? then a.declassify else And(a.declassify, g.declassify))
  }

  /** The privilege that a body hands to whoever invokes it. */
  function Delegated(b: Body): Component {
    match b
    case GateBody(g) => g.privilege
    case ServiceBody(v) => v.privilege
    case _ => DC_TRUE
  }

  // ----- references and how cells evolve -----

  predicate Refers(c: Cell, e: DirEntry) {
    match c
    case Labeled(_, Directory(entries)) => e in entries.Values
    case Labeled(_, GateBody(Redirect(_, _, _, target))) => e == DirEntry(KGate, target)
    case Facets(fs) => e.kind.KDirectory? && exists i :: 0 <= i < |fs| && fs[i].dir == e.uid
    case _ => false
  }

  predicate RefOk(s: Store, e: DirEntry) {
    e.uid in s && Fits(s[e.uid], e.kind)
  }

  ghost predicate RefsOk(s: Store, c: Cell) {
    && (forall e | Refers(c, e) :: RefOk(s, e))
    && (c.Facets? ==>
          && (forall i | 0 <= i < |c.facets| :: c.facets[i].dir in s && s[c.facets[i].dir].Labeled?
                                            && s[c.facets[i].dir].tag == c.facets[i].tag)
          && (forall i, j | 0 <= i < j < |c.facets| :: c.facets[i].tag != c.facets[j].tag))
  }

  ghost predicate StoreTyped(s: Store) {
    && ROOT in s && Fits(s[ROOT], KDirectory)
    && forall u | u in s :: RefsOk(s, s[u])
  }

  /** The same kind of object; a gate also stays direct or redirect, and keeps its declassification. */
  predicate SameShape(b: Body, b': Body) {
    && BodyKind(b) == BodyKind(b')
    && (b.GateBody? ==> (b.gate.Redirect? <==> b'.gate.Redirect?) && b.gate.declassify == b'.gate.declassify)
  }

  predicate CellEvolves(c: Cell, d: Cell) {
    match c
    case Reserved => true
    case Labeled(tag, body) => d.Labeled? && d.tag == tag && SameShape(body, d.body)
    case Facets(fs) => d.Facets? && fs <= d.facets
  }

  /** Cells are never dropped, keep label and shape once filled, and facet lists only grow at the end. */
  ghost predicate Evolves(s: Store, s': Store) {
    forall u | u in s :: u in s' && CellEvolves(s[u], s'[u])
  }

  lemma EvolvesRefl(s: Store)
    ensures Evolves(s, s)
  {
  }

  lemma EvolvesTrans(a: Store, b: Store, c: Store)
    requires Evolves(a, b) && Evolves(b, c)
    ensures Evolves(a, c)
  {
    forall u | u in a ensures u in c && CellEvolves(a[u], c[u]) {
      assert u in b;
    }
  }

  lemma RefOkEvolves(s: Store, s': Store, e: DirEntry)
    requires Evolves(s, s') && RefOk(s, e)
    ensures RefOk(s', e)
  {
  }

  lemma RefsOkEvolves(s: Store, s': Store, c: Cell)
    requires Evolves(s, s') && RefsOk(s, c)
    ensures RefsOk(s', c)
  {
    forall e | Refers(c, e) ensures RefOk(s', e) {
      RefOkEvolves(s, s', e);
    }
  }

  /** Changing one cell of a typed store to a cell with good references keeps it typed. */
  lemma WriteKeepsTyped(s: Store, u: Uid, c: Cell)
    requires StoreTyped(s) && RefsOk(s, c)
    requires u in s ==> CellEvolves(s[u], c)
    ensures Evolves(s, s[u := c]) && StoreTyped(s[u := c])
  {
    var s' := s[u := c];
    assert Evolves(s, s');
    forall v | v in s' ensures RefsOk(s', s'[v]) {
      RefsOkEvolves(s, s', s'[v]);
    }
  }
}
