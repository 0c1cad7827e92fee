/**
 * Directory edits are linearizable: the answers that all threads receive are the answers of one
 * sequential directory table, in an order that puts each edit at the turn that answered it.
 */
module Linearizability {
  import opened Wrappers
  import opened Labels
  import opened Objects
  import opened Protocol
  import opened StoreTyping

  // ----- the sequential specification -----

  type Table = map<Uid, map<string, DirEntry>>

  datatype Event = Made(dir: Uid) | Answered(tid: Tid, dir: Uid, edit: Edit, ok: bool)

  /** An edit answers `true` exactly when it takes effect: it never overwrites and never removes in vain. */
  function Perform(d: Table, e: Event): Option<Table> {
    match e
    case Made(dir) => if dir in d then None else Some(d[dir := map[]])
    case Answered(_, dir, edit, ok) =>
      if dir !in d || ok == Blocked(edit, d[dir]) then None
      else Some(if ok then d[dir := Apply(edit, d[dir])] else d)
  }

  function Replay(d: Table, log: seq<Event>): Option<Table> {
    if log == [] then Some(d)
    else
      var before := Replay(d, log[..|log| - 1]);
      if before.None? then None else Perform(before.value, log[|log| - 1])
  }

  // ----- the history of a run -----

  function EventsOf(y: Sys, turn: Turn): seq<Event> {
    if EffectOf(y, turn).None? then []
    else
      var t := y.threads[turn.tid];
      var e := EffectOf(y, turn).value;
      if e.outcome.Some? && e.outcome.value.Edited? then
        [Answered(turn.tid, e.outcome.value.dir, e.outcome.value.edit, e.outcome.value.ok)]
      else if t.pc.Filling? && e.write.Some? && Fits(e.write.value.cell, KDirectory) then
        [Made(e.write.value.uid)]
      else []
  }

  function Log(y: Sys, schedule: seq<Turn>): seq<Event> {
    if schedule == [] then []
    else
      var before := schedule[..|schedule| - 1];
      Log(y, before) + EventsOf(Run(y, before), schedule[|schedule| - 1])
  }

  function Directories(s: Store): Table {
    map u | u in s && Fits(s[u], KDirectory) :: s[u].body.entries
  }

  // ----- one turn -----

  lemma ConsiderDirAgrees(s: Store, t: Thread, dir: Uid, e: Edit)
    requires RefOk(s, DirEntry(KDirectory, dir))
    ensures var f := ConsiderDir(t, dir, e, Lookup(s, dir));
            && f.write.None?
            && (f.outcome.Some? && f.outcome.value.Edited? ==>
                  f.outcome.value == Edited(dir, e, false) && Blocked(e, s[dir].body.entries))
  {
  }

  /** The three ways a turn can touch the directories of the store. */
  ghost predicate Touches(s: Store, t: Thread, f: Effect) {
    if f.outcome.Some? && f.outcome.value.Edited? then
      var o := f.outcome.value;
      && RefOk(s, DirEntry(KDirectory, o.dir))
      && o.ok == !Blocked(o.edit, s[o.dir].body.entries)
      && f.write
         == if o.ok
            then Some(Update(o.dir, Labeled(s[o.dir].tag, Directory(Apply(o.edit, s[o.dir].body.entries)))))
            else None
    else if t.pc.Filling? && f.write.Some? && Fits(f.write.value.cell, KDirectory) then
      && f.write.value.uid in s && s[f.write.value.uid].Reserved?
      && f.write.value.cell == EmptyDirectory(f.write.value.cell.tag)
    else
      f.write.Some? ==>
        !Fits(f.write.value.cell, KDirectory) && !RefOk(s, DirEntry(KDirectory, f.write.value.uid))
  }

  lemma BeginTouches(s: Store, t: Thread, op: Op)
    requires StoreTyped(s) && ThreadTyped(s, t) && t.pc.Idle?
    ensures Touches(s, t, BeginOp(t, s, op))
  {
    match op
    case Link(fd, name, target) =>
      if fd in t.fds && target in t.fds && t.fds[fd].kind.KDirectory? {
        ConsiderDirAgrees(s, t, t.fds[fd].uid, Insert(name, t.fds[target]));
      }
    case Unlink(fd, name) =>
      if fd in t.fds && t.fds[fd].kind.KDirectory? { ConsiderDirAgrees(s, t, t.fds[fd].uid, Remove(name)); }
    case _ =>
  }

  lemma TurnTouches(s: Store, t: Thread, c: Choice)
    requires StoreTyped(s) && ThreadTyped(s, t)
    ensures Touches(s, t, TakeTurn(t, s, c))
  {
    if c.Begin? {
      if t.pc.Idle? { BeginTouches(s, t, c.op); }
    } else {
      match t.pc
      case Editing(dir, edit, _, _) => ConsiderDirAgrees(s, t, dir, edit);
      case _ =>
    }
  }

  lemma ReplayOne(d: Table, e: Event)
    ensures Replay(d, [e]) == Perform(d, e)
  {
    assert [e][..0] == [];
  }

  /** One turn performs its event, if it has one, on the directory table of the store. */
  lemma StepAgrees(y: Sys, turn: Turn)
    requires Typed(y)
    ensures Replay(Directories(y.store), EventsOf(y, turn)) == Some(Directories(Step(y, turn).store))
  {
    hide TakeTurn, Typed, Perform;
    var d := Directories(y.store);
    if EffectOf(y, turn).Some? {
      var t := y.threads[turn.tid];
      TypedThread(y, turn.tid);
      TurnTouches(y.store, t, turn.choice);
      EffectAgrees(y, turn);
      if EventsOf(y, turn) != [] { ReplayOne(d, EventsOf(y, turn)[0]); }
    }
  }

  lemma TypedThread(y: Sys, i: Tid)
    requires Typed(y) && i in y.threads
    ensures StoreTyped(y.store) && ThreadTyped(y.store, y.threads[i])
  {
  }

  lemma EffectAgrees(y: Sys, turn: Turn)
    requires EffectOf(y, turn).Some? && Touches(y.store, y.threads[turn.tid], EffectOf(y, turn).value)
    ensures var d, d' := Directories(y.store), Directories(Step(y, turn).store);
            if EventsOf(y, turn) == [] then d' == d else Perform(d, EventsOf(y, turn)[0]) == Some(d')
  {
    hide TakeTurn;
    var d, d' := Directories(y.store), Directories(Step(y, turn).store);
    var f := EffectOf(y, turn).value;
    if EventsOf(y, turn) == [] {
      assert d' == d;
    } else if f.outcome.Some? && f.outcome.value.Edited? {
      var o := f.outcome.value;
      assert d' == if o.ok then d[o.dir := Apply(o.edit, d[o.dir])] else d;
    } else {
      assert d' == d[f.write.value.uid := map[]];
    }
  }

  lemma {:induction false} ReplayConcat(d: Table, a: seq<Event>, b: seq<Event>)
    requires Replay(d, a).Some?
    ensures Replay(d, a + b) == Replay(Replay(d, a).value, b)
  {
    if b == [] {
      assert a + b == a;
    } else {
      var b' := b[..|b| - 1];
      assert (a + b)[..|a + b| - 1] == a + b';
      ReplayConcat(d, a, b');
    }
  }

  // ----- every run -----

  /**
   * Whatever the interleaving, replaying the answers one after the other on the sequential table is
   * legal at each event and ends in the directories that the store holds.
   */
  lemma {:induction false} EditsAreLinearizable(y: Sys, schedule: seq<Turn>)
    requires Initial(y)
    ensures Replay(Directories(y.store), Log(y, schedule)) == Some(Directories(Run(y, schedule).store))
  {
    if schedule != [] {
      var before := schedule[..|schedule| - 1];
      EditsAreLinearizable(y, before);
      InitialIsTyped(y);
      RunTyped(y, before);
      StepAgrees(Run(y, before), schedule[|schedule| - 1]);
      ReplayConcat(Directories(y.store), Log(y, before), EventsOf(Run(y, before), schedule[|schedule| - 1]));
    }
  }

  /** A successful insertion finds its name absent at that turn and leaves every other name alone. */
  lemma InsertNeverOverwrites(y: Sys, schedule: seq<Turn>, turn: Turn, tid: Tid, dir: Uid, name: string,
                              entry: DirEntry)
    requires Initial(y)
    requires Answered(tid, dir, Insert(name, entry), true) in EventsOf(Run(y, schedule), turn)
    ensures var z := Run(y, schedule);
            var z' := Step(z, turn);
            && RefOk(z.store, DirEntry(KDirectory, dir)) && RefOk(z'.store, DirEntry(KDirectory, dir))
            && name !in z.store[dir].body.entries
            && z'.store[dir].body.entries == z.store[dir].body.entries[name := entry]
  {
    InitialIsTyped(y);
    RunTyped(y, schedule);
    var z := Run(y, schedule);
    assert Typed(z) && turn.tid in z.threads;
    TurnTouches(z.store, z.threads[turn.tid], turn.choice);
  }

  // ----- a directory cell changes only by answered edits -----

  /** Only the turn that answers a successful edit of a directory changes that directory. */
  lemma DirectoryChangesAreAnswered(y: Sys, schedule: seq<Turn>, turn: Turn, dir: Uid)
    requires Initial(y) && RefOk(Run(y, schedule).store, DirEntry(KDirectory, dir))
    requires Step(Run(y, schedule), turn).store[dir] != Run(y, schedule).store[dir]
    ensures turn.Act?
    ensures exists edit :: EventsOf(Run(y, schedule), turn) == [Answered(turn.tid, dir, edit, true)]
  {
    InitialIsTyped(y);
    RunTyped(y, schedule);
    var z := Run(y, schedule);
    TurnTouches(z.store, z.threads[turn.tid], turn.choice);
    var o := EffectOf(z, turn).value.outcome.value;
    assert EventsOf(z, turn) == [Answered(turn.tid, dir, o.edit, true)];
  }
}
