/**
 * Two-run noninterference. A run is a deterministic program that sees nothing but its answers,
 * which include its current label whenever it asks for that, taints itself or declassifies. Two runs
 * that start from stores agreeing on everything that may flow to a label proceed in lockstep while
 * their current label may flow there; once it may not, neither run can affect what was there.
 */
module Noninterference {
  import opened Wrappers
  import opened Labels
  import opened Objects
  import opened Protocol
  import opened StoreTyping
  import opened Exposure
  import opened FloatingLabel
  import opened Accountability

  // ----- a run on its own -----

  /** The next operation depends only on the answers so far. */
  type Program = seq<Outcome> -> Op

  datatype Solo = Solo(thread: Thread, store: Store, answers: seq<Outcome>)

  function ChoiceOf(x: Solo, prog: Program, coin: Uid): Choice {
    if x.thread.pc.Idle? then Begin(prog(x.answers)) else Continue(coin)
  }

  function Advance(x: Solo, prog: Program, coin: Uid): Solo {
    var f := TakeTurn(x.thread, x.store, ChoiceOf(x, prog, coin));
    Solo(f.thread, Written(x.store, f.write), if f.outcome.Some? then x.answers + [f.outcome.value] else x.answers)
  }

  /** The run after as many turns as there are coins. */
  function After(x: Solo, prog: Program, coins: seq<Uid>): Solo {
    if coins == [] then x
    else Advance(After(x, prog, coins[..|coins| - 1]), prog, coins[|coins| - 1])
  }

  ghost predicate CallsNoService(prog: Program) {
    forall h :: !prog(h).CallService?
  }

  // ----- what an observer at a label sees -----

  predicate Low(tag: Label, to: Label, p: Component) {
    CanFlowToWith(tag, to, p)
  }

  /** Same cell, or labelled cells of the same label and kind whose contents the observer must not see. */
  predicate CellsAgree(c: Cell, d: Cell, to: Label, p: Component) {
    c == d || (c.Labeled? && d.Labeled? && c.tag == d.tag && BodyKind(c.body) == BodyKind(d.body) && !Low(c.tag, to, p))
  }

  ghost predicate StoresAgree(s: Store, s': Store, to: Label, p: Component) {
    && s.Keys == s'.Keys
    && forall u | u in s :: CellsAgree(s[u], s'[u], to, p)
  }

  ghost predicate GoodSolo(x: Solo) {
    && StoreTyped(x.store) && ThreadTyped(x.store, x.thread)
    && Checked(x.thread) && EditsBelow(x.thread)
  }

  ghost predicate Lockstep(x: Solo, y: Solo, to: Label) {
    && x.thread == y.thread && x.answers == y.answers
    && StoresAgree(x.store, y.store, to, x.thread.privilege)
    && (x.thread.pc.Finished? || Low(x.thread.current, to, x.thread.privilege))
  }

  /** The run's label has left the observer, so nothing it does from here on is its business. */
  predicate Departed(x: Solo, to: Label) {
    x.thread.pc.Finished? || !Low(x.thread.current, to, x.thread.privilege)
  }

  lemma AdvanceGood(x: Solo, prog: Program, coin: Uid)
    requires GoodSolo(x)
    ensures GoodSolo(Advance(x, prog, coin)) && Evolves(x.store, Advance(x, prog, coin).store)
    ensures Advance(x, prog, coin).thread.privilege == x.thread.privilege
  {
    var c := ChoiceOf(x, prog, coin);
    ActTyped(x.store, x.thread, c);
    TurnChecked(x.store, x.thread, c);
    TurnEditsBelow(x.store, x.thread, c);
    PrivilegeIsFixed(x.thread, x.store, c);
  }

  // ----- while the label is low -----

  /** Everything a turn reads is below the label it ends with. */
  lemma ReadsAreBelow(s: Store, t: Thread, c: Choice, to: Label, u: Uid)
    requires StoreTyped(s) && ThreadTyped(s, t) && EditsBelow(t) && !CallsService(t, c)
    requires u in Reads(t, c) && u in s && s[u].Labeled?
    requires Low(TakeTurn(t, s, c).thread.current, to, t.privilege)
    ensures Low(s[u].tag, to, t.privilege)
  {
    PeakIsAbove(s, t, c);
    assert s[u].tag in TagsOf(s, Reads(t, c)) + Told(t, c) + {t.current};
    TrueIsUnit(t.privilege);
    FlowTrans(s[u].tag, Peak(s, t, c), to, DC_TRUE, t.privilege);
  }

  lemma LowTurnsMatch(s: Store, s': Store, t: Thread, c: Choice, to: Label)
    requires StoreTyped(s) && ThreadTyped(s, t) && StoreTyped(s') && ThreadTyped(s', t)
    requires EditsBelow(t) && !CallsService(t, c)
    requires StoresAgree(s, s', to, t.privilege)
    requires Low(TakeTurn(t, s, c).thread.current, to, t.privilege) || (c.Begin? && c.op.Respond?) || t.pc.Finished?
    ensures TakeTurn(t, s, c) == TakeTurn(t, s', c)
  {
    forall u | u in Reads(t, c) + Peeks(t, c) ensures Lookup(s, u) == Lookup(s', u) {
      if u in s && s[u].Labeled? && u in Reads(t, c) { ReadsAreBelow(s, t, c, to, u); }
      if u in Peeks(t, c) { PeeksAreFacetsOrUnused(s, t, c, u); }
    }
    TurnsDependOnReads(s, s', t, c);
  }

  lemma PeeksAreFacetsOrUnused(s: Store, t: Thread, c: Choice, u: Uid)
    requires ThreadTyped(s, t) && u in Peeks(t, c)
    ensures u in s && s[u].Facets?
  {
  }

  lemma SameWriteAgrees(s: Store, s': Store, w: Option<Update>, to: Label, p: Component)
    requires StoresAgree(s, s', to, p)
    ensures StoresAgree(Written(s, w), Written(s', w), to, p)
  {
  }

  // ----- the turn on which the label leaves -----

  /** The label after a turn depends only on labels, and a turn that moves it writes nothing. */
  lemma MovingTurns(s: Store, s': Store, t: Thread, c: Choice, to: Label)
    requires StoreTyped(s) && ThreadTyped(s, t) && StoreTyped(s') && ThreadTyped(s', t)
    requires EditsBelow(t) && !CallsService(t, c) && !(c.Begin? && c.op.Respond?)
    requires StoresAgree(s, s', to, t.privilege) && Low(t.current, to, t.privilege)
    ensures TakeTurn(t, s, c).thread.current == TakeTurn(t, s', c).thread.current
    ensures !Low(TakeTurn(t, s, c).thread.current, to, t.privilege) ==>
              TakeTurn(t, s, c).write.None? && TakeTurn(t, s', c).write.None?
  {
    if t.pc.Idle? && c.Begin? {
      BeginMoves(s, s', t, c.op, to);
    } else if c.Continue? && t.pc.Editing? {
      TrueIsUnit(t.privilege);
      FlowTrans(t.pc.prev.tag, t.current, to, DC_TRUE, t.privilege);
      assert s[t.pc.dir] == s'[t.pc.dir];
      EditMoves(s, t, c.coin, to);
      TurnsDependOnReads(s, s', t, c);
    } else if c.Continue? && t.pc.Resolving? {
      assert s[t.pc.target].tag == s'[t.pc.target].tag;
    } else {
      QuietTurn(s, t, c);
      QuietTurn(s', t, c);
    }
  }

  lemma BeginMoves(s: Store, s': Store, t: Thread, op: Op, to: Label)
    requires StoreTyped(s) && ThreadTyped(s, t) && StoreTyped(s') && ThreadTyped(s', t) && t.pc.Idle?
    requires StoresAgree(s, s', to, t.privilege) && !op.CallService? && !op.Respond?
    ensures BeginOp(t, s, op).thread.current == BeginOp(t, s', op).thread.current
    ensures BeginOp(t, s, op).write.None? && BeginOp(t, s', op).write.None?
  {
    BeginWritesNothing(s, t, op);
    BeginWritesNothing(s', t, op);
    if op.Taint? || op.TakeReply? {
    } else if op.ListFacets? {
      assert op.fd in t.fds && t.fds[op.fd].kind.KFaceted? ==> s[t.fds[op.fd].uid] == s'[t.fds[op.fd].uid];
    } else {
      BeginRaises(s, t, op);
      BeginRaises(s', t, op);
      assert Peak(s, t, Begin(op)) == BeginOp(t, s, op).thread.current;
      assert Peak(s', t, Begin(op)) == BeginOp(t, s', op).thread.current;
      if Reads(t, Begin(op)) != {} { assert s[t.fds[op.fd].uid].tag == s'[t.fds[op.fd].uid].tag; }
    }
  }

  lemma EditMoves(s: Store, t: Thread, coin: Uid, to: Label)
    requires StoreTyped(s) && ThreadTyped(s, t) && EditsBelow(t) && t.pc.Editing?
    requires Low(t.current, to, t.privilege)
    ensures ContinueOp(t, s, coin).write.None? || ContinueOp(t, s, coin).thread.current == t.current
  {
  }

  lemma LockstepTurn(x: Solo, y: Solo, prog: Program, coin: Uid, to: Label)
    requires GoodSolo(x) && GoodSolo(y) && CallsNoService(prog) && Lockstep(x, y, to)
    ensures var x', y' := Advance(x, prog, coin), Advance(y, prog, coin);
            || Lockstep(x', y', to)
            || (Departed(x', to) && Departed(y', to) && x'.store == x.store && y'.store == y.store)
  {
    var s, s', t, c := x.store, y.store, x.thread, ChoiceOf(x, prog, coin);
    PrivilegeIsFixed(t, s, c);
    PrivilegeIsFixed(t, s', c);
    if t.pc.Finished? || (c.Begin? && c.op.Respond?) {
      LowTurnsMatch(s, s', t, c, to);
      SameWriteAgrees(s, s', TakeTurn(t, s, c).write, to, t.privilege);
    } else {
      MovingTurns(s, s', t, c, to);
      if Low(TakeTurn(t, s, c).thread.current, to, t.privilege) {
        LowTurnsMatch(s, s', t, c, to);
        SameWriteAgrees(s, s', TakeTurn(t, s, c).write, to, t.privilege);
      }
    }
  }

  // ----- after the label has left -----

  /** A departed run stays departed and changes no cell the observer can see. */
  lemma DepartedTurn(x: Solo, prog: Program, coin: Uid, to: Label, u: Uid)
    requires GoodSolo(x) && CallsNoService(prog) && Departed(x, to)
    requires u in x.store && x.store[u].Labeled? && Low(x.store[u].tag, to, x.thread.privilege)
    ensures var x' := Advance(x, prog, coin);
            Departed(x', to) && u in x'.store && x'.store[u] == x.store[u]
  {
    var s, t, c := x.store, x.thread, ChoiceOf(x, prog, coin);
    var f := TakeTurn(t, s, c);
    PrivilegeIsFixed(t, s, c);
    if !t.pc.Finished? {
      if !f.thread.pc.Finished? && Low(f.thread.current, to, t.privilege) {
        LabelsOnlyRise(s, t, c, to);
      }
      if f.write.Some? && f.write.value.uid == u {
        HighWrites(s, t, c, u);
        FlowTransSame(t.current, s[u].tag, to, t.privilege);
      }
    }
  }

  lemma HighWrites(s: Store, t: Thread, c: Choice, u: Uid)
    requires StoreTyped(s) && ThreadTyped(s, t) && Checked(t)
    requires u in s && s[u].Labeled? && TakeTurn(t, s, c).write.Some? && TakeTurn(t, s, c).write.value.uid == u
    ensures CanFlowToWith(t.current, s[u].tag, t.privilege)
  {
    if c.Begin? && t.pc.Idle? { BeginWritesNothing(s, t, c.op); }
  }

  // ----- whole runs -----

  lemma {:induction false} AfterGood(x: Solo, prog: Program, coins: seq<Uid>)
    requires GoodSolo(x)
    ensures GoodSolo(After(x, prog, coins)) && After(x, prog, coins).thread.privilege == x.thread.privilege
  {
    if coins != [] {
      AfterGood(x, prog, coins[..|coins| - 1]);
      AdvanceGood(After(x, prog, coins[..|coins| - 1]), prog, coins[|coins| - 1]);
    }
  }

  /** The observer's cells of the store `base`. */
  ghost predicate AgreeOn(base: Store, s: Store, s': Store, to: Label, p: Component) {
    forall u | u in base && base[u].Labeled? && Low(base[u].tag, to, p) ::
      u in s && u in s' && s[u] == s'[u] && s[u].Labeled? && s[u].tag == base[u].tag
  }

  ghost predicate InStepAt(x: Solo, y: Solo, prog: Program, coins: seq<Uid>, to: Label, k: nat)
    requires k <= |coins|
  {
    Lockstep(After(x, prog, coins[..k]), After(y, prog, coins[..k]), to)
  }

  /** At turn `k` both runs have departed and agree on the observer's cells that existed at turn `d`. */
  ghost predicate ApartAt(x: Solo, y: Solo, prog: Program, coins: seq<Uid>, to: Label, d: nat, k: nat)
    requires d <= k <= |coins|
  {
    && Departed(After(x, prog, coins[..k]), to) && Departed(After(y, prog, coins[..k]), to)
    && AgreeOn(After(x, prog, coins[..d]).store, After(x, prog, coins[..k]).store, After(y, prog, coins[..k]).store,
               to, x.thread.privilege)
  }

  /** The runs are in lockstep for `d` turns; from turn `d` on, if there is one, they are apart. */
  ghost predicate Separated(x: Solo, y: Solo, prog: Program, coins: seq<Uid>, to: Label, d: nat) {
    && (forall k: nat | k < d && k <= |coins| :: InStepAt(x, y, prog, coins, to, k))
    && (forall k: nat | d <= k <= |coins| :: ApartAt(x, y, prog, coins, to, d, k))
  }

  /**
   * The label leaves at some turn `d`, or never (`d == |coins| + 1`): before it the runs are in
   * lockstep, with equal answers, labels and visible cells; from it on they agree for ever on every
   * cell the observer could see at that turn.
   */
  lemma {:induction false} TwoRuns(x: Solo, y: Solo, prog: Program, coins: seq<Uid>, to: Label) returns (d: nat)
    requires GoodSolo(x) && GoodSolo(y) && CallsNoService(prog) && Lockstep(x, y, to)
    ensures d <= |coins| + 1 && Separated(x, y, prog, coins, to, d)
  {
    hide GoodSolo, CallsNoService, AgreeOn, Departed, Advance;
    if coins == [] {
      d := 1;
    } else {
      var before := coins[..|coins| - 1];
      d := TwoRuns(x, y, prog, before, to);
      if d == |before| + 1 {
        assert InStepAt(x, y, prog, before, to, |before|);
        var more := LeaveOrStay(x, y, prog, coins, to);
        d := if more then d + 1 else d;
        forall k: nat | k < |coins| ensures InStepAt(x, y, prog, coins, to, k) {
          assert InStepAt(x, y, prog, before, to, k) && before[..k] == coins[..k];
        }
      } else {
        assert ApartAt(x, y, prog, before, to, d, |before|);
        ApartOnce(x, y, prog, coins, to, d);
        forall k: nat | k < d ensures InStepAt(x, y, prog, coins, to, k) {
          assert InStepAt(x, y, prog, before, to, k) && before[..k] == coins[..k];
        }
        forall k: nat | d <= k < |coins| ensures ApartAt(x, y, prog, coins, to, d, k) {
          assert ApartAt(x, y, prog, before, to, d, k) && before[..k] == coins[..k] && before[..d] == coins[..d];
        }
      }
    }
  }

  lemma LeaveOrStay(x: Solo, y: Solo, prog: Program, coins: seq<Uid>, to: Label) returns (stay: bool)
    requires GoodSolo(x) && GoodSolo(y) && CallsNoService(prog) && coins != []
    requires InStepAt(x, y, prog, coins[..|coins| - 1], to, |coins| - 1)
    requires x.thread.privilege == y.thread.privilege
    ensures if stay then InStepAt(x, y, prog, coins, to, |coins|) else ApartAt(x, y, prog, coins, to, |coins|, |coins|)
  {
    var before := coins[..|coins| - 1];
    assert before[..|before|] == before && coins[..|coins|] == coins;
    AfterGood(x, prog, before);
    AfterGood(y, prog, before);
    LockstepTurn(After(x, prog, before), After(y, prog, before), prog, coins[|coins| - 1], to);
    stay := Lockstep(After(x, prog, coins), After(y, prog, coins), to);
  }

  lemma ApartOnce(x: Solo, y: Solo, prog: Program, coins: seq<Uid>, to: Label, d: nat)
    requires GoodSolo(x) && GoodSolo(y) && CallsNoService(prog) && coins != [] && d < |coins|
    requires ApartAt(x, y, prog, coins[..|coins| - 1], to, d, |coins| - 1)
    requires x.thread.privilege == y.thread.privilege
    ensures ApartAt(x, y, prog, coins, to, d, |coins|)
  {
    var before := coins[..|coins| - 1];
    assert before[..|before|] == before && coins[..|coins|] == coins && before[..d] == coins[..d];
    AfterGood(x, prog, before);
    AfterGood(y, prog, before);
    StayApart(After(x, prog, before), After(y, prog, before), prog, coins[|coins| - 1], to,
              After(x, prog, coins[..d]).store, x.thread.privilege);
  }

  lemma StayApart(x: Solo, y: Solo, prog: Program, coin: Uid, to: Label, base: Store, p: Component)
    requires GoodSolo(x) && GoodSolo(y) && CallsNoService(prog)
    requires Departed(x, to) && Departed(y, to) && x.thread.privilege == y.thread.privilege == p
    requires AgreeOn(base, x.store, y.store, to, p)
    ensures Departed(Advance(x, prog, coin), to) && Departed(Advance(y, prog, coin), to)
    ensures AgreeOn(base, Advance(x, prog, coin).store, Advance(y, prog, coin).store, to, p)
  {
    forall u | u in base && base[u].Labeled? && Low(base[u].tag, to, p)
      ensures var s, s' := Advance(x, prog, coin).store, Advance(y, prog, coin).store;
              u in s && u in s' && s[u] == s'[u] && s[u].Labeled? && s[u].tag == base[u].tag
    {
      DepartedTurn(x, prog, coin, to, u);
      DepartedTurn(y, prog, coin, to, u);
    }
    StayDeparted(x, prog, coin, to);
    StayDeparted(y, prog, coin, to);
  }

  lemma StayDeparted(x: Solo, prog: Program, coin: Uid, to: Label)
    requires GoodSolo(x) && CallsNoService(prog) && Departed(x, to)
    ensures Departed(Advance(x, prog, coin), to)
  {
    var s, t, c := x.store, x.thread, ChoiceOf(x, prog, coin);
    var f := TakeTurn(t, s, c);
    PrivilegeIsFixed(t, s, c);
    if !t.pc.Finished? && !f.thread.pc.Finished? && Low(f.thread.current, to, t.privilege) {
      LabelsOnlyRise(s, t, c, to);
    }
  }
}
