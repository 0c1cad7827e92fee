/**
 * Gate resolution over a store that stands still: the loop computes the recursive fold of the chain
 * of redirects; it ends exactly when the chain never repeats, and then within the number of gates;
 * and exactly those re-pointings that close a loop spoil termination.
 */
module GateResolution {
  import opened Wrappers
  import opened Labels
  import opened Objects
  import opened Protocol
  import opened StoreTyping

  // ----- the chain of a gate -----

  function Target(s: Store, u: Uid): Option<Uid> {
    if u in s && Fits(s[u], KGate) && s[u].body.gate.Redirect? then Some(s[u].body.gate.target) else None
  }

  /** The gate `i` redirects away from `u`, if the chain is that long. */
  function NodeAt(s: Store, u: Uid, i: nat): Option<Uid>
    decreases i
  {
    if i == 0 then Some(u)
    else if Target(s, u).None? then None
    else NodeAt(s, Target(s, u).value, i - 1)
  }

  /** The chain of `u` reaches a direct gate within `n` redirects. */
  predicate Ends(s: Store, u: Uid, n: nat) {
    NodeAt(s, u, n + 1).None?
  }

  ghost predicate Terminates(s: Store, u: Uid) {
    exists n: nat :: Ends(s, u, n)
  }

  ghost predicate Repeats(s: Store, u: Uid) {
    exists i: nat, j: nat :: i < j && NodeAt(s, u, i).Some? && NodeAt(s, u, i) == NodeAt(s, u, j)
  }

  function Gates(s: Store): set<Uid> {
    set u | u in s && Fits(s[u], KGate)
  }

  lemma {:induction false} NodeSplit(s: Store, u: Uid, i: nat, j: nat)
    requires NodeAt(s, u, i).Some?
    ensures NodeAt(s, u, i + j) == NodeAt(s, NodeAt(s, u, i).value, j)
    decreases i
  {
    if i > 0 { NodeSplit(s, Target(s, u).value, i - 1, j); }
  }

  lemma {:induction false} EndedStaysEnded(s: Store, u: Uid, i: nat, j: nat)
    requires i <= j && NodeAt(s, u, i).None?
    ensures NodeAt(s, u, j).None?
    decreases i
  {
    if Target(s, u).Some? { EndedStaysEnded(s, Target(s, u).value, i - 1, j - 1); }
  }

  // ----- termination -----

  lemma {:induction false} LoopNeverEnds(s: Store, v: Uid, period: nat, n: nat)
    requires period > 0 && NodeAt(s, v, period) == Some(v)
    ensures NodeAt(s, v, n).Some?
    decreases n
  {
    if n < period {
      if NodeAt(s, v, n).None? { EndedStaysEnded(s, v, n, period); }
    } else {
      NodeSplit(s, v, period, n - period);
      LoopNeverEnds(s, v, period, n - period);
    }
  }

  lemma RepeatsNeverEnds(s: Store, u: Uid, n: nat)
    requires Repeats(s, u)
    ensures !Ends(s, u, n)
  {
    var i: nat, j: nat :| i < j && NodeAt(s, u, i).Some? && NodeAt(s, u, i) == NodeAt(s, u, j);
    var v := NodeAt(s, u, i).value;
    NodeSplit(s, u, i, j - i);
    LoopNeverEnds(s, v, j - i, n + 1);
    NodeSplit(s, u, i, n + 1);
    if Ends(s, u, n) { EndedStaysEnded(s, u, n + 1, i + n + 1); }
  }

  /** Distinct members of a finite set are no more than the set has. */
  lemma {:induction false} Pigeonhole<T>(xs: seq<T>, all: set<T>)
    requires forall i | 0 <= i < |xs| :: xs[i] in all
    requires forall i, j | 0 <= i < j < |xs| :: xs[i] != xs[j]
    ensures |xs| <= |all|
  {
    if xs != [] {
      var last := xs[|xs| - 1];
      Pigeonhole(xs[..|xs| - 1], all - {last});
    }
  }

  /** On a typed store every node of a gate's chain is a gate. */
  lemma {:induction false} NodesAreGates(s: Store, u: Uid, i: nat)
    requires StoreTyped(s) && u in Gates(s)
    ensures NodeAt(s, u, i).Some? ==> NodeAt(s, u, i).value in Gates(s)
    decreases i
  {
    if i > 0 && Target(s, u).Some? {
      assert Refers(s[u], DirEntry(KGate, s[u].body.gate.target));
      NodesAreGates(s, Target(s, u).value, i - 1);
    }
  }

  lemma LongChainsRepeat(s: Store, u: Uid)
    requires StoreTyped(s) && u in Gates(s) && NodeAt(s, u, |Gates(s)|).Some?
    ensures Repeats(s, u)
  {
    var n := |Gates(s)|;
    forall i: nat | i <= n ensures NodeAt(s, u, i).Some? && NodeAt(s, u, i).value in Gates(s) {
      if NodeAt(s, u, i).None? { EndedStaysEnded(s, u, i, n); }
      NodesAreGates(s, u, i);
    }
    var xs := seq(n + 1, (i: int) requires 0 <= i <= n => NodeAt(s, u, i).value);
    if !Repeats(s, u) {
      forall i: nat, j: nat | i < j <= n ensures xs[i] != xs[j] {
        assert NodeAt(s, u, i) != NodeAt(s, u, j);
      }
      Pigeonhole(xs, Gates(s));
      assert false;
    }
  }

  /** Resolution ends exactly when the chain has no repetition, and then within the number of gates. */
  lemma TerminatesIffAcyclic(s: Store, u: Uid)
    requires StoreTyped(s) && u in Gates(s)
    ensures Terminates(s, u) <==> !Repeats(s, u)
    ensures Terminates(s, u) <==> Ends(s, u, |Gates(s)| - 1)
  {
    if Repeats(s, u) {
      forall n: nat ensures !Ends(s, u, n) { RepeatsNeverEnds(s, u, n); }
    } else {
      if NodeAt(s, u, |Gates(s)|).Some? { LongChainsRepeat(s, u); }
      assert Ends(s, u, |Gates(s)| - 1);
    }
  }

  // ----- what resolution computes -----

  /** The recursive meaning of a chain: every gate adds its authority to that of the rest. */
  function Total(s: Store, u: Uid, n: nat): Authority
    requires u in Gates(s) && Ends(s, u, n) && StoreTyped(s)
    decreases n
  {
    var g := s[u].body.gate;
    if g.Direct? then Authority(g.privilege, g.clearance, DC_TRUE)
    else
      assert Refers(s[u], DirEntry(KGate, g.target)) && NodeAt(s, u, 1) == Some(g.target);
      var rest := Total(s, g.target, n - 1);
      Authority(And(g.privilege, rest.privilege), And(g.clearance, rest.clearance), And(g.declassify, rest.declassify))
  }

  function FinalCode(s: Store, u: Uid, n: nat): Function
    requires u in Gates(s) && Ends(s, u, n) && StoreTyped(s)
    decreases n
  {
    var g := s[u].body.gate;
    if g.Direct? then g.code
    else
      assert Refers(s[u], DirEntry(KGate, g.target)) && NodeAt(s, u, 1) == Some(g.target);
      FinalCode(s, g.target, n - 1)
  }

  /** The label after reading every gate of the chain. */
  function TaintOfChain(s: Store, u: Uid, n: nat, current: Label): Label
    requires u in Gates(s) && Ends(s, u, n) && StoreTyped(s)
    decreases n
  {
    var g := s[u].body.gate;
    if g.Direct? then Raise(s[u].tag, current)
    else
      assert Refers(s[u], DirEntry(KGate, g.target)) && NodeAt(s, u, 1) == Some(g.target);
      TaintOfChain(s, g.target, n - 1, Raise(s[u].tag, current))
  }

  function Plus(a: Authority, b: Authority): Authority {
    Authority(And(a.privilege, b.privilege), And(a.clearance, b.clearance), And(a.declassify, b.declassify))
  }

  lemma AndAssoc(a: Component, b: Component, c: Component)
    ensures And(And(a, b), c) == And(a, And(b, c))
  {
    if a.DCFormula? && b.DCFormula? && c.DCFormula? {
      assert (a.clauses + b.clauses) + c.clauses == a.clauses + (b.clauses + c.clauses);
    }
  }

  lemma PlusAssoc(a: Authority, b: Authority, c: Authority)
    ensures Plus(Plus(a, b), c) == Plus(a, Plus(b, c))
  {
    AndAssoc(a.privilege, b.privilege, c.privilege);
    AndAssoc(a.clearance, b.clearance, c.clearance);
    AndAssoc(a.declassify, b.declassify, c.declassify);
  }

  lemma PlusUnit(a: Authority)
    ensures Plus(NO_AUTHORITY, a) == a == Plus(a, NO_AUTHORITY)
  {
    TrueIsUnit(a.privilege);
    TrueIsUnit(a.clearance);
    TrueIsUnit(a.declassify);
  }

  /** The turns of the resolution loop, at most `n` after the first. */
  function ResolveLoop(t: Thread, s: Store, u: Uid, a: Authority, n: nat): Effect
    decreases n
  {
    var f := ResolveAt(t, s, u, a);
    if f.thread.pc.Resolving? && n > 0 then ResolveLoop(f.thread, s, f.thread.pc.target, f.thread.pc.authority, n - 1)
    else f
  }

  /**
   * The accumulator loop equals the recursive fold: it answers with the authority collected before
   * plus the total of the chain, after tainting the thread with every gate on it.
   */
  lemma {:induction false} LoopIsFold(t: Thread, s: Store, u: Uid, a: Authority, n: nat)
    requires StoreTyped(s) && u in Gates(s) && Ends(s, u, n)
    ensures var f := ResolveLoop(t, s, u, a, n);
            var sum := Plus(a, Total(s, u, n));
            && f.thread.current == TaintOfChain(s, u, n, t.current) && f.thread.pc.Idle?
            && f.outcome
               == Some(if Implies(t.privilege, sum.clearance) then Resolved(sum, FinalCode(s, u, n)) else Refused)
    decreases n
  {
    var g := s[u].body.gate;
    if g.Direct? {
      TrueIsUnit(a.declassify);
    } else {
      assert Refers(s[u], DirEntry(KGate, g.target)) && NodeAt(s, u, 1) == Some(g.target);
      var f := ResolveAt(t, s, u, a);
      LoopIsFold(f.thread, s, g.target, f.thread.pc.authority, n - 1);
      PlusAssoc(a, Authority(g.privilege, g.clearance, g.declassify), Total(s, g.target, n - 1));
    }
  }

  /** From scratch the loop answers exactly the total of the chain, if the run meets its clearance. */
  lemma ResolutionIsTheTotal(t: Thread, s: Store, u: Uid, n: nat)
    requires StoreTyped(s) && u in Gates(s) && Ends(s, u, n)
    ensures ResolveLoop(t, s, u, NO_AUTHORITY, n).outcome
            == Some(if Implies(t.privilege, Total(s, u, n).clearance) then Resolved(Total(s, u, n), FinalCode(s, u, n))
                    else Refused)
  {
    LoopIsFold(t, s, u, NO_AUTHORITY, n);
    PlusUnit(Total(s, u, n));
  }

  /** Without an end in sight the loop is still resolving, after any number of turns. */
  lemma {:induction false} LoopGoesOn(t: Thread, s: Store, u: Uid, a: Authority, n: nat)
    requires StoreTyped(s) && u in Gates(s) && !Ends(s, u, n)
    ensures ResolveLoop(t, s, u, a, n).thread.pc.Resolving? && ResolveLoop(t, s, u, a, n).outcome.None?
    decreases n
  {
    var g := s[u].body.gate;
    assert Refers(s[u], DirEntry(KGate, g.target));
    if n > 0 {
      var f := ResolveAt(t, s, u, a);
      LoopGoesOn(f.thread, s, g.target, f.thread.pc.authority, n - 1);
    }
  }

  /** `to_invokable` answers, within one turn per gate, exactly when the chain is acyclic. */
  lemma ResolutionAnswersIffAcyclic(t: Thread, s: Store, u: Uid)
    requires StoreTyped(s) && u in Gates(s)
    ensures !Repeats(s, u) <==> ResolveLoop(t, s, u, NO_AUTHORITY, |Gates(s)| - 1).outcome.Some?
    ensures Repeats(s, u) ==> forall n: nat :: ResolveLoop(t, s, u, NO_AUTHORITY, n).outcome.None?
  {
    TerminatesIffAcyclic(s, u);
    if Repeats(s, u) {
      forall n: nat ensures ResolveLoop(t, s, u, NO_AUTHORITY, n).outcome.None? {
        RepeatsNeverEnds(s, u, n);
        LoopGoesOn(t, s, u, NO_AUTHORITY, n);
      }
    } else {
      LoopIsFold(t, s, u, NO_AUTHORITY, |Gates(s)| - 1);
    }
  }

  // ----- creating and re-pointing gates -----

  ghost predicate AllTerminate(s: Store) {
    forall u | u in Gates(s) :: Terminates(s, u)
  }

  ghost predicate Reaches(s: Store, u: Uid, v: Uid) {
    exists i: nat :: NodeAt(s, u, i) == Some(v)
  }

  /** A chain that does not meet `g` does not notice what is written there. */
  lemma {:induction false} ChainFrame(s: Store, g: Uid, c: Cell, u: Uid, i: nat)
    requires forall k: nat | k < i :: NodeAt(s, u, k) != Some(g)
    ensures NodeAt(s[g := c], u, i) == NodeAt(s, u, i)
    decreases i
  {
    if i > 0 {
      assert NodeAt(s, u, 0) != Some(g);
      if Target(s, u).Some? {
        forall k: nat | k < i - 1 ensures NodeAt(s, Target(s, u).value, k) != Some(g) {
          assert NodeAt(s, u, k + 1) != Some(g);
        }
        ChainFrame(s, g, c, Target(s, u).value, i - 1);
      }
    }
  }

  /** A terminating chain still terminates after a write to `g`, if the chain of `g` does. */
  lemma TerminatesAfterWrite(s: Store, g: Uid, c: Cell, u: Uid)
    requires Terminates(s, u) && Terminates(s[g := c], g)
    ensures Terminates(s[g := c], u)
  {
    var s' := s[g := c];
    var n: nat :| Ends(s, u, n);
    if k: nat :| k <= n && NodeAt(s, u, k) == Some(g) {
      var first := FirstMeeting(s, u, g, k);
      ChainFrame(s, g, c, u, first);
      var m: nat :| Ends(s', g, m);
      NodeSplit(s', u, first, m + 1);
      assert Ends(s', u, first + m);
    } else {
      ChainFrame(s, g, c, u, n + 1);
      assert Ends(s', u, n);
    }
  }

  lemma FirstMeeting(s: Store, u: Uid, g: Uid, k: nat) returns (first: nat)
    requires NodeAt(s, u, k) == Some(g)
    ensures first <= k && NodeAt(s, u, first) == Some(g)
    ensures forall j: nat | j < first :: NodeAt(s, u, j) != Some(g)
    decreases k
  {
    if j: nat :| j < k && NodeAt(s, u, j) == Some(g) {
      first := FirstMeeting(s, u, g, j);
    } else {
      first := k;
    }
  }

  /**
   * Writing a redirect to `v` into `g` keeps every chain terminating exactly when `v` did not reach
   * `g`. A gate just created is reached by nothing, so creation always does.
   */
  lemma RepointingIsSafeIff(s: Store, g: Uid, c: Cell, v: Uid)
    requires AllTerminate(s) && v in Gates(s)
    requires Fits(c, KGate) && c.body.gate.Redirect? && c.body.gate.target == v
    ensures AllTerminate(s[g := c]) <==> !Reaches(s, v, g)
  {
    var s' := s[g := c];
    assert Target(s', g) == Some(v);
    if Reaches(s, v, g) {
      var k: nat :| NodeAt(s, v, k) == Some(g);
      var first := FirstMeeting(s, v, g, k);
      ChainFrame(s, g, c, v, first);
      assert NodeAt(s', g, first + 1) == Some(g);
      forall n: nat ensures !Ends(s', g, n) { LoopNeverEnds(s', g, first + 1, n + 1); }
      assert g in Gates(s');
    } else {
      var n: nat :| Ends(s, v, n);
      ChainFrame(s, g, c, v, n + 1);
      assert Ends(s', g, n + 1);
      forall u | u in Gates(s') ensures Terminates(s', u) {
        if u != g { TerminatesAfterWrite(s, g, c, u); }
      }
    }
  }

  /** Nothing leads to a cell that is not a gate yet, so a new redirect gate closes no loop. */
  lemma CreationKeepsTermination(s: Store, g: Uid, c: Cell)
    requires StoreTyped(s) && AllTerminate(s) && g !in Gates(s) && Fits(c, KGate)
    requires c.body.gate.Redirect? ==> c.body.gate.target in Gates(s)
    ensures AllTerminate(s[g := c])
  {
    if c.body.gate.Redirect? {
      var v := c.body.gate.target;
      forall i: nat ensures NodeAt(s, v, i) != Some(g) { NodesAreGates(s, v, i); }
      RepointingIsSafeIff(s, g, c, v);
    } else {
      DirectKeepsTermination(s, g, c);
    }
  }

  lemma DirectKeepsTermination(s: Store, g: Uid, c: Cell)
    requires AllTerminate(s) && Fits(c, KGate) && c.body.gate.Direct?
    ensures AllTerminate(s[g := c])
  {
    var s' := s[g := c];
    assert Ends(s', g, 0);
    forall u | u in Gates(s') ensures Terminates(s', u) {
      if u != g { TerminatesAfterWrite(s, g, c, u); }
    }
  }

  lemma OtherWritesKeepTermination(s: Store, g: Uid, c: Cell)
    requires StoreTyped(s) && AllTerminate(s) && g !in Gates(s) && !Fits(c, KGate)
    ensures AllTerminate(s[g := c])
  {
    var s' := s[g := c];
    forall u | u in Gates(s') ensures Terminates(s', u) {
      assert u != g && u in Gates(s);
      var n: nat :| Ends(s, u, n);
      forall k: nat ensures NodeAt(s, u, k) != Some(g) { NodesAreGates(s, u, k); }
      ChainFrame(s, g, c, u, n + 1);
      assert Ends(s', u, n);
    }
  }

  /** The turn that is about to write redirects gate `t.pc.uid` to something that leads back to it. */
  ghost predicate ClosesLoop(s: Store, t: Thread, c: Choice) {
    && c.Continue? && t.pc.Replacing? && Fits(t.pc.cell, KGate) && t.pc.cell.body.gate.Redirect?
    && Reaches(s, t.pc.cell.body.gate.target, t.pc.uid)
  }

  /** Of all turns of all threads, exactly those that re-point a gate onto its own chain spoil termination. */
  lemma OnlyLoopsSpoilTermination(s: Store, t: Thread, c: Choice)
    requires StoreTyped(s) && ThreadTyped(s, t) && AllTerminate(s)
    ensures AllTerminate(Written(s, TakeTurn(t, s, c).write)) <==> !ClosesLoop(s, t, c)
  {
    if c.Continue? {
      match t.pc
      case Editing(dir, _, _, proposed) => OtherWritesKeepTermination(s, dir, proposed);
      case Reserving(_, _) => if c.coin !in s { OtherWritesKeepTermination(s, c.coin, Reserved); }
      case Filling(uid, cell, _) =>
        if Fits(cell, KGate) {
          assert cell.body.gate.Redirect? ==> Refers(cell, DirEntry(KGate, cell.body.gate.target));
          CreationKeepsTermination(s, uid, cell);
        } else {
          OtherWritesKeepTermination(s, uid, cell);
        }
      case Appending(faceted, facet, seen, made) =>
        OtherWritesKeepTermination(s, faceted, Facets(seen.value + [Facet(facet, made)]));
      case Replacing(uid, cell, _) =>
        if !Fits(cell, KGate) {
          OtherWritesKeepTermination(s, uid, cell);
        } else if cell.body.gate.Direct? {
          DirectKeepsTermination(s, uid, cell);
        } else {
          assert Refers(cell, DirEntry(KGate, cell.body.gate.target));
          RepointingIsSafeIff(s, uid, cell, cell.body.gate.target);
        }
      case _ =>
    } else {
      BeginOnlyReads(t, s, c.op);
    }
  }

  // ----- whole runs -----

  /** The turn closes a loop in this state. */
  ghost predicate TurnCloses(z: Sys, turn: Turn) {
    turn.Act? && turn.tid in z.threads && ClosesLoop(z.store, z.threads[turn.tid], turn.choice)
  }

  ghost predicate NeverCloses(y: Sys, schedule: seq<Turn>) {
    schedule != [] ==>
      && NeverCloses(y, schedule[..|schedule| - 1])
      && !TurnCloses(Run(y, schedule[..|schedule| - 1]), schedule[|schedule| - 1])
  }

  /** Every chain ends, at the end of the schedule and at every moment before. */
  ghost predicate AlwaysTerminates(y: Sys, schedule: seq<Turn>) {
    && AllTerminate(Run(y, schedule).store)
    && (schedule != [] ==> AlwaysTerminates(y, schedule[..|schedule| - 1]))
  }

  lemma StepTerminates(z: Sys, turn: Turn)
    requires Typed(z) && AllTerminate(z.store)
    ensures AllTerminate(Step(z, turn).store) <==> !TurnCloses(z, turn)
  {
    hide TakeTurn, AllTerminate, ClosesLoop;
    if turn.Act? && turn.tid in z.threads {
      OnlyLoopsSpoilTermination(z.store, z.threads[turn.tid], turn.choice);
    }
  }

  /** Every chain ends at every moment of a run exactly when no turn of the run closes a loop. */
  lemma {:induction false} RunsTerminateIff(y: Sys, schedule: seq<Turn>)
    requires Initial(y) && AllTerminate(y.store)
    ensures AlwaysTerminates(y, schedule) <==> NeverCloses(y, schedule)
  {
    hide AllTerminate, TurnCloses, Initial;
    if schedule != [] {
      var before := schedule[..|schedule| - 1];
      RunsTerminateIff(y, before);
      InitialIsTyped(y);
      RunTyped(y, before);
      if AlwaysTerminates(y, before) { StepTerminates(Run(y, before), schedule[|schedule| - 1]); }
    }
  }

  lemma BeginOnlyReads(t: Thread, s: Store, op: Op)
    ensures BeginOp(t, s, op).write.None?
  {
  }
}
