/**
 * Buckle labels: the label algebra behind every check of the reference monitor.
 *
 * A component is a monotone formula in conjunctive normal form over principals. A principal is a
 * sequence of tokens, and a principal acts for every principal it delegated to, that is, for every
 * extension of its own token sequence. `Implies` is the syntactic test that a monitor computes;
 * `ImpliesIsEntailment` shows that it is exactly logical entailment over the delegation hierarchy,
 * and the other modules use only the laws that follow from it.
 */
module Labels {

  type Principal = seq<string>
  type Clause = set<Principal>

  datatype Component = DCFalse | DCFormula(clauses: set<Clause>)

  datatype Label = Label(secrecy: Component, integrity: Component)

  const DC_TRUE := DCFormula({})
  const PUBLIC := Label(DC_TRUE, DC_TRUE)
  const ROOT_LABEL := Label(DC_TRUE, DCFalse)

  // ----- operations -----

  /** `DCFalse` is the conjunction that holds the empty disjunction. */
  function Clauses(c: Component): set<Clause> {
    if c.DCFalse? then {{}} else c.clauses
  }

  /** A principal acts for itself and for everything it delegated to. */
  predicate ActsFor(p: Principal, q: Principal) {
    p <= q
  }

  predicate ActsForSome(p: Principal, d: Clause) {
    exists q :: q in d && ActsFor(p, q)
  }

  predicate ClauseImplies(c: Clause, d: Clause) {
    forall p | p in c :: ActsForSome(p, d)
  }

  predicate Implies(a: Component, b: Component) {
    forall d | d in Clauses(b) :: exists c :: c in Clauses(a) && ClauseImplies(c, d)
  }

  function And(a: Component, b: Component): Component {
    if a.DCFalse? || b.DCFalse? then DCFalse else DCFormula(a.clauses + b.clauses)
  }

  function Or(a: Component, b: Component): Component {
    if a.DCFalse? then b
    else if b.DCFalse? then a
    else DCFormula(set c, d | c in a.clauses && d in b.clauses :: c + d)
  }

  function Lub(a: Label, b: Label): Label {
    Label(And(a.secrecy, b.secrecy), Or(a.integrity, b.integrity))
  }

  predicate CanFlowTo(a: Label, b: Label) {
    Implies(b.secrecy, a.secrecy) && Implies(a.integrity, b.integrity)
  }

  predicate CanFlowToWith(a: Label, b: Label, p: Component) {
    Implies(And(b.secrecy, p), a.secrecy) && Implies(And(a.integrity, p), b.integrity)
  }

  /** Drops the secrecy clauses that `p` can speak for and endorses the integrity with `p`. */
  function Downgrade(l: Label, p: Component): Label {
    Label(
      if l.secrecy.DCFalse? then (if Implies(p, DCFalse) then DC_TRUE else DCFalse)
      else DCFormula(set c | c in l.secrecy.clauses && !Implies(p, DCFormula({c}))),
      And(p, l.integrity))
  }

  // ----- meaning -----

  /** The principals whose authority is present; authority includes everything delegated. */
  type World = iset<Principal>

  ghost predicate Delegates(w: World) {
    forall p, q :: p in w && ActsFor(p, q) ==> q in w
  }

  ghost predicate Holds(w: World, d: Clause) {
    exists p :: p in d && p in w
  }

  ghost predicate Sat(w: World, c: Component) {
    forall d | d in Clauses(c) :: Holds(w, d)
  }

  ghost predicate Entails(a: Component, b: Component) {
    forall w: World | Delegates(w) && Sat(w, a) :: Sat(w, b)
  }

  lemma ImpliesIsEntailment(a: Component, b: Component)
    ensures Implies(a, b) <==> Entails(a, b)
  {
    if Implies(a, b) {
      forall w: World | Delegates(w) && Sat(w, a) ensures Sat(w, b) {
        ImpliesIsSound(a, b, w);
      }
    } else {
      var d :| d in Clauses(b) && forall c | c in Clauses(a) :: !ClauseImplies(c, d);
      var w := Refuting(d);
      forall c | c in Clauses(a) ensures Holds(w, c) {
        var p :| p in c && !ActsForSome(p, d);
        assert p in w;
      }
      assert !Holds(w, d);
    }
  }

  lemma ImpliesIsSound(a: Component, b: Component, w: World)
    requires Implies(a, b) && Delegates(w) && Sat(w, a)
    ensures Sat(w, b)
  {
    forall d | d in Clauses(b) ensures Holds(w, d) {
      var c :| c in Clauses(a) && ClauseImplies(c, d);
      assert Holds(w, c);
      var p :| p in c && p in w;
      var q :| q in d && ActsFor(p, q);
    }
  }

  /** The largest world in which the clause `d` is false. */
  ghost function Refuting(d: Clause): (w: World)
    ensures Delegates(w)
    ensures !Holds(w, d)
    ensures forall p :: p in w <==> !ActsForSome(p, d)
  {
    var w := iset p: Principal | !ActsForSome(p, d);
    assert forall p | p in d :: ActsFor(p, p);
    w
  }

  // ----- laws of implication -----

  lemma ImpliesRefl(a: Component)
    ensures Implies(a, a)
  {
    ImpliesIsEntailment(a, a);
  }

  lemma ImpliesTrans(a: Component, b: Component, c: Component)
    requires Implies(a, b) && Implies(b, c)
    ensures Implies(a, c)
  {
    ImpliesIsEntailment(a, b);
    ImpliesIsEntailment(b, c);
    ImpliesIsEntailment(a, c);
  }

  /** One principal speaks for another exactly when the other is the same or one that it delegated to. */
  lemma DelegationGoesDown(p: Principal, q: Principal)
    ensures Implies(DCFormula({{p}}), DCFormula({{q}})) <==> |p| <= |q| && q[..|p|] == p
  {
    assert forall d: Clause :: d in Clauses(DCFormula({{q}})) <==> d == {q};
    assert forall c: Clause :: c in Clauses(DCFormula({{p}})) <==> c == {p};
    assert ClauseImplies({p}, {q}) <==> ActsForSome(p, {q});
    assert ActsForSome(p, {q}) <==> ActsFor(p, q);
  }

  lemma SatAnd(w: World, a: Component, b: Component)
    ensures Sat(w, And(a, b)) <==> Sat(w, a) && Sat(w, b)
  {
    if a.DCFalse? || b.DCFalse? {
      assert {} in Clauses(And(a, b));
      assert a.DCFalse? ==> {} in Clauses(a);
      assert b.DCFalse? ==> {} in Clauses(b);
    } else {
      assert Clauses(And(a, b)) == Clauses(a) + Clauses(b);
    }
  }

  lemma SatOr(w: World, a: Component, b: Component)
    ensures Sat(w, Or(a, b)) <==> Sat(w, a) || Sat(w, b)
  {
    if a.DCFalse? {
      assert {} in Clauses(a);
    } else if b.DCFalse? {
      assert {} in Clauses(b);
    } else {
      if Sat(w, a) || Sat(w, b) {
        forall e | e in Clauses(Or(a, b)) ensures Holds(w, e) {
          var c, d :| c in a.clauses && d in b.clauses && e == c + d;
          assert Holds(w, c) || Holds(w, d);
        }
      } else {
        var c :| c in a.clauses && !Holds(w, c);
        var d :| d in b.clauses && !Holds(w, d);
        assert c + d in Clauses(Or(a, b));
      }
    }
  }

  /** Conjunction is the greatest lower bound of implication. */
  lemma ImpliesAnd(a: Component, b: Component, c: Component)
    ensures Implies(a, And(b, c)) <==> Implies(a, b) && Implies(a, c)
  {
    forall w: World ensures Sat(w, And(b, c)) <==> Sat(w, b) && Sat(w, c) { SatAnd(w, b, c); }
    ImpliesIsEntailment(a, b);
    ImpliesIsEntailment(a, c);
    ImpliesIsEntailment(a, And(b, c));
  }

  /** Disjunction is the least upper bound of implication, also under a privilege. */
  lemma OrImplies(a: Component, b: Component, p: Component, c: Component)
    ensures Implies(And(Or(a, b), p), c) <==> Implies(And(a, p), c) && Implies(And(b, p), c)
  {
    forall w: World ensures Sat(w, And(Or(a, b), p)) <==> Sat(w, And(a, p)) || Sat(w, And(b, p)) {
      SatOr(w, a, b);
      SatAnd(w, Or(a, b), p);
      SatAnd(w, a, p);
      SatAnd(w, b, p);
    }
    ImpliesIsEntailment(And(Or(a, b), p), c);
    ImpliesIsEntailment(And(a, p), c);
    ImpliesIsEntailment(And(b, p), c);
  }

  lemma AndImplies(a: Component, b: Component)
    ensures Implies(And(a, b), a) && Implies(And(a, b), b)
  {
    ImpliesRefl(And(a, b));
    ImpliesAnd(And(a, b), a, b);
  }

  lemma AndMonotone(a: Component, a': Component, b: Component, b': Component)
    requires Implies(a, a') && Implies(b, b')
    ensures Implies(And(a, b), And(a', b'))
  {
    AndImplies(a, b);
    ImpliesTrans(And(a, b), a, a');
    ImpliesTrans(And(a, b), b, b');
    ImpliesAnd(And(a, b), a', b');
  }

  lemma TrueIsUnit(a: Component)
    ensures Implies(a, DC_TRUE)
    ensures And(a, DC_TRUE) == a == And(DC_TRUE, a)
  {
    assert a.DCFormula? ==> a.clauses + {} == a.clauses == {} + a.clauses;
  }

  // ----- laws of flow -----

  lemma FlowPlain(a: Label, b: Label)
    ensures CanFlowTo(a, b) <==> CanFlowToWith(a, b, DC_TRUE)
  {
    TrueIsUnit(b.secrecy);
    TrueIsUnit(a.integrity);
  }

  lemma FlowRefl(a: Label, p: Component)
    ensures CanFlowToWith(a, a, p)
  {
    AndImplies(a.secrecy, p);
    AndImplies(a.integrity, p);
  }

  /** A flow stays allowed when more privilege is exercised. */
  lemma FlowWeaken(a: Label, b: Label, p: Component, q: Component)
    requires CanFlowToWith(a, b, p) && Implies(q, p)
    ensures CanFlowToWith(a, b, q)
  {
    ImpliesRefl(b.secrecy);
    ImpliesRefl(a.integrity);
    AndMonotone(b.secrecy, b.secrecy, q, p);
    AndMonotone(a.integrity, a.integrity, q, p);
    ImpliesTrans(And(b.secrecy, q), And(b.secrecy, p), a.secrecy);
    ImpliesTrans(And(a.integrity, q), And(a.integrity, p), b.integrity);
  }

  lemma FlowTransSame(a: Label, b: Label, c: Label, p: Component)
    requires CanFlowToWith(a, b, p) && CanFlowToWith(b, c, p)
    ensures CanFlowToWith(a, c, p)
  {
    AndImplies(c.secrecy, p);
    ImpliesAnd(And(c.secrecy, p), b.secrecy, p);
    ImpliesTrans(And(c.secrecy, p), And(b.secrecy, p), a.secrecy);
    AndImplies(a.integrity, p);
    ImpliesAnd(And(a.integrity, p), b.integrity, p);
    ImpliesTrans(And(a.integrity, p), And(b.integrity, p), c.integrity);
  }

  /** Composing two flows exercises the conjunction of their privileges. */
  lemma FlowTrans(a: Label, b: Label, c: Label, p: Component, q: Component)
    requires CanFlowToWith(a, b, p) && CanFlowToWith(b, c, q)
    ensures CanFlowToWith(a, c, And(p, q))
  {
    AndImplies(p, q);
    FlowWeaken(a, b, p, And(p, q));
    FlowWeaken(b, c, q, And(p, q));
    FlowTransSame(a, b, c, And(p, q));
  }

  /** The join is the least label that both arguments flow to, under every privilege. */
  lemma LubIsLeast(a: Label, b: Label, c: Label, p: Component)
    ensures CanFlowToWith(Lub(a, b), c, p) <==> CanFlowToWith(a, c, p) && CanFlowToWith(b, c, p)
  {
    ImpliesAnd(And(c.secrecy, p), a.secrecy, b.secrecy);
    OrImplies(a.integrity, b.integrity, p, c.integrity);
  }

  lemma LubIsUpper(a: Label, b: Label, p: Component)
    ensures CanFlowToWith(a, Lub(a, b), p) && CanFlowToWith(b, Lub(a, b), p)
  {
    FlowRefl(Lub(a, b), p);
    LubIsLeast(a, b, Lub(a, b), p);
  }

  /** A clause follows from a component exactly when it follows from one of the component's clauses. */
  ghost predicate Implied(a: Component, d: Clause) {
    exists c :: c in Clauses(a) && ClauseImplies(c, d)
  }

  /** A clause follows from a conjunction exactly when it follows from one of the two parts. */
  lemma ImpliedByAnd(a: Component, b: Component, d: Clause)
    ensures Implied(And(a, b), d) <==> Implied(a, d) || Implied(b, d)
  {
    if a.DCFalse? || b.DCFalse? {
      assert {} in Clauses(And(a, b)) && ClauseImplies({}, d);
    } else {
      assert Clauses(And(a, b)) == Clauses(a) + Clauses(b);
    }
  }

  lemma ImpliesOne(p: Component, d: Clause)
    ensures Implies(p, DCFormula({d})) <==> Implied(p, d)
  {
    assert Clauses(DCFormula({d})) == {d};
  }

  lemma ImpliesFalse(p: Component)
    ensures Implies(p, DCFalse) <==> Implied(p, {})
  {
    assert Clauses(DCFalse) == {{}};
  }

  /** The clauses that a downgrade leaves are those that the privilege does not speak for. */
  lemma ClausesLeft(l: Label, p: Component, d: Clause)
    ensures d in Clauses(Downgrade(l, p).secrecy) <==> d in Clauses(l.secrecy) && !Implied(p, d)
  {
    ImpliesOne(p, d);
    ImpliesFalse(p);
    hide Implied, Implies;
  }

  lemma DowngradedSecrecy(l: Label, p: Component, b: Component)
    ensures Implies(b, Downgrade(l, p).secrecy) <==> Implies(And(b, p), l.secrecy)
  {
    var left := Downgrade(l, p).secrecy;
    forall d: Clause ensures d in Clauses(left) <==> d in Clauses(l.secrecy) && !Implied(p, d) { ClausesLeft(l, p, d); }
    forall d: Clause ensures Implied(And(b, p), d) <==> Implied(b, d) || Implied(p, d) { ImpliedByAnd(b, p, d); }
    AllImplied(b, left);
    AllImplied(And(b, p), l.secrecy);
    hide Implies, Implied, And, Clauses, Downgrade;
  }

  lemma AllImplied(a: Component, b: Component)
    ensures Implies(a, b) <==> forall d | d in Clauses(b) :: Implied(a, d)
  {
  }

  /** The downgrade is the least label that can be reached under the privilege. */
  lemma DowngradeIsLeast(l: Label, p: Component, b: Label)
    ensures CanFlowTo(Downgrade(l, p), b) <==> CanFlowToWith(l, b, p)
  {
    DowngradedSecrecy(l, p, b.secrecy);
    assert And(p, l.integrity) == And(l.integrity, p);
  }

  /** So downgrading is itself a flow that exercises `p` and nothing else. */
  lemma DowngradeFlows(l: Label, p: Component)
    ensures CanFlowToWith(l, Downgrade(l, p), p)
  {
    DowngradeIsLeast(l, p, Downgrade(l, p));
    FlowRefl(Downgrade(l, p), DC_TRUE);
    FlowPlain(Downgrade(l, p), Downgrade(l, p));
  }

  // ----- equivalence -----

  /** Two labels that no flow check can tell apart. */
  predicate Equivalent(a: Label, b: Label) {
    CanFlowTo(a, b) && CanFlowTo(b, a)
  }

  lemma EquivalentLabels(a: Label, b: Label, c: Label, p: Component)
    requires Equivalent(a, b)
    ensures CanFlowToWith(a, c, p) <==> CanFlowToWith(b, c, p)
    ensures CanFlowToWith(c, a, p) <==> CanFlowToWith(c, b, p)
  {
    TrueIsUnit(p);
    FlowPlain(a, b);
    FlowPlain(b, a);
    FlowWeaken(a, b, DC_TRUE, p);
    FlowWeaken(b, a, DC_TRUE, p);
    if CanFlowToWith(a, c, p) { FlowTransSame(b, a, c, p); }
    if CanFlowToWith(b, c, p) { FlowTransSame(a, b, c, p); }
    if CanFlowToWith(c, a, p) { FlowTransSame(c, a, b, p); }
    if CanFlowToWith(c, b, p) { FlowTransSame(c, b, a, p); }
  }
}
