/**
 * The rule engine of `train_ruler.py`: mined rules are filtered by
 * confidence, ranked, restricted to single-atom bodies, and the first few
 * are grounded against the graph. A body `(X, rel, t)` or `(h, rel, X)` binds
 * the variable through one of two graph queries; the bindings are substituted
 * into the head, and each predicted fact `(h, rel, t)` appends `(rel, t)` to
 * the prediction list of `h`. Rules of any other shape are counted as
 * unsupported and contribute nothing.
 *
 * The graph is the in-memory sequence of its `(head, rel, tail)` edges, in
 * the order the queries return them.
 */
module Ruler {
  import opened Sorting
  import opened Seqs
  import opened Triples
  import opened Wrappers

  /** An atom term: a rule variable or a bound entity id. */
  datatype Term = Var(id: int) | Ent(id: int)

  /** A possibly variable `(head, rel, tail)` pattern inside a rule. */
  datatype Atom = Atom(head: Term, rel: int, tail: Term)

  /** `head <= body[0], body[1], ...` with its mined confidence. */
  datatype Rule = Rule(head: Atom, body: seq<Atom>, conf: real)

  /** A fully bound predicted fact. */
  datatype Fact = Fact(head: int, rel: int, tail: int)

  /** Rules must be strictly more confident than this to be used. */
  const MinConf: real := 0.8

  /** Only this many of the ranked single-atom rules are grounded. */
  const GroundedRuleLimit: nat := 5

  function Conf(rule: Rule): real { rule.conf }

  predicate IsConfident(rule: Rule) { rule.conf > MinConf }

  predicate IsShort(rule: Rule) { |rule.body| == 1 }

  // ---------------------------------------------------------------------
  // Rule selection
  // ---------------------------------------------------------------------

  /** `good_rules`: the confident rules, most confident first (stable). */
  function GoodRules(rules: seq<Rule>): seq<Rule>
  {
    SortDesc(Filter(rules, IsConfident), Conf)
  }

  /** Exactly the rules with confidence above the threshold are kept, each as often as given. */
  lemma GoodRulesMembers(rules: seq<Rule>)
    ensures forall r :: r in GoodRules(rules) ==> r in rules && r.conf > MinConf
    ensures forall r :: r in rules && r.conf > MinConf ==> r in GoodRules(rules)
    ensures forall r :: multiset(GoodRules(rules))[r]
                     == if r.conf > MinConf then multiset(rules)[r] else 0
  {
    var kept := Filter(rules, IsConfident);
    SortDescPermutes(kept, Conf);
    FilterMultiset(rules, IsConfident);
    FilterMembers(rules, IsConfident);
    forall r | r in GoodRules(rules)
      ensures r in rules && r.conf > MinConf
    {
      assert r in multiset(GoodRules(rules));
    }
    forall r | r in rules && r.conf > MinConf
      ensures r in GoodRules(rules)
    {
      assert r in multiset(kept);
    }
  }

  /** The ranking has non-increasing confidence. */
  lemma GoodRulesSorted(rules: seq<Rule>)
    ensures SortedDesc(GoodRules(rules), Conf)
  {
    SortDescSorted(Filter(rules, IsConfident), Conf);
  }

  /** Rules with equal confidence keep their input order. */
  lemma GoodRulesStable(rules: seq<Rule>, c: real)
    ensures WithKey(GoodRules(rules), Conf, c) == if c > MinConf then WithKey(rules, Conf, c) else []
  {
    var kept := Filter(rules, IsConfident);
    SortDescStable(kept, Conf, c);
    FilterWithKey(rules, IsConfident, Conf, c);
    var same := WithKey(rules, Conf, c);
    WithKeyHasKey(rules, Conf, c);
    if c > MinConf {
      FilterAll(same, IsConfident);
    } else {
      FilterNone(same, IsConfident);
    }
  }

  /** `short_rules[:5]`: the first ranked rules whose body is a single atom. */
  function GroundedRules(rules: seq<Rule>): (chosen: seq<Rule>)
    ensures |chosen| <= GroundedRuleLimit
    ensures var short := Filter(GoodRules(rules), IsShort);
      && |chosen| == (if |short| < GroundedRuleLimit then |short| else GroundedRuleLimit)
      && chosen == short[..|chosen|]
    ensures forall i :: 0 <= i < |chosen| ==>
      |chosen[i].body| == 1 && chosen[i].conf > MinConf && chosen[i] in rules
    ensures SortedDesc(chosen, Conf)
  {
    var good := GoodRules(rules);
    var short := Filter(good, IsShort);
    var n := if |short| < GroundedRuleLimit then |short| else GroundedRuleLimit;
    assert SortedDesc(short[..n], Conf) by {
      GoodRulesSorted(rules);
      FilterSorted(good, IsShort, Conf);
    }
    assert forall r :: r in short ==> |r.body| == 1 && r.conf > MinConf && r in rules by {
      GoodRulesMembers(rules);
      FilterMembers(good, IsShort);
    }
    assert forall i :: 0 <= i < n ==> short[..n][i] in short;
    short[..n]
  }

  // ---------------------------------------------------------------------
  // The two graph queries
  // ---------------------------------------------------------------------

  /** The heads of the edges `(head, rel, tail)`, one per edge, in edge order. */
  function QueryByRelTail(triples: seq<DbTriple>, rel: int, tail: int): seq<int>
  {
    if triples == [] then []
    else
      (if triples[0].rel == rel && triples[0].tail == tail then [triples[0].head] else [])
      + QueryByRelTail(triples[1..], rel, tail)
  }

  /** The tails of the edges `(head, rel, tail)`, one per edge, in edge order. */
  function QueryByHeadRel(triples: seq<DbTriple>, head: int, rel: int): seq<int>
  {
    if triples == [] then []
    else
      (if triples[0].head == head && triples[0].rel == rel then [triples[0].tail] else [])
      + QueryByHeadRel(triples[1..], head, rel)
  }

  /** Each head is returned once per stored edge `(head, rel, tail)`. */
  lemma {:induction false} QueryByRelTailCounts(triples: seq<DbTriple>, rel: int, tail: int)
    ensures forall h :: multiset(QueryByRelTail(triples, rel, tail))[h] == multiset(triples)[DbTriple(h, rel, tail)]
  {
    if triples != [] {
      QueryByRelTailCounts(triples[1..], rel, tail);
      assert triples == [triples[0]] + triples[1..];
    }
  }

  /** Each tail is returned once per stored edge `(head, rel, tail)`. */
  lemma {:induction false} QueryByHeadRelCounts(triples: seq<DbTriple>, head: int, rel: int)
    ensures forall t :: multiset(QueryByHeadRel(triples, head, rel))[t] == multiset(triples)[DbTriple(head, rel, t)]
  {
    if triples != [] {
      QueryByHeadRelCounts(triples[1..], head, rel);
      assert triples == [triples[0]] + triples[1..];
    }
  }

  /**
   * Without duplicates, the graph query returns the heads that the triples
   * table reports for the class `(rel, tail)`.
   */
  lemma QueryByRelTailMatchesStore(triples: seq<DbTriple>, rel: int, tail: int)
    ensures forall h :: h in QueryByRelTail(triples, rel, tail) ==> h in HeadsWithClass(triples, rel, tail)
    ensures forall h :: h in HeadsWithClass(triples, rel, tail) ==> h in QueryByRelTail(triples, rel, tail)
  {
    var heads := QueryByRelTail(triples, rel, tail);
    QueryByRelTailCounts(triples, rel, tail);
    forall h
      ensures h in heads <==> DbTriple(h, rel, tail) in triples
    {
      assert h in heads <==> h in multiset(heads);
      assert DbTriple(h, rel, tail) in triples <==> DbTriple(h, rel, tail) in multiset(triples);
    }
  }

  // ---------------------------------------------------------------------
  // Grounding one rule
  // ---------------------------------------------------------------------

  predicate IsVarEnt(a: Atom) { a.head.Var? && a.tail.Ent? }

  predicate IsEntVar(a: Atom) { a.head.Ent? && a.tail.Var? }

  /** The two atom shapes the engine can match and instantiate. */
  predicate Supported(a: Atom) { IsVarEnt(a) || IsEntVar(a) }

  /** The value of a term once its variable is bound to `e`. */
  function Value(t: Term, e: int): int
  {
    match t
    case Var(_) => e
    case Ent(id) => id
  }

  /** The atom with its variable bound to `e`. */
  function Subst(atom: Atom, e: int): Fact
  {
    Fact(Value(atom.head, e), atom.rel, Value(atom.tail, e))
  }

  function Row(f: Fact): DbTriple { DbTriple(f.head, f.rel, f.tail) }

  /** The entities the body's variable is bound to: one per matching edge. */
  function Bindings(body: Atom, triples: seq<DbTriple>): seq<int>
    requires Supported(body)
  {
    if IsVarEnt(body) then QueryByRelTail(triples, body.rel, body.tail.id)
    else QueryByHeadRel(triples, body.head.id, body.rel)
  }

  /** A binding `e` occurs once per stored edge matching the body with `e` substituted. */
  lemma BindingsCounts(body: Atom, triples: seq<DbTriple>)
    requires Supported(body)
    ensures forall e :: multiset(Bindings(body, triples))[e] == multiset(triples)[Row(Subst(body, e))]
  {
    if IsVarEnt(body) {
      QueryByRelTailCounts(triples, body.rel, body.tail.id);
    } else {
      QueryByHeadRelCounts(triples, body.head.id, body.rel);
    }
  }

  /** The head instantiated once per binding, in binding order. */
  function Instantiate(head: Atom, ents: seq<int>): seq<Fact>
  {
    seq(|ents|, i requires 0 <= i < |ents| => Subst(head, ents[i]))
  }

  /** The outcome of grounding one rule. */
  datatype Grounding = Grounded(facts: seq<Fact>) | UnsupportedBody | UnsupportedHead

  function GroundRule(rule: Rule, triples: seq<DbTriple>): Grounding
    requires rule.body != []
  {
    var body := rule.body[0];
    if !Supported(body) then UnsupportedBody
    else if !Supported(rule.head) then UnsupportedHead
    else Grounded(Instantiate(rule.head, Bindings(body, triples)))
  }

  /** Which shapes are skipped, and why. */
  lemma GroundRuleShapes(rule: Rule, triples: seq<DbTriple>)
    requires rule.body != []
    ensures GroundRule(rule, triples).UnsupportedBody? <==> !Supported(rule.body[0])
    ensures GroundRule(rule, triples).UnsupportedHead?
        <==> Supported(rule.body[0]) && !Supported(rule.head)
  {
  }

  /** Soundness: every predicted fact is the head under a binding whose body edge is stored. */
  lemma GroundingSound(rule: Rule, triples: seq<DbTriple>)
    requires rule.body != [] && GroundRule(rule, triples).Grounded?
    ensures forall f :: f in GroundRule(rule, triples).facts ==>
      exists e :: f == Subst(rule.head, e) && Row(Subst(rule.body[0], e)) in triples
  {
    var ents := Bindings(rule.body[0], triples);
    BindingsCounts(rule.body[0], triples);
    var facts := GroundRule(rule, triples).facts;
    forall f | f in facts
      ensures exists e :: f == Subst(rule.head, e) && Row(Subst(rule.body[0], e)) in triples
    {
      var i :| 0 <= i < |facts| && facts[i] == f;
      var e := ents[i];
      assert multiset(ents)[e] > 0;
      assert f == Subst(rule.head, e);
    }
  }

  /** Completeness: every stored body edge yields its instantiated head. */
  lemma GroundingComplete(rule: Rule, triples: seq<DbTriple>)
    requires rule.body != [] && GroundRule(rule, triples).Grounded?
    ensures forall e :: Row(Subst(rule.body[0], e)) in triples ==>
      Subst(rule.head, e) in GroundRule(rule, triples).facts
  {
    var ents := Bindings(rule.body[0], triples);
    BindingsCounts(rule.body[0], triples);
    var facts := GroundRule(rule, triples).facts;
    forall e | Row(Subst(rule.body[0], e)) in triples
      ensures Subst(rule.head, e) in facts
    {
      assert multiset(triples)[Row(Subst(rule.body[0], e))] > 0;
      assert e in multiset(ents);
      var i :| 0 <= i < |ents| && ents[i] == e;
      assert facts[i] == Subst(rule.head, e);
    }
  }

  /** One predicted fact per binding, and one binding per matching stored edge. */
  lemma GroundingCount(rule: Rule, triples: seq<DbTriple>)
    requires rule.body != [] && GroundRule(rule, triples).Grounded?
    ensures |GroundRule(rule, triples).facts| == |Bindings(rule.body[0], triples)|
    ensures Bindings(rule.body[0], triples) == [] ==> GroundRule(rule, triples).facts == []
  {
  }

  // ---------------------------------------------------------------------
  // The grounding pass
  // ---------------------------------------------------------------------

  /** `pred`: predicted `(rel, tail)` pairs per head entity. */
  type PredMap = map<int, seq<(int, int)>>

  /** `pred[head]` of a `defaultdict(list)`: the empty list when absent. */
  function Lookup(pred: PredMap, head: int): seq<(int, int)>
  {
    if head in pred then pred[head] else []
  }

  /** `for fact in facts: pred[fact.head].append((fact.rel, fact.tail))`. */
  function AddFacts(pred: PredMap, facts: seq<Fact>): PredMap
    decreases |facts|
  {
    if facts == [] then pred
    else
      var f := facts[0];
      AddFacts(pred[f.head := Lookup(pred, f.head) + [(f.rel, f.tail)]], facts[1..])
  }

  /** The `(rel, tail)` pairs of the facts about `head`, in order. */
  function PairsFor(head: int, facts: seq<Fact>): seq<(int, int)>
  {
    if facts == [] then []
    else (if facts[0].head == head then [(facts[0].rel, facts[0].tail)] else [])
         + PairsFor(head, facts[1..])
  }

  /** Facts about other entities contribute no pairs. */
  lemma {:induction false} PairsForOther(head: int, facts: seq<Fact>)
    requires forall i :: 0 <= i < |facts| ==> facts[i].head != head
    ensures PairsFor(head, facts) == []
  {
    if facts != [] {
      PairsForOther(head, facts[1..]);
    }
  }

  /** Appending facts extends the list of `k` by the pairs of the facts about `k`, in order. */
  lemma {:induction false} AddFactsLookupAt(pred: PredMap, facts: seq<Fact>, k: int)
    ensures Lookup(AddFacts(pred, facts), k) == Lookup(pred, k) + PairsFor(k, facts)
    decreases |facts|
  {
    if facts != [] {
      var f := facts[0];
      var next := pred[f.head := Lookup(pred, f.head) + [(f.rel, f.tail)]];
      assert AddFacts(pred, facts) == AddFacts(next, facts[1..]);
      AddFactsLookupAt(next, facts[1..], k);
      if f.head == k {
        assert Lookup(next, k) == Lookup(pred, k) + [(f.rel, f.tail)];
        assert PairsFor(k, facts) == [(f.rel, f.tail)] + PairsFor(k, facts[1..]);
      } else {
        assert Lookup(next, k) == Lookup(pred, k);
        assert PairsFor(k, facts) == PairsFor(k, facts[1..]);
      }
    }
  }

  /** Appending facts extends each entity's list by its own pairs, in order, and touches nothing else. */
  lemma AddFactsLookup(pred: PredMap, facts: seq<Fact>)
    ensures forall k :: Lookup(AddFacts(pred, facts), k) == Lookup(pred, k) + PairsFor(k, facts)
  {
    forall k
      ensures Lookup(AddFacts(pred, facts), k) == Lookup(pred, k) + PairsFor(k, facts)
    {
      AddFactsLookupAt(pred, facts, k);
    }
  }

  /** The keys after appending are the old keys and the heads of the appended facts. */
  lemma {:induction false} AddFactsKeys(pred: PredMap, facts: seq<Fact>)
    ensures AddFacts(pred, facts).Keys == pred.Keys + (set f | f in facts :: f.head)
    decreases |facts|
  {
    if facts != [] {
      var f := facts[0];
      var next := pred[f.head := Lookup(pred, f.head) + [(f.rel, f.tail)]];
      AddFactsKeys(next, facts[1..]);
      assert facts == [f] + facts[1..];
      assert (set g | g in facts :: g.head) == {f.head} + (set g | g in facts[1..] :: g.head);
    }
  }

  /** Appending never leaves an empty list behind. */
  lemma {:induction false} AddFactsNonEmpty(pred: PredMap, facts: seq<Fact>)
    requires forall k :: k in pred ==> pred[k] != []
    ensures forall k :: k in AddFacts(pred, facts) ==> AddFacts(pred, facts)[k] != []
    decreases |facts|
  {
    if facts != [] {
      var f := facts[0];
      var next := pred[f.head := Lookup(pred, f.head) + [(f.rel, f.tail)]];
      AddFactsNonEmpty(next, facts[1..]);
    }
  }

  /** The state of the grounding pass: `pred` and `unsupported_rules`. */
  datatype RulerState = RulerState(pred: PredMap, unsupported: nat)

  /** One iteration of the grounding loop. */
  function Step(st: RulerState, rule: Rule, triples: seq<DbTriple>): RulerState
    requires rule.body != []
  {
    match GroundRule(rule, triples)
    case Grounded(facts) => RulerState(AddFacts(st.pred, facts), st.unsupported)
    case _ => RulerState(st.pred, st.unsupported + 1)
  }

  predicate NonEmptyBodies(rules: seq<Rule>)
  {
    forall i :: 0 <= i < |rules| ==> rules[i].body != []
  }

  /** The state after processing `rules` in order, starting from no predictions. */
  function Run(rules: seq<Rule>, triples: seq<DbTriple>): RulerState
    requires NonEmptyBodies(rules)
  {
    if rules == [] then RulerState(map[], 0)
    else Step(Run(rules[..|rules| - 1], triples), rules[|rules| - 1], triples)
  }

  /** Reference count: the rules whose body or head cannot be grounded. */
  function UnsupportedCount(rules: seq<Rule>, triples: seq<DbTriple>): nat
    requires NonEmptyBodies(rules)
  {
    if rules == [] then 0
    else (if GroundRule(rules[0], triples).Grounded? then 0 else 1)
         + UnsupportedCount(rules[1..], triples)
  }

  /** The pairs one rule predicts for `head`. */
  function RulePairs(head: int, rule: Rule, triples: seq<DbTriple>): seq<(int, int)>
    requires rule.body != []
  {
    match GroundRule(rule, triples)
    case Grounded(facts) => PairsFor(head, facts)
    case _ => []
  }

  /** Reference list: the pairs predicted for `head`, rule by rule, fact by fact. */
  function PredictedPairs(head: int, rules: seq<Rule>, triples: seq<DbTriple>): seq<(int, int)>
    requires NonEmptyBodies(rules)
  {
    if rules == [] then []
    else
      RulePairs(head, rules[0], triples) + PredictedPairs(head, rules[1..], triples)
  }

  lemma {:induction false} UnsupportedCountBound(rules: seq<Rule>, triples: seq<DbTriple>)
    requires NonEmptyBodies(rules)
    ensures UnsupportedCount(rules, triples) <= |rules|
  {
    if rules != [] {
      UnsupportedCountBound(rules[1..], triples);
    }
  }

  lemma {:induction false} ReferenceSnoc(rules: seq<Rule>, rule: Rule, triples: seq<DbTriple>)
    requires NonEmptyBodies(rules) && rule.body != []
    ensures NonEmptyBodies(rules + [rule])
    ensures UnsupportedCount(rules + [rule], triples)
         == UnsupportedCount(rules, triples) + (if GroundRule(rule, triples).Grounded? then 0 else 1)
    ensures forall k ::
      PredictedPairs(k, rules + [rule], triples) == PredictedPairs(k, rules, triples) + RulePairs(k, rule, triples)
  {
    if rules == [] {
      assert [] + [rule] == [rule];
    } else {
      ReferenceSnoc(rules[1..], rule, triples);
      assert (rules + [rule])[1..] == rules[1..] + [rule];
    }
  }

  /** One step adds the rule's pairs to every key and counts the rule if it cannot be grounded. */
  lemma StepEffect(st: RulerState, rule: Rule, triples: seq<DbTriple>)
    requires rule.body != []
    requires forall k :: k in st.pred ==> st.pred[k] != []
    ensures Step(st, rule, triples).unsupported
         == st.unsupported + (if GroundRule(rule, triples).Grounded? then 0 else 1)
    ensures forall k :: Lookup(Step(st, rule, triples).pred, k) == Lookup(st.pred, k) + RulePairs(k, rule, triples)
    ensures forall k :: k in Step(st, rule, triples).pred ==> Step(st, rule, triples).pred[k] != []
  {
    match GroundRule(rule, triples)
    case Grounded(facts) =>
      AddFactsLookup(st.pred, facts);
      AddFactsNonEmpty(st.pred, facts);
    case _ =>
      forall k
        ensures Lookup(Step(st, rule, triples).pred, k) == Lookup(st.pred, k) + RulePairs(k, rule, triples)
      {
        assert Lookup(st.pred, k) + [] == Lookup(st.pred, k);
      }
  }

  /** The prefix of all rules but the last, and one step on from it. */
  lemma RunSnoc(rules: seq<Rule>, triples: seq<DbTriple>)
    requires NonEmptyBodies(rules) && rules != []
    ensures NonEmptyBodies(rules[..|rules| - 1])
    ensures Run(rules, triples) == Step(Run(rules[..|rules| - 1], triples), rules[|rules| - 1], triples)
    ensures rules[..|rules| - 1] + [rules[|rules| - 1]] == rules
  {
    FrontLast(rules);
  }

  lemma {:induction false} RunNonEmpty(rules: seq<Rule>, triples: seq<DbTriple>)
    requires NonEmptyBodies(rules)
    ensures forall k :: k in Run(rules, triples).pred ==> Run(rules, triples).pred[k] != []
  {
    if rules != [] {
      RunSnoc(rules, triples);
      RunNonEmpty(rules[..|rules| - 1], triples);
      StepEffect(Run(rules[..|rules| - 1], triples), rules[|rules| - 1], triples);
    }
  }

  lemma {:induction false} RunUnsupported(rules: seq<Rule>, triples: seq<DbTriple>)
    requires NonEmptyBodies(rules)
    ensures Run(rules, triples).unsupported == UnsupportedCount(rules, triples)
  {
    if rules != [] {
      var init, last := rules[..|rules| - 1], rules[|rules| - 1];
      RunSnoc(rules, triples);
      RunUnsupported(init, triples);
      RunNonEmpty(init, triples);
      ReferenceSnoc(init, last, triples);
      StepEffect(Run(init, triples), last, triples);
    }
  }

  lemma {:induction false} RunPairs(rules: seq<Rule>, triples: seq<DbTriple>)
    requires NonEmptyBodies(rules)
    ensures forall k :: Lookup(Run(rules, triples).pred, k) == PredictedPairs(k, rules, triples)
  {
    if rules != [] {
      var init, last := rules[..|rules| - 1], rules[|rules| - 1];
      RunSnoc(rules, triples);
      RunPairs(init, triples);
      RunNonEmpty(init, triples);
      ReferenceSnoc(init, last, triples);
      StepEffect(Run(init, triples), last, triples);
    }
  }

  /** The pass counts exactly the unsupported rules and collects exactly the predicted pairs. */
  lemma RunMatchesReference(rules: seq<Rule>, triples: seq<DbTriple>)
    requires NonEmptyBodies(rules)
    ensures Run(rules, triples).unsupported == UnsupportedCount(rules, triples)
    ensures forall k :: Lookup(Run(rules, triples).pred, k) == PredictedPairs(k, rules, triples)
    ensures forall k :: k in Run(rules, triples).pred ==> Run(rules, triples).pred[k] != []
  {
    RunUnsupported(rules, triples);
    RunPairs(rules, triples);
    RunNonEmpty(rules, triples);
  }

  lemma RunPrefix(rules: seq<Rule>, i: nat, triples: seq<DbTriple>)
    requires NonEmptyBodies(rules) && i < |rules|
    ensures NonEmptyBodies(rules[..i]) && NonEmptyBodies(rules[..i + 1])
    ensures Run(rules[..i + 1], triples) == Step(Run(rules[..i], triples), rules[i], triples)
  {
    assert rules[..i + 1][..i] == rules[..i];
  }

  lemma AddFactsUnfold(pred: PredMap, facts: seq<Fact>, j: nat)
    requires j < |facts|
    ensures AddFacts(pred, facts[j..]) == AddFacts(
      pred[facts[j].head := Lookup(pred, facts[j].head) + [(facts[j].rel, facts[j].tail)]], facts[j + 1..])
  {
    assert facts[j..][0] == facts[j] && facts[j..][1..] == facts[j + 1..];
  }

  /**
   * "Process rule body": the bindings of a supported body atom, through the
   * query that fits its shape. `None` stands for an unsupported shape.
   */
  method MatchBody(bodyFact: Atom, triples: seq<DbTriple>) returns (ents: Option<seq<int>>)
    ensures ents.None? <==> !Supported(bodyFact)
    ensures ents.Some? ==> ents.value == Bindings(bodyFact, triples)
  {
    if bodyFact.head.Var? && bodyFact.tail.Ent? {
      ents := Some(QueryByRelTail(triples, bodyFact.rel, bodyFact.tail.id));
    } else if bodyFact.head.Ent? && bodyFact.tail.Var? {
      ents := Some(QueryByHeadRel(triples, bodyFact.head.id, bodyFact.rel));
    } else {
      ents := None;
    }
  }

  /**
   * "Process rule head": one predicted fact per binding for a supported
   * head atom. `None` stands for an unsupported shape.
   */
  method InstantiateHead(headFact: Atom, ents: seq<int>) returns (predFacts: Option<seq<Fact>>)
    ensures predFacts.None? <==> !Supported(headFact)
    ensures predFacts.Some? ==> predFacts.value == Instantiate(headFact, ents)
  {
    if headFact.head.Var? && headFact.tail.Ent? {
      predFacts := Some(seq(|ents|, k requires 0 <= k < |ents| => Fact(ents[k], headFact.rel, headFact.tail.id)));
    } else if headFact.head.Ent? && headFact.tail.Var? {
      predFacts := Some(seq(|ents|, k requires 0 <= k < |ents| => Fact(headFact.head.id, headFact.rel, ents[k])));
    } else {
      predFacts := None;
    }
  }

  /**
   * One iteration of the grounding loop: match the body, instantiate the
   * head, append the predictions; an unsupported shape only bumps the
   * counter (the `continue` of the loop is the early `return` here).
   */
  method ProcessRule(pred0: PredMap, unsupported0: nat, rule: Rule, triples: seq<DbTriple>)
    returns (pred: PredMap, unsupported: nat)
    requires rule.body != []
    ensures RulerState(pred, unsupported) == Step(RulerState(pred0, unsupported0), rule, triples)
  {
    pred, unsupported := pred0, unsupported0;

    var ents := MatchBody(rule.body[0], triples);
    if ents.None? {
      unsupported := unsupported + 1;
      return;
    }

    var predFacts := InstantiateHead(rule.head, ents.value);
    if predFacts.None? {
      unsupported := unsupported + 1;
      return;
    }

    pred := AppendPredictions(pred, predFacts.value);
  }

  /** The inner loop: `pred[fact.head].append((fact.rel, fact.tail))` for each fact. */
  method AppendPredictions(pred0: PredMap, predFacts: seq<Fact>) returns (pred: PredMap)
    ensures pred == AddFacts(pred0, predFacts)
  {
    pred := pred0;
    for j := 0 to |predFacts|
      invariant AddFacts(pred, predFacts[j..]) == AddFacts(pred0, predFacts)
    {
      var fact := predFacts[j];
      AddFactsUnfold(pred, predFacts, j);
      pred := pred[fact.head := Lookup(pred, fact.head) + [(fact.rel, fact.tail)]];
    }
    assert predFacts[|predFacts|..] == [];
  }

  /**
   * The grounding pass of `train_ruler`: selects the rules, then grounds
   * them one by one, counting unsupported ones and appending predictions.
   */
  method TrainRuler(rules: seq<Rule>, triples: seq<DbTriple>)
    returns (pred: PredMap, unsupported: nat)
    ensures NonEmptyBodies(GroundedRules(rules))
    ensures RulerState(pred, unsupported) == Run(GroundedRules(rules), triples)
    ensures unsupported == UnsupportedCount(GroundedRules(rules), triples)
    ensures unsupported <= |GroundedRules(rules)| <= GroundedRuleLimit
    ensures forall k :: Lookup(pred, k) == PredictedPairs(k, GroundedRules(rules), triples)
    ensures forall k :: k in pred ==> pred[k] != []
  {
    var chosen := GroundedRules(rules);

    unsupported := 0;
    pred := map[];

    for i := 0 to |chosen|
      invariant NonEmptyBodies(chosen[..i])
      invariant RulerState(pred, unsupported) == Run(chosen[..i], triples)
    {
      RunPrefix(chosen, i, triples);
      pred, unsupported := ProcessRule(pred, unsupported, chosen[i], triples);
    }
    assert chosen[..|chosen|] == chosen;
    RunMatchesReference(chosen, triples);
    UnsupportedCountBound(chosen, triples);
  }

  // ---------------------------------------------------------------------
  // Worked examples
  // ---------------------------------------------------------------------

  /** Querying `(·, 5, 9)` lists the heads in edge order. */
  lemma ExampleQueryByRelTail(triples: seq<DbTriple>)
    requires triples == [DbTriple(1, 5, 9), DbTriple(2, 6, 9), DbTriple(3, 5, 9)]
    ensures QueryByRelTail(triples, 5, 9) == [1, 3]
  {
    assert QueryByRelTail(triples[2..], 5, 9) == [3] by {
      assert triples[2..][1..] == [];
    }
    assert QueryByRelTail(triples[1..], 5, 9) == [3] by {
      assert triples[1..][1..] == triples[2..];
    }
  }

  /** The bindings `[1, 3]` ground `(X, 7, 2) <= (X, 5, 9)` to two facts. */
  lemma ExampleGroundVarEnt(triples: seq<DbTriple>)
    requires triples == [DbTriple(1, 5, 9), DbTriple(2, 6, 9), DbTriple(3, 5, 9)]
    ensures GroundRule(Rule(Atom(Var(0), 7, Ent(2)), [Atom(Var(0), 5, Ent(9))], 0.9), triples)
         == Grounded([Fact(1, 7, 2), Fact(3, 7, 2)])
  {
    ExampleQueryByRelTail(triples);
    var facts := Instantiate(Atom(Var(0), 7, Ent(2)), [1, 3]);
    assert facts == [Fact(1, 7, 2), Fact(3, 7, 2)] by {
      assert |facts| == 2 && facts[0] == Fact(1, 7, 2) && facts[1] == Fact(3, 7, 2);
    }
  }

  /** A body without a variable is skipped as unsupported. */
  lemma ExampleUnsupportedBody(triples: seq<DbTriple>)
    ensures Step(RulerState(map[], 0),
                 Rule(Atom(Var(0), 7, Ent(2)), [Atom(Ent(1), 5, Ent(9))], 0.9), triples)
         == RulerState(map[], 1)
  {
  }
}
