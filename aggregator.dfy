/**
 * The aggregator of the POWER predictor: it fuses the predictions of the
 * text classifier ("texter") and of the rule engine ("ruler") for one
 * entity. Each side is indexed by fact; every fact predicted by either side
 * yields one fused prediction whose confidence is the larger of the two
 * sides' confidences (a missing side counts as 0), whose sentences come from
 * the texter and whose rules come from the ruler. The result is ranked by
 * confidence, highest first.
 *
 * The two predictors are not modelled: their outputs are the inputs here.
 */
module Aggregator {
  import opened Sorting
  import opened Ruler

  /** A prediction: a fact, its confidence, the supporting sentences and rules. */
  datatype Pred = Pred(fact: Fact, conf: real, sents: seq<string>, rules: seq<Rule>)

  function PredConf(p: Pred): real { p.conf }

  /** The facts a list of predictions talks about. */
  function FactsOf(preds: seq<Pred>): set<Fact>
  {
    set p | p in preds :: p.fact
  }

  /** No fact occurs twice. */
  predicate DistinctFacts(preds: seq<Pred>)
  {
    forall i, j :: 0 <= i < j < |preds| ==> preds[i].fact != preds[j].fact
  }

  /**
   * `{pred.fact: pred for pred in preds}`: one entry per fact, mapping it to
   * one of the predictions of that fact.
   */
  function Index(preds: seq<Pred>): (m: map<Fact, Pred>)
    ensures m.Keys == FactsOf(preds)
    ensures forall f :: f in m ==> m[f] in preds && m[f].fact == f
  {
    if preds == [] then map[]
    else
      var init, last := preds[..|preds| - 1], preds[|preds| - 1];
      assert preds == init + [last];
      Index(init)[last.fact := last]
  }

  /** A dict comprehension keeps the last prediction of each fact. */
  lemma {:induction false} IndexLaterWins(preds: seq<Pred>, i: nat)
    requires i < |preds|
    requires forall j :: i < j < |preds| ==> preds[j].fact != preds[i].fact
    ensures Index(preds)[preds[i].fact] == preds[i]
  {
    var init, last := preds[..|preds| - 1], preds[|preds| - 1];
    if i < |preds| - 1 {
      IndexLaterWins(init, i);
    }
  }

  /**
   * The fused prediction of fact `f`: texter sentences, ruler rules, and
   * the larger of the two confidences, where a side without `f` gives 0.
   */
  function Fuse(f: Fact, texterIndex: map<Fact, Pred>, rulerIndex: map<Fact, Pred>): (p: Pred)
    ensures p.fact == f
    ensures f in texterIndex ==> p.conf >= texterIndex[f].conf && p.sents == texterIndex[f].sents
    ensures f in rulerIndex ==> p.conf >= rulerIndex[f].conf && p.rules == rulerIndex[f].rules
    ensures f !in texterIndex ==> p.sents == [] && p.conf >= 0.0
    ensures f !in rulerIndex ==> p.rules == [] && p.conf >= 0.0
    ensures (f in texterIndex && p.conf == texterIndex[f].conf)
         || (f in rulerIndex && p.conf == rulerIndex[f].conf)
         || ((f !in texterIndex || f !in rulerIndex) && p.conf == 0.0)
  {
    var sents := if f in texterIndex then texterIndex[f].sents else [];
    var rules := if f in rulerIndex then rulerIndex[f].rules else [];
    var maxSentConf := if f in texterIndex then texterIndex[f].conf else 0.0;
    var maxRuleConf := if f in rulerIndex then rulerIndex[f].conf else 0.0;
    var conf := if maxSentConf >= maxRuleConf then maxSentConf else maxRuleConf;
    Pred(f, conf, sents, rules)
  }

  /** The fused prediction of `f` as seen from the two input lists. */
  lemma FuseFromInputs(f: Fact, texterPreds: seq<Pred>, rulerPreds: seq<Pred>, i: nat, k: nat)
    requires i < |texterPreds| && texterPreds[i].fact == f
    requires forall j :: i < j < |texterPreds| ==> texterPreds[j].fact != f
    requires k < |rulerPreds| && rulerPreds[k].fact == f
    requires forall j :: k < j < |rulerPreds| ==> rulerPreds[j].fact != f
    ensures var p := Fuse(f, Index(texterPreds), Index(rulerPreds));
      && p.sents == texterPreds[i].sents
      && p.rules == rulerPreds[k].rules
      && p.conf == (if texterPreds[i].conf >= rulerPreds[k].conf then texterPreds[i].conf else rulerPreds[k].conf)
  {
    IndexLaterWins(texterPreds, i);
    IndexLaterWins(rulerPreds, k);
  }

  /** A fact only the texter predicts keeps its sentences and its confidence, floored at 0. */
  lemma FuseTexterOnly(f: Fact, texterPreds: seq<Pred>, rulerPreds: seq<Pred>, i: nat)
    requires i < |texterPreds| && texterPreds[i].fact == f
    requires forall j :: i < j < |texterPreds| ==> texterPreds[j].fact != f
    requires f !in FactsOf(rulerPreds)
    ensures var p := Fuse(f, Index(texterPreds), Index(rulerPreds));
      && p.sents == texterPreds[i].sents
      && p.rules == []
      && p.conf == (if texterPreds[i].conf >= 0.0 then texterPreds[i].conf else 0.0)
  {
    IndexLaterWins(texterPreds, i);
  }

  /** A fact only the ruler predicts keeps its rules and its confidence, floored at 0. */
  lemma FuseRulerOnly(f: Fact, texterPreds: seq<Pred>, rulerPreds: seq<Pred>, k: nat)
    requires f !in FactsOf(texterPreds)
    requires k < |rulerPreds| && rulerPreds[k].fact == f
    requires forall j :: k < j < |rulerPreds| ==> rulerPreds[j].fact != f
    ensures var p := Fuse(f, Index(texterPreds), Index(rulerPreds));
      && p.sents == []
      && p.rules == rulerPreds[k].rules
      && p.conf == (if 0.0 >= rulerPreds[k].conf then 0.0 else rulerPreds[k].conf)
  {
    IndexLaterWins(rulerPreds, k);
  }

  /** In a list with distinct facts every prediction occurs at most once. */
  lemma {:induction false} DistinctFactsCount(s: seq<Pred>, p: Pred)
    requires DistinctFacts(s)
    ensures multiset(s)[p] <= 1
  {
    if s != [] {
      DistinctFactsCount(s[1..], p);
      assert s == [s[0]] + s[1..];
      if s[0] == p {
        assert p !in s[1..] by {
          forall j | 0 <= j < |s[1..]|
            ensures s[1..][j] != p
          {
            assert s[j + 1].fact != s[0].fact;
          }
        }
      }
    }
  }

  lemma TwiceCounted(a: seq<Pred>, i: nat, j: nat)
    requires i < j < |a| && a[i] == a[j]
    ensures multiset(a)[a[i]] >= 2
  {
    assert a == a[..j] + a[j..];
    assert a[i] in a[..j] && a[j] in a[j..];
    assert multiset(a)[a[i]] == multiset(a[..j])[a[i]] + multiset(a[j..])[a[i]];
  }

  /** Reordering a list with distinct facts keeps them distinct. */
  lemma DistinctFactsPermute(a: seq<Pred>, b: seq<Pred>)
    requires multiset(a) == multiset(b)
    requires DistinctFacts(b)
    ensures DistinctFacts(a)
  {
    forall i, j | 0 <= i < j < |a|
      ensures a[i].fact != a[j].fact
    {
      if a[i] == a[j] {
        TwiceCounted(a, i, j);
        DistinctFactsCount(b, a[i]);
      } else {
        assert a[i] in multiset(b) && a[j] in multiset(b);
        var k :| 0 <= k < |b| && b[k] == a[i];
        var l :| 0 <= l < |b| && b[l] == a[j];
        assert k != l;
        if k < l {
          assert b[k].fact != b[l].fact;
        } else {
          assert b[l].fact != b[k].fact;
        }
      }
    }
  }

  lemma FactsOfSnoc(s: seq<Pred>, p: Pred)
    ensures FactsOf(s + [p]) == FactsOf(s) + {p.fact}
    ensures DistinctFacts(s) && p.fact !in FactsOf(s) ==> DistinctFacts(s + [p])
  {
    assert forall q :: q in s + [p] <==> q in s || q == p;
    if DistinctFacts(s) && p.fact !in FactsOf(s) {
      forall i, j | 0 <= i < j < |s + [p]|
        ensures (s + [p])[i].fact != (s + [p])[j].fact
      {
        if j == |s| {
          assert s[i] in s;
        }
      }
    }
  }

  /** Every prediction in `s` is the fusion of its own fact. */
  predicate AllFused(s: seq<Pred>, texterIndex: map<Fact, Pred>, rulerIndex: map<Fact, Pred>)
  {
    forall p :: p in s ==> p == Fuse(p.fact, texterIndex, rulerIndex)
  }

  lemma AllFusedSnoc(s: seq<Pred>, p: Pred, texterIndex: map<Fact, Pred>, rulerIndex: map<Fact, Pred>)
    requires AllFused(s, texterIndex, rulerIndex)
    requires p == Fuse(p.fact, texterIndex, rulerIndex)
    ensures AllFused(s + [p], texterIndex, rulerIndex)
  {
    assert forall q :: q in s + [p] <==> q in s || q == p;
  }

  /** Two lists with the same multiset hold the same predictions and facts. */
  lemma SameElements(a: seq<Pred>, b: seq<Pred>)
    requires multiset(a) == multiset(b)
    ensures forall p :: p in a <==> p in b
    ensures FactsOf(a) == FactsOf(b)
  {
    forall p
      ensures p in a <==> p in b
    {
      assert p in a <==> p in multiset(a);
      assert p in b <==> p in multiset(b);
    }
  }

  /** One turn of the fusion loop keeps its invariant. */
  lemma FuseStep(fused: seq<Pred>, done: set<Fact>, remaining: set<Fact>, predFacts: set<Fact>,
                 fact: Fact, texterIndex: map<Fact, Pred>, rulerIndex: map<Fact, Pred>)
    requires done + remaining == predFacts && done !! remaining
    requires FactsOf(fused) == done && |fused| + |remaining| == |predFacts|
    requires DistinctFacts(fused) && AllFused(fused, texterIndex, rulerIndex)
    requires fact in remaining
    ensures var fused', done', remaining' := fused + [Fuse(fact, texterIndex, rulerIndex)], done + {fact}, remaining - {fact};
      && done' + remaining' == predFacts && done' !! remaining'
      && FactsOf(fused') == done' && |fused'| + |remaining'| == |predFacts|
      && DistinctFacts(fused') && AllFused(fused', texterIndex, rulerIndex)
  {
    var p := Fuse(fact, texterIndex, rulerIndex);
    FactsOfSnoc(fused, p);
    AllFusedSnoc(fused, p, texterIndex, rulerIndex);
    assert |remaining - {fact}| == |remaining| - 1;
  }

  /**
   * The fusion loop of `predict`: one fused prediction per fact of
   * `predFacts`, taken in an arbitrary order.
   */
  method FuseEach(predFacts: set<Fact>, texterIndex: map<Fact, Pred>, rulerIndex: map<Fact, Pred>)
    returns (fused: seq<Pred>)
    ensures FactsOf(fused) == predFacts
    ensures |fused| == |predFacts|
    ensures DistinctFacts(fused)
    ensures AllFused(fused, texterIndex, rulerIndex)
  {
    fused := [];
    var remaining := predFacts;
    ghost var done: set<Fact> := {};
    while remaining != {}
      invariant done + remaining == predFacts
      invariant done !! remaining
      invariant FactsOf(fused) == done
      invariant |fused| + |remaining| == |predFacts|
      invariant DistinctFacts(fused)
      invariant AllFused(fused, texterIndex, rulerIndex)
      decreases |remaining|
    {
      var fact :| fact in remaining;
      FuseStep(fused, done, remaining, predFacts, fact, texterIndex, rulerIndex);
      fused := fused + [Fuse(fact, texterIndex, rulerIndex)];
      remaining := remaining - {fact};
      done := done + {fact};
    }
  }

  /**
   * `Aggregator.predict`: one fused prediction per fact of either side,
   * ranked by non-increasing confidence. The union is walked in an arbitrary
   * order (Python's set order), so among equal confidences any order of
   * the fused predictions can come out.
   */
  method Predict(texterPreds: seq<Pred>, rulerPreds: seq<Pred>) returns (preds: seq<Pred>)
    ensures FactsOf(preds) == FactsOf(texterPreds) + FactsOf(rulerPreds)
    ensures DistinctFacts(preds)
    ensures |preds| == |FactsOf(texterPreds) + FactsOf(rulerPreds)|
    ensures AllFused(preds, Index(texterPreds), Index(rulerPreds))
    ensures SortedDesc(preds, PredConf)
    ensures texterPreds == [] && rulerPreds == [] ==> preds == []
  {
    var texterFactToPred := Index(texterPreds);
    var rulerFactToPred := Index(rulerPreds);

    var predFacts := texterFactToPred.Keys + rulerFactToPred.Keys;

    var fused := FuseEach(predFacts, texterFactToPred, rulerFactToPred);
    preds := SortDesc(fused, PredConf);
    SortDescPermutes(fused, PredConf);
    SortDescSorted(fused, PredConf);
    DistinctFactsPermute(preds, fused);
    SameElements(preds, fused);
    if texterPreds == [] && rulerPreds == [] {
      assert predFacts == {};
    }
  }
}
