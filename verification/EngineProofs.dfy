/** The analysis does not depend on rule order, repetition or failing rules, and a scope only reorders it. */
module EngineProofs {
  import opened Prelude
  import opened Ordering
  import opened Names
  import opened Signals
  import opened HypothesisRules
  import opened AnalysisEngine
  import opened RuleProofs

  // ----------------------------------------------------------------- ranking

  lemma {:induction false} PrecedesTwo(a: Hypothesis, b: Hypothesis)
    ensures Precedes(a, b) || Precedes(b, a)
    ensures Precedes(a, b) && Precedes(b, a) ==> a.id == b.id
  {
    StringLeTotal(a.id, b.id);
  }

  lemma {:induction false} PrecedesThree(a: Hypothesis, b: Hypothesis, c: Hypothesis)
    requires Precedes(a, b) && Precedes(b, c)
    ensures Precedes(a, c)
  {
    if StringLe(c.id, b.id) && StringLe(b.id, a.id) {
      StringLeTransitive(c.id, b.id, a.id);
    }
  }

  lemma {:induction false} PrecedesIsPreorder()
    ensures Preorder(Precedes)
  {
    forall a, b
      ensures Precedes(a, b) || Precedes(b, a)
    {
      PrecedesTwo(a, b);
    }
    forall a, b, c | Precedes(a, b) && Precedes(b, c)
      ensures Precedes(a, c)
    {
      PrecedesThree(a, b, c);
    }
  }

  /**
   rank keeps every hypothesis, orders them by its key, and never puts a refuted
   one ahead of one nothing refutes.
   */
  lemma {:induction false} RankOrders(hypotheses: seq<Hypothesis>)
    ensures multiset(Rank(hypotheses)) == multiset(hypotheses)
    ensures Sorted(Precedes, Rank(hypotheses))
    ensures forall i, j :: 0 <= i < j < |Rank(hypotheses)| && Rank(hypotheses)[i].refuting != [] ==>
              Rank(hypotheses)[j].refuting != []
  {
    PrecedesIsPreorder();
    SortCorrect(Precedes, hypotheses);
    var ranked := Rank(hypotheses);
    forall i, j | 0 <= i < j < |ranked| && ranked[i].refuting != []
      ensures ranked[j].refuting != []
    {
      assert Precedes(ranked[i], ranked[j]);
    }
  }

  /** Equal ids mean the same hypothesis. */
  predicate DistinctHypotheses(hypotheses: seq<Hypothesis>) {
    forall a, b :: a in hypotheses && b in hypotheses && a.id == b.id ==> a == b
  }

  /**
   The order spelled out: what nothing refutes before what something does; then
   the surer, the more severe, the one with more support, and of equals the one
   whose id is the greater string.
   */
  lemma {:induction false} RankedByKey(ranked: seq<Hypothesis>, i: nat, j: nat)
    requires Sorted(Precedes, ranked) && i < j < |ranked|
    ensures
      var a, b := ranked[i], ranked[j];
      && (b.refuting == [] ==> a.refuting == [])
      && ((a.refuting == []) == (b.refuting == []) ==>
            && b.confidence <= a.confidence
            && (a.confidence == b.confidence ==>
                  && b.severity.Weight() <= a.severity.Weight()
                  && (a.severity.Weight() == b.severity.Weight() ==>
                        && |b.supporting| <= |a.supporting|
                        && (|a.supporting| == |b.supporting| ==>
                              b.id <= a.id || FirstDifference(b.id, a.id)))))
  {
    assert Precedes(ranked[i], ranked[j]);
    StringLeIs(ranked[j].id, ranked[i].id);
    hide StringLe, Severity.Weight;
  }

  lemma {:induction false} RankForgetsOrder(s: seq<Hypothesis>, t: seq<Hypothesis>)
    requires multiset(s) == multiset(t) && DistinctHypotheses(s)
    ensures Rank(s) == Rank(t)
  {
    PrecedesIsPreorder();
    forall a, b | a in s && b in s && Precedes(a, b) && Precedes(b, a)
      ensures a == b
    {
      PrecedesTwo(a, b);
    }
    SortForgetsOrder(Precedes, s, t);
  }

  // -------------------------------------------------------------- extraction

  /** Some rule that did not raise produced this signal. */
  predicate Observed(extractions: seq<Extraction>, s: Signal) {
    exists k :: 0 <= k < |extractions| && extractions[k].Produced? && s in extractions[k].signals
  }

  /** Equal signal ids mean equal signals. */
  ghost predicate Consistent(extractions: seq<Extraction>) {
    forall s, t :: Observed(extractions, s) && Observed(extractions, t) && s.id == t.id ==> s == t
  }

  predicate UniqueIds(signals: seq<Signal>) {
    forall i, j :: 0 <= i < j < |signals| ==> signals[i].id != signals[j].id
  }

  lemma {:induction false} MergeHolds(collected: seq<Signal>, produced: seq<Signal>)
    requires UniqueIds(collected)
    ensures UniqueIds(Merge(collected, produced))
    ensures forall s :: s in collected ==> s in Merge(collected, produced)
    ensures forall s :: s in Merge(collected, produced) ==> s in collected || s in produced
    ensures forall s :: s in produced ==> HasId(Merge(collected, produced), s.id)
    decreases |produced|
  {
    if produced != [] {
      var p := produced[0];
      var next := if HasId(collected, p.id) then collected else collected + [p];
      if !HasId(collected, p.id) {
        forall i | 0 <= i < |collected|
          ensures collected[i].id != p.id
        {
          assert collected[i] in collected;
        }
        assert p in next;
      }
      assert HasId(next, p.id);
      MergeHolds(next, produced[1..]);
      var q :| q in next && q.id == p.id;
      assert q in Merge(next, produced[1..]);
      assert forall s :: s in produced ==> s == p || s in produced[1..];
    }
  }

  lemma {:induction false} CollectedHolds(extractions: seq<Extraction>)
    ensures UniqueIds(Collected(extractions))
    ensures forall s :: s in Collected(extractions) ==> Observed(extractions, s)
    ensures forall s :: Observed(extractions, s) ==> HasId(Collected(extractions), s.id)
  {
    if extractions != [] {
      var n := |extractions| - 1;
      var before := Collected(extractions[..n]);
      CollectedHolds(extractions[..n]);
      if extractions[n].Produced? {
        MergeHolds(before, extractions[n].signals);
      }
      forall s
        ensures Observed(extractions, s) <==>
                Observed(extractions[..n], s) || (extractions[n].Produced? && s in extractions[n].signals)
      {
        if Observed(extractions[..n], s) {
          var k :| 0 <= k < n && extractions[..n][k].Produced? && s in extractions[..n][k].signals;
          assert extractions[k].Produced? && s in extractions[k].signals;
        }
        if k :| 0 <= k < |extractions| && extractions[k].Produced? && s in extractions[k].signals {
          assert k < n ==> extractions[..n][k] == extractions[k];
        }
      }
      forall s | Observed(extractions[..n], s)
        ensures HasId(Collected(extractions), s.id)
      {
        var t :| t in before && t.id == s.id;
        assert t in Collected(extractions);
      }
    }
  }

  /** When equal ids mean equal signals, the dictionary holds exactly what was observed. */
  lemma {:induction false} CollectedIsObserved(extractions: seq<Extraction>, s: Signal)
    requires Consistent(extractions)
    ensures s in Collected(extractions) <==> Observed(extractions, s)
  {
    CollectedHolds(extractions);
    if Observed(extractions, s) {
      var t :| t in Collected(extractions) && t.id == s.id;
    }
  }

  lemma {:induction false} NoRepeats(signals: seq<Signal>, s: Signal)
    requires UniqueIds(signals)
    ensures multiset(signals)[s] == if s in signals then 1 else 0
  {
    if signals != [] {
      var n := |signals| - 1;
      NoRepeats(signals[..n], s);
      assert signals == signals[..n] + [signals[n]];
    }
  }

  lemma {:induction false} SignalLeIsPreorder()
    ensures Preorder(SignalLe)
    ensures forall a, b :: SignalLe(a, b) && SignalLe(b, a) ==> a.id == b.id
  {
    forall a, b
      ensures SignalLe(a, b) || SignalLe(b, a)
      ensures SignalLe(a, b) && SignalLe(b, a) ==> a.id == b.id
    {
      StringLeTotal(a.id, b.id);
    }
    forall a, b, c | SignalLe(a, b) && SignalLe(b, c)
      ensures SignalLe(a, c)
    {
      if StringLe(a.id, b.id) && StringLe(b.id, c.id) {
        StringLeTransitive(a.id, b.id, c.id);
      }
    }
  }

  /** The extracted signals are those collected, the most severe first, and of equals the smaller id first. */
  lemma {:induction false} ExtractedByKey(extractions: seq<Extraction>, i: nat, j: nat)
    requires i < j < |ExtractedSignals(extractions)|
    ensures
      var a, b := ExtractedSignals(extractions)[i], ExtractedSignals(extractions)[j];
      && b.severity.Weight() <= a.severity.Weight()
      && (a.severity.Weight() == b.severity.Weight() ==>
            a.id <= b.id || FirstDifference(a.id, b.id))
  {
    SignalLeIsPreorder();
    SortCorrect(SignalLe, Collected(extractions));
    var s := ExtractedSignals(extractions);
    assert SignalLe(s[i], s[j]);
    StringLeIs(s[i].id, s[j].id);
    hide StringLe, Severity.Weight, Sort, Collected;
  }

  /** Everything observed, in order. */
  ghost function Observations(extractions: seq<Extraction>): seq<Signal> {
    if extractions == [] then []
    else
      var n := |extractions| - 1;
      Observations(extractions[..n]) + if extractions[n].Produced? then extractions[n].signals else []
  }

  /** The signal is the first observed under its id. */
  ghost predicate IsFirst(observed: seq<Signal>, s: Signal) {
    exists k :: 0 <= k < |observed| && observed[k] == s && forall j :: 0 <= j < k ==> observed[j].id != s.id
  }

  lemma {:induction false} FirstOfMore(observed: seq<Signal>, p: Signal, s: Signal)
    ensures IsFirst(observed + [p], s) <==> IsFirst(observed, s) || (s == p && !HasId(observed, p.id))
  {
    var more := observed + [p];
    if IsFirst(observed, s) {
      var k :| 0 <= k < |observed| && observed[k] == s && forall j :: 0 <= j < k ==> observed[j].id != s.id;
      assert more[k] == s && forall j :: 0 <= j < k ==> more[j].id != s.id;
    }
    if s == p && !HasId(observed, p.id) {
      forall j | 0 <= j < |observed|
        ensures more[j].id != s.id
      {
        assert observed[j] in observed;
      }
      assert more[|observed|] == s;
    }
    if IsFirst(more, s) {
      var k :| 0 <= k < |more| && more[k] == s && forall j :: 0 <= j < k ==> more[j].id != s.id;
      if k < |observed| {
        assert forall j :: 0 <= j < k ==> more[j] == observed[j];
      } else {
        forall t | t in observed
          ensures t.id != p.id
        {
          var j :| 0 <= j < |observed| && observed[j] == t;
          assert more[j] == t;
        }
      }
    }
  }

  lemma {:induction false} MergeFirst(collected: seq<Signal>, observed: seq<Signal>, produced: seq<Signal>)
    requires forall s :: s in collected <==> IsFirst(observed, s)
    requires forall id :: HasId(collected, id) <==> HasId(observed, id)
    ensures forall s :: s in Merge(collected, produced) <==> IsFirst(observed + produced, s)
    ensures forall id :: HasId(Merge(collected, produced), id) <==> HasId(observed + produced, id)
    decreases |produced|
  {
    if produced == [] {
      assert observed + produced == observed;
    } else {
      var p := produced[0];
      var next := if HasId(collected, p.id) then collected else collected + [p];
      forall s
        ensures s in next <==> IsFirst(observed + [p], s)
      {
        FirstOfMore(observed, p, s);
      }
      HasIdAppend(collected, p);
      HasIdAppend(observed, p);
      assert (observed + [p]) + produced[1..] == observed + produced;
      hide IsFirst, HasId;
      MergeFirst(next, observed + [p], produced[1..]);
    }
  }

  lemma {:induction false} CollectedFirst(extractions: seq<Extraction>)
    ensures forall s :: s in Collected(extractions) <==> IsFirst(Observations(extractions), s)
    ensures forall id :: HasId(Collected(extractions), id) <==> HasId(Observations(extractions), id)
  {
    if extractions != [] {
      var n := |extractions| - 1;
      CollectedFirst(extractions[..n]);
      hide IsFirst, HasId;
      if extractions[n].Produced? {
        MergeFirst(Collected(extractions[..n]), Observations(extractions[..n]), extractions[n].signals);
      } else {
        assert Observations(extractions[..n]) + [] == Observations(extractions[..n]);
      }
    }
  }

  /** Which signals are extracted: of each id the first observed, and each once. */
  lemma {:induction false} FirstObservationWins(extractions: seq<Extraction>, s: Signal)
    ensures s in ExtractedSignals(extractions) <==> IsFirst(Observations(extractions), s)
    ensures multiset(ExtractedSignals(extractions))[s] <= 1
  {
    SignalLeIsPreorder();
    SortCorrect(SignalLe, Collected(extractions));
    CollectedFirst(extractions);
    CollectedHolds(extractions);
    NoRepeats(Collected(extractions), s);
    hide Sort, Collected, SignalLe, IsFirst, HasId, UniqueIds;
  }

  /**
   The extracted signals are a function of the set of observations: permuting
   the rules, repeating an observation, or adding a rule that raises changes
   nothing.
   */
  lemma {:induction false} ExtractionIsOfASet(first: seq<Extraction>, second: seq<Extraction>)
    requires Consistent(first) && forall s :: Observed(first, s) <==> Observed(second, s)
    ensures ExtractedSignals(first) == ExtractedSignals(second)
  {
    var a, b := Collected(first), Collected(second);
    CollectedHolds(first);
    CollectedHolds(second);
    forall s
      ensures multiset(a)[s] == multiset(b)[s]
    {
      CollectedIsObserved(first, s);
      CollectedIsObserved(second, s);
      NoRepeats(a, s);
      NoRepeats(b, s);
    }
    assert multiset(a) == multiset(b);
    SignalLeIsPreorder();
    forall s, t | s in a && t in a && SignalLe(s, t) && SignalLe(t, s)
      ensures s == t
    {
      assert Observed(first, s) && Observed(first, t);
    }
    SortForgetsOrder(SignalLe, a, b);
  }

  // -------------------------------------------------------------- hypotheses

  lemma {:induction false} ProposalsSplit(a: seq<HypothesisRule>, b: seq<HypothesisRule>, signals: seq<Signal>)
    ensures Proposals(a + b, signals) == Proposals(a, signals) + Proposals(b, signals)
  {
    if b == [] {
      assert a + b == a;
    } else {
      var n := |b| - 1;
      ProposalsSplit(a, b[..n], signals);
      assert (a + b)[..|a| + n] == a + b[..n] && (a + b)[|a| + n] == b[n];
      ProposalsLast(a + b, signals);
      ProposalsLast(b, signals);
      hide Proposals;
    }
  }

  lemma {:induction false} ProposalsLast(rules: seq<HypothesisRule>, signals: seq<Signal>)
    requires rules != []
    ensures
      var n := |rules| - 1;
      Proposals(rules, signals) == Proposals(rules[..n], signals) +
      match rules[n].evaluate(signals)
      case Proposes(h) => [h]
      case _ => []
  {
  }

  /** A rule that raises has the effect of a rule left out. */
  lemma {:induction false} RaisingIsLeavingOut(a: seq<HypothesisRule>, x: HypothesisRule, b: seq<HypothesisRule>,
                                               signals: seq<Signal>)
    requires x.evaluate(signals).EvaluateRaised?
    ensures Built(a + [x] + b, signals) == Built(a + b, signals)
  {
    ProposalsSplit(a + [x], b, signals);
    ProposalsSplit(a, [x], signals);
    ProposalsSplit(a, b, signals);
    assert Proposals([x], signals) == [];
  }

  lemma {:induction false} ProposalsAround(a: seq<HypothesisRule>, x: HypothesisRule, b: seq<HypothesisRule>,
                                           signals: seq<Signal>)
    ensures multiset(Proposals(a + [x] + b, signals))
            == multiset(Proposals([x], signals)) + multiset(Proposals(a + b, signals))
  {
    ProposalsSplit(a + [x], b, signals);
    ProposalsSplit(a, [x], signals);
    ProposalsSplit(a, b, signals);
    hide Proposals;
  }

  lemma {:induction false} TakeOut<T>(t: seq<T>, x: T) returns (a: seq<T>, b: seq<T>)
    requires x in multiset(t)
    ensures t == a + [x] + b && multiset(a + b) == multiset(t) - multiset{x}
  {
    MultisetMember(t, x);
    var k :| 0 <= k < |t| && t[k] == x;
    a, b := t[..k], t[k + 1..];
    assert t == a + [x] + b;
    assert multiset(t) == multiset(a) + multiset{x} + multiset(b);
  }

  lemma {:induction false} ProposalsPermute(s: seq<HypothesisRule>, t: seq<HypothesisRule>, signals: seq<Signal>)
    requires multiset(s) == multiset(t)
    ensures multiset(Proposals(s, signals)) == multiset(Proposals(t, signals))
    decreases |s|
  {
    if s == [] {
      assert |multiset(t)| == |t|;
    } else {
      MultisetMember(s, s[0]);
      var a, b := TakeOut(t, s[0]);
      var x, rest := s[0], s[1..];
      hide Proposals;
      assert s == [] + [x] + rest && [] + rest == rest;
      TailMultiset(s);
      ProposalsPermute(rest, a + b, signals);
      ProposalsAround([], x, rest, signals);
      ProposalsAround(a, x, b, signals);
    }
  }

  /** Each rule proposes under its own id. */
  ghost predicate OwnIds(rules: seq<HypothesisRule>) {
    forall r, signals: seq<Signal> :: r in rules && r.evaluate(signals).Proposes? ==>
      r.evaluate(signals).hypothesis.id == r.id
  }

  predicate DistinctRules(rules: seq<HypothesisRule>) {
    forall i, j :: 0 <= i < j < |rules| ==> rules[i].id != rules[j].id
  }

  /** A proposal comes from the rule of its id. */
  lemma {:induction false} ProposalFrom(rules: seq<HypothesisRule>, signals: seq<Signal>, h: Hypothesis)
    requires h in Proposals(rules, signals)
    ensures exists k :: 0 <= k < |rules| && rules[k].evaluate(signals) == Proposes(h)
  {
    var n := |rules| - 1;
    if rules[n].evaluate(signals) != Proposes(h) {
      ProposalFrom(rules[..n], signals, h);
      var k :| 0 <= k < n && rules[..n][k].evaluate(signals) == Proposes(h);
      assert rules[k].evaluate(signals) == Proposes(h);
    }
  }

  lemma {:induction false} ProposedIn(rules: seq<HypothesisRule>, signals: seq<Signal>, k: nat)
    requires k < |rules| && rules[k].evaluate(signals).Proposes?
    ensures rules[k].evaluate(signals).hypothesis in Proposals(rules, signals)
  {
    ProposalsSplit(rules[..k + 1], rules[k + 1..], signals);
    assert rules == rules[..k + 1] + rules[k + 1..];
    assert rules[..k + 1][..k] == rules[..k];
  }

  lemma {:induction false} ProposalsAreDistinct(rules: seq<HypothesisRule>, signals: seq<Signal>)
    requires OwnIds(rules) && DistinctRules(rules)
    ensures DistinctHypotheses(Proposals(rules, signals))
  {
    forall a, b | a in Proposals(rules, signals) && b in Proposals(rules, signals) && a.id == b.id
      ensures a == b
    {
      ProposalFrom(rules, signals, a);
      ProposalFrom(rules, signals, b);
      var i :| 0 <= i < |rules| && rules[i].evaluate(signals) == Proposes(a);
      var j :| 0 <= j < |rules| && rules[j].evaluate(signals) == Proposes(b);
      assert rules[i] in rules && rules[j] in rules;
      assert rules[i].id == rules[j].id;
    }
  }

  /**
   The whole analysis is a function of the set of observations and the set of
   hypothesis rules: neither list's order, nor a repeated observation, nor a
   signal rule that raises, changes it.
   */
  lemma {:induction false} AnalysisForgetsOrder(
      first: seq<Extraction>, second: seq<Extraction>,
      rules: seq<HypothesisRule>, shuffled: seq<HypothesisRule>, scope: Scope)
    requires Consistent(first) && forall s :: Observed(first, s) <==> Observed(second, s)
    requires multiset(rules) == multiset(shuffled) && OwnIds(rules) && DistinctRules(rules)
    ensures Analyze(first, rules, scope) == Analyze(second, shuffled, scope)
  {
    ExtractionIsOfASet(first, second);
    var signals := ExtractedSignals(first);
    BuiltForgetsOrder(rules, shuffled, signals);
    BuiltForgetsOrder(rules, shuffled, Within(scope, signals));
    hide Built, ExtractedSignals, Within, Others;
  }

  lemma {:induction false} BuiltForgetsOrder(rules: seq<HypothesisRule>, shuffled: seq<HypothesisRule>,
                                             signals: seq<Signal>)
    requires multiset(rules) == multiset(shuffled) && OwnIds(rules) && DistinctRules(rules)
    ensures Built(rules, signals) == Built(shuffled, signals)
  {
    ProposalsPermute(rules, shuffled, signals);
    ProposalsAreDistinct(rules, signals);
    RankForgetsOrder(Proposals(rules, signals), Proposals(shuffled, signals));
  }

  // ------------------------------------------------------------------- scope

  lemma {:induction false} WithinIs(scope: Scope, signals: seq<Signal>, s: Signal)
    ensures s in Within(scope, signals) <==> s in signals && InScope(scope, s.target)
  {
    hide InScope;
    if signals != [] {
      WithinIs(scope, signals[1..], s);
    }
  }

  /** A pattern rule that fires on part of the evidence fires on all of it. */
  lemma {:induction false} FiringIsMonotone(rule: PatternRule, part: seq<Signal>, whole: seq<Signal>)
    requires forall s :: s in part ==> s in whole
    requires Evaluation(rule, part).Some?
    ensures Evaluation(rule, whole).Some?
  {
    var t := Triggering(rule, part)[0];
    TriggeringIs(rule, part, t);
    TriggeringIs(rule, whole, t);
  }

  lemma {:induction false} PatternAt(rules: seq<PatternRule>, k: nat)
    requires k < |rules|
    ensures |FromPatterns(rules)| == |rules| && FromPatterns(rules)[k] == FromPattern(rules[k])
  {
    PatternsLength(rules);
    if k > 0 {
      PatternAt(rules[1..], k - 1);
    }
  }

  lemma {:induction false} PatternsLength(rules: seq<PatternRule>)
    ensures |FromPatterns(rules)| == |rules|
  {
    if rules != [] {
      PatternsLength(rules[1..]);
    }
  }

  predicate DistinctPatterns(rules: seq<PatternRule>) {
    forall i, j :: 0 <= i < j < |rules| ==> rules[i].id != rules[j].id
  }

  lemma {:induction false} PatternsAreLawful(rules: seq<PatternRule>)
    requires DistinctPatterns(rules)
    ensures OwnIds(FromPatterns(rules)) && DistinctRules(FromPatterns(rules))
  {
    PatternsLength(rules);
    var all := FromPatterns(rules);
    forall r, signals: seq<Signal> | r in all && r.evaluate(signals).Proposes?
      ensures r.evaluate(signals).hypothesis.id == r.id
    {
      var k :| 0 <= k < |all| && all[k] == r;
      PatternAt(rules, k);
    }
    forall i, j | 0 <= i < j < |all|
      ensures all[i].id != all[j].id
    {
      PatternAt(rules, i);
      PatternAt(rules, j);
    }
  }

  /** The hypotheses built from pattern rules are their evaluations. */
  lemma {:induction false} BuiltFromPatterns(rules: seq<PatternRule>, signals: seq<Signal>, h: Hypothesis)
    ensures h in Built(FromPatterns(rules), signals) <==>
            exists k :: 0 <= k < |rules| && Evaluation(rules[k], signals) == Some(h)
  {
    var all := FromPatterns(rules);
    PatternsLength(rules);
    PrecedesIsPreorder();
    SortMember(Precedes, Proposals(all, signals), h);
    if h in Proposals(all, signals) {
      ProposalFrom(all, signals, h);
      var k :| 0 <= k < |all| && all[k].evaluate(signals) == Proposes(h);
      PatternAt(rules, k);
      assert Evaluation(rules[k], signals) == Some(h);
    }
    if k :| 0 <= k < |rules| && Evaluation(rules[k], signals) == Some(h) {
      PatternAt(rules, k);
      ProposedIn(all, signals, k);
    }
  }

  lemma {:induction false} IdListed(hypotheses: seq<Hypothesis>, id: string)
    ensures id in HypothesisIds(hypotheses) <==> exists h :: h in hypotheses && h.id == id
  {
    if hypotheses != [] {
      IdListed(hypotheses[1..], id);
    }
  }

  lemma {:induction false} OthersIs(hypotheses: seq<Hypothesis>, taken: set<string>, h: Hypothesis)
    ensures h in Others(hypotheses, taken) <==> h in hypotheses && h.id !in taken
  {
    if hypotheses != [] {
      OthersIs(hypotheses[1..], taken, h);
    }
  }

  lemma {:induction false} OthersStaySorted(hypotheses: seq<Hypothesis>, taken: set<string>)
    requires Sorted(Precedes, hypotheses)
    ensures Sorted(Precedes, Others(hypotheses, taken))
  {
    if hypotheses != [] {
      OthersStaySorted(hypotheses[1..], taken);
      var rest := Others(hypotheses[1..], taken);
      forall j | 0 <= j < |rest|
        ensures Precedes(hypotheses[0], rest[j])
      {
        OthersIs(hypotheses[1..], taken, rest[j]);
        var k :| 0 <= k < |hypotheses[1..]| && hypotheses[1..][k] == rest[j];
        assert hypotheses[k + 1] == rest[j];
      }
      hide Precedes;
    }
  }

  /** No two places hold the same id. */
  predicate Unrepeated(hypotheses: seq<Hypothesis>) {
    forall i, j :: 0 <= i < j < |hypotheses| ==> hypotheses[i].id != hypotheses[j].id
  }

  lemma {:induction false} IdCounts(hypotheses: seq<Hypothesis>, id: string)
    requires Unrepeated(hypotheses)
    ensures multiset(HypothesisIds(hypotheses))[id] == if id in HypothesisIds(hypotheses) then 1 else 0
  {
    if hypotheses != [] {
      IdCounts(hypotheses[1..], id);
      IdListed(hypotheses[1..], id);
    }
  }

  lemma {:induction false} IdsSplit(a: seq<Hypothesis>, b: seq<Hypothesis>)
    ensures HypothesisIds(a + b) == HypothesisIds(a) + HypothesisIds(b)
  {
    if a == [] {
      assert a + b == b;
    } else {
      IdsSplit(a[1..], b);
      FirstId(a);
      FirstId(a + b);
      assert (a + b)[1..] == a[1..] + b && (a + b)[0] == a[0];
      hide HypothesisIds;
    }
  }

  lemma {:induction false} FirstId(hypotheses: seq<Hypothesis>)
    requires hypotheses != []
    ensures HypothesisIds(hypotheses) == [hypotheses[0].id] + HypothesisIds(hypotheses[1..])
  {
  }

  lemma {:induction false} ProposalsUnrepeated(rules: seq<HypothesisRule>, signals: seq<Signal>)
    requires OwnIds(rules) && DistinctRules(rules)
    ensures Unrepeated(Proposals(rules, signals))
  {
    if rules != [] {
      var n := |rules| - 1;
      var before := Proposals(rules[..n], signals);
      ProposalsUnrepeated(rules[..n], signals);
      forall i | 0 <= i < |before|
        ensures before[i].id != rules[n].id
      {
        ProposalFrom(rules[..n], signals, before[i]);
        var k :| 0 <= k < n && rules[..n][k].evaluate(signals) == Proposes(before[i]);
        assert rules[k] in rules && rules[k].id == before[i].id;
      }
      assert rules[n] in rules;
    }
  }

  lemma {:induction false} Twice<T>(s: seq<T>, i: nat, j: nat)
    requires i < j < |s| && s[i] == s[j]
    ensures 2 <= multiset(s)[s[i]]
  {
    assert s == s[..j] + s[j..];
    assert s[i] == s[..j][i] && s[i] == s[j..][0];
    assert s[i] in multiset(s[..j]) && s[i] in multiset(s[j..]);
  }

  lemma {:induction false} OnceEach(hypotheses: seq<Hypothesis>, h: Hypothesis)
    requires Unrepeated(hypotheses)
    ensures multiset(hypotheses)[h] <= 1
  {
    if hypotheses != [] {
      var n := |hypotheses| - 1;
      OnceEach(hypotheses[..n], h);
      assert hypotheses == hypotheses[..n] + [hypotheses[n]];
      forall i | 0 <= i < n
        ensures hypotheses[..n][i] != hypotheses[n]
      {
      }
      MultisetMember(hypotheses[..n], hypotheses[n]);
    }
  }

  lemma {:induction false} BuiltUnrepeated(rules: seq<HypothesisRule>, signals: seq<Signal>)
    requires OwnIds(rules) && DistinctRules(rules)
    ensures Unrepeated(Built(rules, signals)) && Sorted(Precedes, Built(rules, signals))
  {
    var proposals, ranked := Proposals(rules, signals), Built(rules, signals);
    ProposalsUnrepeated(rules, signals);
    ProposalsAreDistinct(rules, signals);
    RankOrders(proposals);
    hide Proposals, Precedes;
    forall i, j | 0 <= i < j < |ranked|
      ensures ranked[i].id != ranked[j].id
    {
      MultisetMember(ranked, ranked[i]);
      MultisetMember(ranked, ranked[j]);
      MultisetMember(proposals, ranked[i]);
      MultisetMember(proposals, ranked[j]);
      if ranked[i] == ranked[j] {
        Twice(ranked, i, j);
        OnceEach(proposals, ranked[i]);
      }
    }
  }

  lemma {:induction false} OthersUnrepeated(hypotheses: seq<Hypothesis>, taken: set<string>)
    requires Unrepeated(hypotheses)
    ensures Unrepeated(Others(hypotheses, taken))
  {
    if hypotheses != [] {
      var rest := Others(hypotheses[1..], taken);
      OthersUnrepeated(hypotheses[1..], taken);
      forall j | 0 <= j < |rest|
        ensures hypotheses[0].id != rest[j].id
      {
        OthersIs(hypotheses[1..], taken, rest[j]);
        var k :| 0 <= k < |hypotheses[1..]| && hypotheses[1..][k] == rest[j];
        assert hypotheses[k + 1] == rest[j];
      }
    }
  }

  /** Ids that fire within the scope also fire on everything. */
  lemma {:induction false} ScopedIdsFire(rules: seq<PatternRule>, scope: Scope, signals: seq<Signal>, id: string)
    requires id in HypothesisIds(Built(FromPatterns(rules), Within(scope, signals)))
    ensures id in HypothesisIds(Built(FromPatterns(rules), signals))
  {
    hide Built, Within, HypothesisIds, FromPatterns;
    var scoped, whole := Built(FromPatterns(rules), Within(scope, signals)), Built(FromPatterns(rules), signals);
    IdListed(scoped, id);
    var h :| h in scoped && h.id == id;
    BuiltFromPatterns(rules, Within(scope, signals), h);
    var k :| 0 <= k < |rules| && Evaluation(rules[k], Within(scope, signals)) == Some(h);
    forall s | s in Within(scope, signals)
      ensures s in signals
    {
      WithinIs(scope, signals, s);
    }
    FiringIsMonotone(rules[k], Within(scope, signals), signals);
    var g := Evaluation(rules[k], signals).value;
    BuiltFromPatterns(rules, signals, g);
    IdListed(whole, id);
  }

  /**
   A scope only reorders: the scoped analysis offers exactly the hypotheses ids
   of the unscoped one, each once, over the same signals.
   */
  lemma {:induction false} ScopeOnlyReorders(extractions: seq<Extraction>, rules: seq<PatternRule>, scope: Scope)
    requires DistinctPatterns(rules)
    ensures
      var whole := Analyze(extractions, FromPatterns(rules), Scope("", ""));
      var scoped := Analyze(extractions, FromPatterns(rules), scope);
      && scoped.signals == whole.signals
      && multiset(HypothesisIds(scoped.hypotheses)) == multiset(HypothesisIds(whole.hypotheses))
      && forall id :: multiset(HypothesisIds(whole.hypotheses))[id] <= 1
  {
    var all, signals := FromPatterns(rules), ExtractedSignals(extractions);
    var whole := Built(all, signals);
    PatternsAreLawful(rules);
    BuiltUnrepeated(all, signals);
    forall id
      ensures multiset(HypothesisIds(whole))[id] <= 1
    {
      IdCounts(whole, id);
    }
    if Narrows(scope) {
      var scoped := Built(all, Within(scope, signals));
      BuiltUnrepeated(all, Within(scope, signals));
      ReorderedIds(rules, scope, signals);
    }
    hide Built, ExtractedSignals, Within, Others, HypothesisIds, Unrepeated;
  }

  lemma {:induction false} ReorderedIds(rules: seq<PatternRule>, scope: Scope, signals: seq<Signal>)
    requires DistinctPatterns(rules)
    ensures
      var whole := Built(FromPatterns(rules), signals);
      var scoped := Built(FromPatterns(rules), Within(scope, signals));
      var taken := set id | id in HypothesisIds(scoped);
      multiset(HypothesisIds(scoped + Others(whole, taken))) == multiset(HypothesisIds(whole))
  {
    hide Built, Within, Others, HypothesisIds, Unrepeated, FromPatterns;
    var all := FromPatterns(rules);
    var whole, scoped := Built(all, signals), Built(all, Within(scope, signals));
    var taken := set id | id in HypothesisIds(scoped);
    var others := Others(whole, taken);
    PatternsAreLawful(rules);
    BuiltUnrepeated(all, signals);
    BuiltUnrepeated(all, Within(scope, signals));
    OthersUnrepeated(whole, taken);
    IdsSplit(scoped, others);
    forall id
      ensures multiset(HypothesisIds(scoped + others))[id] == multiset(HypothesisIds(whole))[id]
    {
      IdCounts(whole, id);
      IdCounts(scoped, id);
      IdCounts(others, id);
      OtherId(whole, taken, id);
      if id in HypothesisIds(scoped) {
        ScopedIdsFire(rules, scope, signals, id);
      }
    }
  }

  lemma {:induction false} OtherId(hypotheses: seq<Hypothesis>, taken: set<string>, id: string)
    ensures id in HypothesisIds(Others(hypotheses, taken)) <==> id in HypothesisIds(hypotheses) && id !in taken
  {
    IdListed(Others(hypotheses, taken), id);
    IdListed(hypotheses, id);
    forall h
      ensures h in Others(hypotheses, taken) <==> h in hypotheses && h.id !in taken
    {
      OthersIs(hypotheses, taken, h);
    }
  }

  /** What a scope on a pod or a deployment is about: the resource of that name, or a pod of that deployment. */
  ghost predicate Concerns(scope: Scope, target: ResourceRef) {
    if Lower(scope.resourceKind) == "pod" then target.kind == "Pod" && target.name == scope.resourceName
    else
      || (target.kind == "Deployment" && target.name == scope.resourceName)
      || (target.kind == "Pod" && NamedAfter(scope.resourceName, target.name))
  }

  /** Some signal about what the scope is about carries this id. */
  ghost predicate CarriedWithin(scope: Scope, signals: seq<Signal>, id: string) {
    exists s :: s in signals && s.id == id && Concerns(scope, s.target)
  }

  /** A scope narrows an analysis exactly when it names a pod or a deployment; otherwise nothing is led by it. */
  lemma {:induction false} ScopedIff(extractions: seq<Extraction>, rules: seq<HypothesisRule>, scope: Scope)
    ensures
      var a := Analyze(extractions, rules, scope);
      && a.signals == ExtractedSignals(extractions)
      && (a.scopedResource.Some? <==>
            && scope.resourceName != ""
            && (Lower(scope.resourceKind) == "pod" || Lower(scope.resourceKind) == "deployment"))
      && (a.scopedResource.Some? ==> a.scopedResource.value == scope.resourceKind + "/" + scope.resourceName)
      && (a.scopedResource.None? ==> a.scopedHypotheses == 0 && a.hypotheses == Built(rules, a.signals))
  {
    hide Built, ExtractedSignals, Within, Others, HypothesisIds, Lower;
  }

  lemma {:induction false} InScopeIff(scope: Scope, target: ResourceRef)
    ensures InScope(scope, target) <==> Concerns(scope, target)
  {
    MatchesNamedAfter(scope.resourceName, target.name);
    hide MatchesReplicasOf, NamedAfter, Lower;
  }

  /** The evidence a scoped analysis leads with: what concerns the resource that was asked for. */
  lemma {:induction false} WithinConcerns(scope: Scope, signals: seq<Signal>, s: Signal)
    ensures s in Within(scope, signals) <==> s in signals && Concerns(scope, s.target)
  {
    WithinIs(scope, signals, s);
    InScopeIff(scope, s.target);
    hide InScope, Concerns;
  }

  lemma {:induction false} LeadIsWithin(rules: seq<PatternRule>, scope: Scope, signals: seq<Signal>, h: Hypothesis)
    requires h in Built(FromPatterns(rules), Within(scope, signals))
    ensures Concerns(scope, h.target)
    ensures forall id :: id in h.supporting ==> CarriedWithin(scope, signals, id)
    ensures forall id :: id in h.refuting ==> CarriedWithin(scope, signals, id)
  {
    hide Built, FromPatterns, InScope, Within, Concerns;
    var inside := Within(scope, signals);
    BuiltFromPatterns(rules, inside, h);
    var k :| 0 <= k < |rules| && Evaluation(rules[k], inside) == Some(h);
    CitesOnlyGiven(rules[k], inside);
    forall s | s in inside
      ensures s in signals && Concerns(scope, s.target)
    {
      WithinIs(scope, signals, s);
      InScopeIff(scope, s.target);
    }
  }

  /**
   The leading hypotheses of a scoped analysis are about the resource that was
   asked for and cite only signals about it; both segments are ranked. No
   hypothesis leads that the evidence about the resource does not yield alone.
   */
  lemma {:induction false} ScopedLead(extractions: seq<Extraction>, rules: seq<PatternRule>, scope: Scope)
    requires DistinctPatterns(rules) && Analyze(extractions, FromPatterns(rules), scope).scopedResource.Some?
    ensures
      var a := Analyze(extractions, FromPatterns(rules), scope);
      var lead := a.scopedHypotheses;
      && lead <= |a.hypotheses|
      && (forall k :: 0 <= k < lead ==>
            Concerns(scope, a.hypotheses[k].target) &&
            (forall id :: id in a.hypotheses[k].supporting ==> CarriedWithin(scope, a.signals, id)) &&
            (forall id :: id in a.hypotheses[k].refuting ==> CarriedWithin(scope, a.signals, id)))
      && Sorted(Precedes, a.hypotheses[..lead])
      && Sorted(Precedes, a.hypotheses[lead..])
      && a.hypotheses[..lead] == Built(FromPatterns(rules), Within(scope, a.signals))
      && forall k :: lead <= k < |a.hypotheses| ==> a.hypotheses[k] in Built(FromPatterns(rules), a.signals)
  {
    hide Built, ExtractedSignals, Others, HypothesisIds, Unrepeated, FromPatterns, InScope, Narrows, Precedes, Within,
      Concerns, CarriedWithin, Sorted, OwnIds, DistinctRules;
    var all, signals := FromPatterns(rules), ExtractedSignals(extractions);
    var inside := Within(scope, signals);
    var scoped, whole := Built(all, inside), Built(all, signals);
    var taken := set id | id in HypothesisIds(scoped);
    PatternsAreLawful(rules);
    BuiltUnrepeated(all, signals);
    BuiltUnrepeated(all, inside);
    OthersStaySorted(whole, taken);
    var a := Analyze(extractions, all, scope);
    assert a.hypotheses[..|scoped|] == scoped && a.hypotheses[|scoped|..] == Others(whole, taken);
    forall h | h in Others(whole, taken)
      ensures h in whole
    {
      OthersIs(whole, taken, h);
    }
    assert forall k :: |scoped| <= k < |a.hypotheses| ==> a.hypotheses[k] == Others(whole, taken)[k - |scoped|];
    assert Narrows(scope);
    forall h | h in scoped
      ensures Concerns(scope, h.target)
      ensures forall id :: id in h.supporting ==> CarriedWithin(scope, signals, id)
      ensures forall id :: id in h.refuting ==> CarriedWithin(scope, signals, id)
    {
      LeadIsWithin(rules, scope, signals, h);
    }
  }
}
