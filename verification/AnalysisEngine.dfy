/** From rule outputs to one ranked, possibly scoped, analysis. */
module AnalysisEngine {
  import opened Prelude
  import opened Ordering
  import opened Names
  import opened Signals
  import opened HypothesisRules

  /** What one signal rule did with the investigation at hand. */
  datatype Extraction = ExtractRaised | Produced(signals: seq<Signal>)

  datatype Verdict = EvaluateRaised | Silent | Proposes(hypothesis: Hypothesis)

  datatype HypothesisRule = HypothesisRule(id: string, evaluate: seq<Signal> -> Verdict)

  datatype Scope = Scope(resourceKind: string, resourceName: string)

  datatype Analysis = Analysis(
    signals: seq<Signal>,
    hypotheses: seq<Hypothesis>,
    scopedResource: Option<string>,
    scopedHypotheses: nat)

  function FromPattern(rule: PatternRule): HypothesisRule {
    HypothesisRule(rule.id, signals =>
      match Evaluation(rule, signals)
      case None => Silent
      case Some(h) => Proposes(h))
  }

  function FromPatterns(rules: seq<PatternRule>): seq<HypothesisRule> {
    if rules == [] then [] else [FromPattern(rules[0])] + FromPatterns(rules[1..])
  }

  // ----------------------------------------------------------------- signals

  predicate HasId(signals: seq<Signal>, id: string) {
    exists s :: s in signals && s.id == id
  }

  /** dict.setdefault, over the insertion order of the dictionary. */
  function Merge(collected: seq<Signal>, produced: seq<Signal>): seq<Signal>
    decreases |produced|
  {
    if produced == [] then collected
    else
      Merge(if HasId(collected, produced[0].id) then collected else collected + [produced[0]], produced[1..])
  }

  function Collected(extractions: seq<Extraction>): seq<Signal> {
    if extractions == [] then []
    else
      var n := |extractions| - 1;
      var before := Collected(extractions[..n]);
      match extractions[n]
      case ExtractRaised => before
      case Produced(signals) => Merge(before, signals)
  }

  /** The key (-severity.weight, id), ascending. */
  predicate SignalLe(a: Signal, b: Signal) {
    if a.severity.Weight() != b.severity.Weight() then b.severity.Weight() < a.severity.Weight()
    else StringLe(a.id, b.id)
  }

  function ExtractedSignals(extractions: seq<Extraction>): seq<Signal> {
    Sort(SignalLe, Collected(extractions))
  }

  method ExtractSignals(extractions: seq<Extraction>) returns (signals: seq<Signal>)
    ensures signals == ExtractedSignals(extractions)
  {
    var collected: map<string, Signal> := map[];
    var order: seq<Signal> := [];
    for k := 0 to |extractions|
      invariant order == Collected(extractions[..k])
      invariant forall id :: id in collected <==> HasId(order, id)
    {
      assert extractions[..k + 1][..k] == extractions[..k];
      if extractions[k].Produced? {
        var produced := extractions[k].signals;
        ghost var start := order;
        for m := 0 to |produced|
          invariant Merge(order, produced[m..]) == Merge(start, produced)
          invariant forall id :: id in collected <==> HasId(order, id)
        {
          var signal := produced[m];
          assert produced[m..][1..] == produced[m + 1..];
          if signal.id !in collected {
            HasIdAppend(order, signal);
            collected := collected[signal.id := signal];
            order := order + [signal];
          }
        }
        assert produced[|produced|..] == [];
      }
    }
    assert extractions[..|extractions|] == extractions;
    signals := Sort(SignalLe, order);
  }

  lemma {:induction false} HasIdAppend(signals: seq<Signal>, s: Signal)
    ensures forall id :: HasId(signals + [s], id) <==> HasId(signals, id) || id == s.id
  {
    forall id
      ensures HasId(signals + [s], id) <==> HasId(signals, id) || id == s.id
    {
      if id == s.id {
        assert s in signals + [s];
      }
      if t :| t in signals && t.id == id {
        assert t in signals + [s];
      }
    }
  }

  // -------------------------------------------------------------- hypotheses

  function Proposals(rules: seq<HypothesisRule>, signals: seq<Signal>): seq<Hypothesis> {
    if rules == [] then []
    else
      var n := |rules| - 1;
      var before := Proposals(rules[..n], signals);
      match rules[n].evaluate(signals)
      case Proposes(h) => before + [h]
      case _ => before
  }

  function Built(rules: seq<HypothesisRule>, signals: seq<Signal>): seq<Hypothesis> {
    Rank(Proposals(rules, signals))
  }

  method BuildHypotheses(rules: seq<HypothesisRule>, signals: seq<Signal>) returns (ranked: seq<Hypothesis>)
    ensures ranked == Built(rules, signals)
  {
    var hypotheses := [];
    for k := 0 to |rules|
      invariant hypotheses == Proposals(rules[..k], signals)
    {
      assert rules[..k + 1][..k] == rules[..k];
      var verdict := rules[k].evaluate(signals);
      if verdict.Proposes? {
        hypotheses := hypotheses + [verdict.hypothesis];
      }
    }
    assert rules[..|rules|] == rules;
    ranked := Rank(hypotheses);
  }

  // ------------------------------------------------------------------- scope

  predicate Narrows(scope: Scope) {
    scope.resourceName != "" && (Lower(scope.resourceKind) == "pod" || Lower(scope.resourceKind) == "deployment")
  }

  predicate InScope(scope: Scope, target: ResourceRef) {
    if Lower(scope.resourceKind) == "pod" then target.kind == "Pod" && target.name == scope.resourceName
    else
      || (target.kind == "Deployment" && target.name == scope.resourceName)
      || (target.kind == "Pod" && MatchesReplicasOf(scope.resourceName, target.name))
  }

  function Within(scope: Scope, signals: seq<Signal>): seq<Signal> {
    if signals == [] then []
    else
      var rest := Within(scope, signals[1..]);
      if InScope(scope, signals[0].target) then [signals[0]] + rest else rest
  }

  function HypothesisIds(hypotheses: seq<Hypothesis>): seq<string> {
    if hypotheses == [] then [] else [hypotheses[0].id] + HypothesisIds(hypotheses[1..])
  }

  function Others(hypotheses: seq<Hypothesis>, taken: set<string>): seq<Hypothesis> {
    if hypotheses == [] then []
    else
      var rest := Others(hypotheses[1..], taken);
      if hypotheses[0].id !in taken then [hypotheses[0]] + rest else rest
  }

  function ScopeLabel(scope: Scope): string {
    scope.resourceKind + "/" + scope.resourceName
  }

  function Analyze(extractions: seq<Extraction>, rules: seq<HypothesisRule>, scope: Scope): Analysis {
    var signals := ExtractedSignals(extractions);
    if !Narrows(scope) then Analysis(signals, Built(rules, signals), None, 0)
    else
      var scoped := Built(rules, Within(scope, signals));
      var taken := set id | id in HypothesisIds(scoped);
      Analysis(signals, scoped + Others(Built(rules, signals), taken), Some(ScopeLabel(scope)), |scoped|)
  }
}
