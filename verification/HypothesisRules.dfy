/** How a rule turns signals into a hypothesis about one workload, and how hypotheses rank. */
module HypothesisRules {
  import opened Prelude
  import opened Ordering
  import opened Names
  import opened Signals

  const SUPPORT_BONUS := 10
  const REFUTE_PENALTY := 20
  const MAX_CONFIDENCE := 92
  const MIN_CONFIDENCE := 5
  const UNCORROBORATED_PENALTY := 15
  const SELECTOR_MATCHES_NOTHING := "network.selector_matches_nothing"
  const EVENT_PREFIX := "event."

  datatype PatternRule = PatternRule(
    id: string,
    title: string,
    category: string,
    rationale: string,
    triggers: set<string>,
    supporting: set<string>,
    refuting: set<string>,
    missingEvidence: seq<string>,
    remediationHint: string,
    baseConfidence: int)

  /** What a triggering signal is about: a workload, or a resource of its own. */
  datatype Instance = Workload(namespace: string, name: string) | Single(kind: string, key: string)

  datatype Scored = Scored(
    triggering: seq<Signal>,
    supporting: seq<Signal>,
    refuting: seq<Signal>,
    confidence: int,
    severity: Severity,
    primary: Signal)

  predicate IsWorkload(kind: string) {
    kind == "Pod" || kind == "Deployment"
  }

  predicate IsEvent(signalType: string) {
    EVENT_PREFIX <= signalType
  }

  function InstanceOf(s: Signal): Instance {
    var t := s.target;
    var namespace := t.NamespaceOr("");
    if t.kind == "Deployment" || t.kind == "StatefulSet" then Workload(namespace, t.name)
    else if t.kind == "Pod" && OwnerOf(Replica, t.name).Some? then Workload(namespace, OwnerOf(Replica, t.name).value)
    else if t.kind == "Pod" && OwnerOf(Ordinal, t.name).Some? then Workload(namespace, OwnerOf(Ordinal, t.name).value)
    else Single(t.kind, t.Key())
  }

  // -------------------------------------------------------------- selections

  function Triggering(rule: PatternRule, signals: seq<Signal>): seq<Signal> {
    if signals == [] then []
    else
      var rest := Triggering(rule, signals[1..]);
      if signals[0].signalType in rule.triggers then [signals[0]] + rest else rest
  }

  function Group(i: Instance, triggering: seq<Signal>): seq<Signal> {
    if triggering == [] then []
    else
      var rest := Group(i, triggering[1..]);
      if InstanceOf(triggering[0]) == i then [triggering[0]] + rest else rest
  }

  /** The instances in the order they first appear. */
  function InstancesIn(triggering: seq<Signal>): seq<Instance> {
    if triggering == [] then []
    else
      var n := |triggering| - 1;
      var before := InstancesIn(triggering[..n]);
      var i := InstanceOf(triggering[n]);
      if i in before then before else before + [i]
  }

  function Keys(signals: seq<Signal>): set<string> {
    set s | s in signals :: s.target.Key()
  }

  function Types(signals: seq<Signal>): set<string> {
    set s | s in signals :: s.signalType
  }

  function Against(rule: PatternRule, keys: set<string>, signals: seq<Signal>): seq<Signal> {
    if signals == [] then []
    else
      var rest := Against(rule, keys, signals[1..]);
      if signals[0].signalType in rule.refuting && signals[0].target.Key() in keys then [signals[0]] + rest else rest
  }

  function Standing(triggering: seq<Signal>, refuted: set<string>): seq<Signal> {
    if triggering == [] then []
    else
      var rest := Standing(triggering[1..], refuted);
      if triggering[0].target.Key() !in refuted then [triggering[0]] + rest else rest
  }

  // ------------------------------------------------------------------- about

  predicate WorkloadsOnly(triggering: seq<Signal>) {
    forall t :: t in triggering ==> IsWorkload(t.target.kind)
  }

  function ServiceKeys(triggering: seq<Signal>): set<string> {
    set t | t in triggering && t.target.kind == "Service" :: t.target.Key()
  }

  function Namespaces(triggering: seq<Signal>): set<Option<string>> {
    set t | t in triggering :: t.target.namespace
  }

  function SelectedPods(triggering: seq<Signal>): set<(Option<string>, string)> {
    set t, pod | t in triggering && pod in t.pods :: (t.target.namespace, pod)
  }

  predicate OutOfReach(s: Signal, triggering: seq<Signal>) {
    && !WorkloadsOnly(triggering)
    && s.target.HasNamespace()
    && (forall t :: t in triggering ==> t.target.HasNamespace())
    && s.target.namespace !in Namespaces(triggering)
  }

  predicate Selects(triggering: seq<Signal>, s: Signal) {
    exists p :: p in SelectedPods(triggering) &&
      p.0 == s.target.namespace &&
      (p.1 == s.target.name || (s.target.kind == "Deployment" && OwnedBy(p.1, s.target.name)))
  }

  /** The keys of the services a selector is known to match nothing for. */
  function EmptySelectors(signals: seq<Signal>): set<string> {
    set s | s in signals && s.signalType == SELECTOR_MATCHES_NOTHING :: s.target.Key()
  }

  /** The last questions of _about, once every trigger is a pod or a deployment. */
  predicate AboutWorkload(s: Signal, triggering: seq<Signal>) {
    || s.target.Key() in Keys(triggering)
    || (if s.target.kind == "Deployment" then
          exists t :: t in triggering && t.target.kind == "Pod" && t.target.namespace == s.target.namespace &&
            MatchesReplicasOf(s.target.name, t.target.name)
        else
          exists t :: t in triggering && t.target.kind == "Deployment" && t.target.namespace == s.target.namespace &&
            MatchesReplicasOf(t.target.name, s.target.name))
  }

  predicate About(s: Signal, triggering: seq<Signal>, signals: seq<Signal>) {
    var kind := s.target.kind;
    var services := ServiceKeys(triggering);
    if WorkloadsOnly(triggering) && IsEvent(s.signalType) && !IsWorkload(kind) then false
    else if OutOfReach(s, triggering) then false
    else if services != {} && |services| == |triggering| && kind == "Service" then s.target.Key() in services
    else if services != {} && |services| == |triggering| && IsWorkload(kind) &&
            s.target.namespace !in Namespaces(triggering) then false
    else if services != {} && |services| == |triggering| && IsWorkload(kind) && SelectedPods(triggering) != {} then
      Selects(triggering, s)
    else if !IsWorkload(kind) then true
    else if services != {} && services <= EmptySelectors(signals) then false
    else if !WorkloadsOnly(triggering) then true
    else AboutWorkload(s, triggering)
  }

  function Supporters(rule: PatternRule, triggering: seq<Signal>, among: seq<Signal>, signals: seq<Signal>)
    : seq<Signal>
  {
    if among == [] then []
    else
      var rest := Supporters(rule, triggering, among[1..], signals);
      if among[0].signalType in rule.supporting && About(among[0], triggering, signals) then [among[0]] + rest else rest
  }

  // ----------------------------------------------------------------- scoring

  function MostSevere(signals: seq<Signal>): (primary: Signal)
    requires signals != []
    ensures primary in signals
  {
    if |signals| == 1 then signals[0]
    else
      var n := |signals| - 1;
      var before := MostSevere(signals[..n]);
      if before.severity.Weight() < signals[n].severity.Weight() then signals[n] else before
  }

  function Clamp(confidence: int): int {
    var capped := if confidence < MAX_CONFIDENCE then confidence else MAX_CONFIDENCE;
    if capped < MIN_CONFIDENCE then MIN_CONFIDENCE else capped
  }

  /** The running total of a score, before it is clamped. */
  function Total(rule: PatternRule, triggering: seq<Signal>, supporting: seq<Signal>, refuting: seq<Signal>): int {
    rule.baseConfidence
    + SUPPORT_BONUS * |Types(supporting)|
    - REFUTE_PENALTY * |Types(refuting)|
    - if |triggering| == 1 && supporting == [] then UNCORROBORATED_PENALTY else 0
  }

  function Confidence(rule: PatternRule, triggering: seq<Signal>, supporting: seq<Signal>, refuting: seq<Signal>): int {
    Clamp(Total(rule, triggering, supporting, refuting))
  }

  function Score(rule: PatternRule, group: seq<Signal>, signals: seq<Signal>): Scored
    requires group != []
  {
    var refuting := Against(rule, Keys(group), signals);
    var standing := Standing(group, Keys(refuting));
    var kept := if standing != [] then standing else group;
    var against := if standing != [] then [] else refuting;
    var supporting := Supporters(rule, kept, signals, signals);
    var primary := MostSevere(kept);
    Scored(kept, supporting, against, Confidence(rule, kept, supporting, against), primary.severity, primary)
  }

  /** The code's own version of the scoring, which adjusts one running total. */
  method ScoreGroup(rule: PatternRule, group: seq<Signal>, signals: seq<Signal>) returns (scored: Scored)
    requires group != []
    ensures scored == Score(rule, group, signals)
  {
    var triggering := group;
    var refuting := Against(rule, Keys(group), signals);
    var standing := Standing(triggering, Keys(refuting));
    if standing != [] {
      triggering, refuting := standing, [];
    }
    var supporting := Supporters(rule, triggering, signals, signals);
    var confidence := rule.baseConfidence;
    confidence := confidence + SUPPORT_BONUS * |Types(supporting)|;
    confidence := confidence - REFUTE_PENALTY * |Types(refuting)|;
    if |triggering| == 1 && supporting == [] {
      confidence := confidence - UNCORROBORATED_PENALTY;
    }
    confidence := Clamp(confidence);
    var primary := MostSevere(triggering);
    scored := Scored(triggering, supporting, refuting, confidence, primary.severity, primary);
  }

  /** a's key is greater than b's, so max prefers it wherever it stands. */
  predicate Better(a: Scored, b: Scored) {
    if (a.refuting == []) != (b.refuting == []) then a.refuting == []
    else if a.confidence != b.confidence then b.confidence < a.confidence
    else if a.severity.Weight() != b.severity.Weight() then b.severity.Weight() < a.severity.Weight()
    else |b.triggering| + |b.supporting| < |a.triggering| + |a.supporting|
  }

  function ScoreOf(rule: PatternRule, i: Instance, signals: seq<Signal>): Scored
    requires i in InstancesIn(Triggering(rule, signals))
  {
    GroupNonEmpty(i, Triggering(rule, signals));
    Score(rule, Group(i, Triggering(rule, signals)), signals)
  }

  /** The first best-scored instance among some of those that triggered. */
  function BestOf(rule: PatternRule, order: seq<Instance>, signals: seq<Signal>): (best: Instance)
    requires order != [] && forall i :: i in order ==> i in InstancesIn(Triggering(rule, signals))
    ensures best in order
  {
    var n := |order| - 1;
    if n == 0 then order[0]
    else
      var before := BestOf(rule, order[..n], signals);
      if Better(ScoreOf(rule, order[n], signals), ScoreOf(rule, before, signals)) then order[n] else before
  }

  /** The instance evaluate names, if the rule fires at all. */
  function Named(rule: PatternRule, signals: seq<Signal>): Option<Instance> {
    var triggering := Triggering(rule, signals);
    if triggering == [] then None
    else
      InstancesNonEmpty(triggering);
      Some(BestOf(rule, InstancesIn(triggering), signals))
  }

  function Concluded(rule: PatternRule, best: Scored): Hypothesis {
    Hypothesis(rule.id, rule.title, rule.category, best.severity, best.confidence, rule.rationale,
               best.primary.target, Ids(best.triggering + best.supporting), Ids(best.refuting),
               rule.missingEvidence, rule.remediationHint)
  }

  function Evaluation(rule: PatternRule, signals: seq<Signal>): Option<Hypothesis> {
    var named := Named(rule, signals);
    if named.None? then None else Some(Concluded(rule, ScoreOf(rule, named.value, signals)))
  }

  lemma {:induction false} GroupNonEmpty(i: Instance, triggering: seq<Signal>)
    requires i in InstancesIn(triggering)
    ensures Group(i, triggering) != []
  {
    InstancesAreThose(triggering, i);
    var t :| t in triggering && InstanceOf(t) == i;
    GroupHolds(i, triggering, t);
  }

  lemma {:induction false} GroupHolds(i: Instance, triggering: seq<Signal>, t: Signal)
    ensures t in Group(i, triggering) <==> t in triggering && InstanceOf(t) == i
  {
    if triggering != [] {
      GroupHolds(i, triggering[1..], t);
    }
  }

  lemma {:induction false} InstancesAreThose(triggering: seq<Signal>, i: Instance)
    ensures i in InstancesIn(triggering) <==> exists t :: t in triggering && InstanceOf(t) == i
  {
    if triggering != [] {
      var n := |triggering| - 1;
      InstancesAreThose(triggering[..n], i);
      assert triggering == triggering[..n] + [triggering[n]];
    }
  }

  lemma {:induction false} InstancesNonEmpty(triggering: seq<Signal>)
    requires triggering != []
    ensures InstancesIn(triggering) != []
  {
    InstancesAreThose(triggering, InstanceOf(triggering[0]));
  }

  /** The dictionary evaluate fills: its keys in insertion order, and the group under each. */
  method GroupByInstance(triggering: seq<Signal>) returns (order: seq<Instance>, instances: map<Instance, seq<Signal>>)
    ensures order == InstancesIn(triggering)
    ensures instances.Keys == set i | i in order
    ensures forall i :: i in order ==> instances[i] == Group(i, triggering)
  {
    order, instances := [], map[];
    for k := 0 to |triggering|
      invariant order == InstancesIn(triggering[..k])
      invariant instances.Keys == set i | i in order
      invariant forall i :: i in order ==> instances[i] == Group(i, triggering[..k])
    {
      var i := InstanceOf(triggering[k]);
      GroupAppends(triggering[..k], triggering[k]);
      assert triggering[..k + 1] == triggering[..k] + [triggering[k]];
      if i !in instances {
        NoGroupYet(i, triggering[..k]);
        order := order + [i];
        instances := instances[i := []];
      }
      instances := instances[i := instances[i] + [triggering[k]]];
    }
    assert triggering[..|triggering|] == triggering;
  }

  /** max over the scored instances: a later one wins only by being strictly better. */
  method FirstBest(rule: PatternRule, order: seq<Instance>, instances: map<Instance, seq<Signal>>, signals: seq<Signal>)
    returns (best: Scored)
    requires order != []
    requires forall i :: i in order ==> i in InstancesIn(Triggering(rule, signals))
    requires forall i :: i in order ==> i in instances && instances[i] == Group(i, Triggering(rule, signals))
    ensures best == ScoreOf(rule, BestOf(rule, order, signals), signals)
  {
    hide Score, Better, InstancesIn, Triggering, Group;
    GroupNonEmpty(order[0], Triggering(rule, signals));
    best := ScoreGroup(rule, instances[order[0]], signals);
    for k := 1 to |order|
      invariant best == ScoreOf(rule, BestOf(rule, order[..k], signals), signals)
    {
      GroupNonEmpty(order[k], Triggering(rule, signals));
      var candidate := ScoreGroup(rule, instances[order[k]], signals);
      assert order[..k + 1][..k] == order[..k];
      if Better(candidate, best) {
        best := candidate;
      }
    }
    assert order[..|order|] == order;
  }

  /** evaluate: group, score each group, keep the first best. */
  method Evaluate(rule: PatternRule, signals: seq<Signal>) returns (hypothesis: Option<Hypothesis>)
    ensures hypothesis == Evaluation(rule, signals)
  {
    var triggering := Triggering(rule, signals);
    if triggering == [] {
      return None;
    }
    var order, instances := GroupByInstance(triggering);
    InstancesNonEmpty(triggering);
    var best := FirstBest(rule, order, instances, signals);
    hypothesis := Some(Concluded(rule, best));
  }

  lemma {:induction false} GroupAppends(triggering: seq<Signal>, t: Signal)
    ensures forall i :: Group(i, triggering + [t]) == Group(i, triggering) + if InstanceOf(t) == i then [t] else []
  {
    forall i
      ensures Group(i, triggering + [t]) == Group(i, triggering) + if InstanceOf(t) == i then [t] else []
    {
      GroupAppend(i, triggering, t);
    }
  }

  lemma {:induction false} GroupAppend(i: Instance, triggering: seq<Signal>, t: Signal)
    ensures Group(i, triggering + [t]) == Group(i, triggering) + if InstanceOf(t) == i then [t] else []
  {
    if triggering == [] {
      assert triggering + [t] == [t];
    } else {
      GroupAppend(i, triggering[1..], t);
      assert (triggering + [t])[1..] == triggering[1..] + [t];
    }
  }

  lemma {:induction false} NoGroupYet(i: Instance, triggering: seq<Signal>)
    requires i !in InstancesIn(triggering)
    ensures Group(i, triggering) == []
  {
    if Group(i, triggering) != [] {
      var t := Group(i, triggering)[0];
      GroupHolds(i, triggering, t);
      InstancesAreThose(triggering, i);
    }
  }

  // ----------------------------------------------------------------- ranking

  /** a's sort key is at least b's: a may stand before b. */
  predicate Precedes(a: Hypothesis, b: Hypothesis) {
    if (a.refuting == []) != (b.refuting == []) then a.refuting == []
    else if a.confidence != b.confidence then b.confidence < a.confidence
    else if a.severity.Weight() != b.severity.Weight() then b.severity.Weight() < a.severity.Weight()
    else if |a.supporting| != |b.supporting| then |b.supporting| < |a.supporting|
    else StringLe(b.id, a.id)
  }

  function Rank(hypotheses: seq<Hypothesis>): seq<Hypothesis> {
    Sort(Precedes, hypotheses)
  }
}
