/** What a rule concludes, spelled out: which signals it rests on, whom it names, and how sure it is. */
module ScoreProofs {
  import opened Names
  import opened Signals
  import opened HypothesisRules
  import opened RuleProofs

  // ---------------------------------------------------------- the selections

  /** The signals with a property, in their order. */
  ghost function Filter(s: seq<Signal>, keep: Signal -> bool): seq<Signal> {
    if s == [] then [] else (if keep(s[0]) then [s[0]] else []) + Filter(s[1..], keep)
  }

  lemma {:induction false} TriggersAndGroups(rule: PatternRule, i: Instance, signals: seq<Signal>)
    ensures Triggering(rule, signals) == Filter(signals, (s: Signal) => s.signalType in rule.triggers)
    ensures Group(i, Triggering(rule, signals))
            == Filter(signals, (s: Signal) => s.signalType in rule.triggers && InstanceOf(s) == i)
  {
    hide InstanceOf;
    if signals != [] {
      TriggersAndGroups(rule, i, signals[1..]);
      var rest := Triggering(rule, signals[1..]);
      assert ([signals[0]] + rest)[1..] == rest;
    }
  }

  lemma {:induction false} AgainstFilter(rule: PatternRule, keys: set<string>, signals: seq<Signal>)
    ensures Against(rule, keys, signals)
            == Filter(signals, (r: Signal) => r.signalType in rule.refuting && r.target.Key() in keys)
  {
    hide ResourceRef.Key;
    if signals != [] {
      AgainstFilter(rule, keys, signals[1..]);
    }
  }

  lemma {:induction false} StandingFilter(triggering: seq<Signal>, refuted: set<string>)
    ensures Standing(triggering, refuted) == Filter(triggering, (t: Signal) => t.target.Key() !in refuted)
  {
    hide ResourceRef.Key;
    if triggering != [] {
      StandingFilter(triggering[1..], refuted);
    }
  }

  lemma {:induction false} SupportersFilter(rule: PatternRule, kept: seq<Signal>, among: seq<Signal>,
                                            signals: seq<Signal>)
    ensures Supporters(rule, kept, among, signals)
            == Filter(among, (s: Signal) => s.signalType in rule.supporting && About(s, kept, signals))
  {
    hide About;
    if among != [] {
      SupportersFilter(rule, kept, among[1..], signals);
    }
  }

  lemma {:induction false} FilterAgrees(s: seq<Signal>, one: Signal -> bool, two: Signal -> bool)
    requires forall x :: x in s ==> one(x) == two(x)
    ensures Filter(s, one) == Filter(s, two)
  {
    if s != [] {
      FilterAgrees(s[1..], one, two);
      assert s[0] in s && forall x :: x in s[1..] ==> x in s;
    }
  }

  // --------------------------------------------------------------- one score

  /** The signal is about the resource of some signal of the group. */
  predicate SharesKey(r: Signal, group: seq<Signal>) {
    exists t :: t in group && t.target.Key() == r.target.Key()
  }

  /** Every signal of the group is refuted on its own resource. */
  predicate AllRefuted(rule: PatternRule, group: seq<Signal>, signals: seq<Signal>) {
    forall t :: t in group ==> Refuted(rule, signals, t)
  }

  /**
   What a score rests on: the triggers nothing refutes, in order, with no
   refutation held against them; or, when each one is refuted, all of them, with
   every refuting signal about one of their resources.
   */
  lemma {:induction false} ScoreRestsOn(rule: PatternRule, group: seq<Signal>, signals: seq<Signal>)
    requires group != []
    ensures
      var scored := Score(rule, group, signals);
      if AllRefuted(rule, group, signals) then
        scored.triggering == group && scored.refuting ==
          Filter(signals, (r: Signal) => r.signalType in rule.refuting && SharesKey(r, group))
      else
        scored.triggering == Filter(group, (t: Signal) => !Refuted(rule, signals, t)) && scored.refuting == []
  {
    var against := Against(rule, Keys(group), signals);
    forall t | t in group
      ensures t.target.Key() in Keys(against) <==> Refuted(rule, signals, t)
    {
      RefutedKeys(rule, group, signals, t);
    }
    AgainstFilter(rule, Keys(group), signals);
    StandingFilter(group, Keys(against));
    FilterAgrees(signals, (r: Signal) => r.signalType in rule.refuting && r.target.Key() in Keys(group),
                 (r: Signal) => r.signalType in rule.refuting && SharesKey(r, group));
    FilterAgrees(group, (t: Signal) => t.target.Key() !in Keys(against), (t: Signal) => !Refuted(rule, signals, t));
    FilterNothing(group, (t: Signal) => !Refuted(rule, signals, t));
    hide Against, Standing, Supporters, Confidence, MostSevere, Filter, Refuted, ResourceRef.Key;
  }

  lemma {:induction false} FilterNothing(s: seq<Signal>, keep: Signal -> bool)
    ensures Filter(s, keep) == [] <==> forall x :: x in s ==> !keep(x)
  {
    if s != [] {
      FilterNothing(s[1..], keep);
      assert s[0] in s && forall x :: x in s <==> x == s[0] || x in s[1..];
    }
  }

  /** The signal a hypothesis is about: the first of the most severe. */
  lemma {:induction false} PrimaryIsMostSevere(signals: seq<Signal>) returns (k: nat)
    requires signals != []
    ensures k < |signals| && MostSevere(signals) == signals[k]
    ensures forall j :: 0 <= j < k ==> signals[j].severity.Weight() < signals[k].severity.Weight()
    ensures forall j :: k < j < |signals| ==> signals[j].severity.Weight() <= signals[k].severity.Weight()
  {
    var n := |signals| - 1;
    if n == 0 {
      k := 0;
    } else {
      k := PrimaryIsMostSevere(signals[..n]);
      k := if signals[k].severity.Weight() < signals[n].severity.Weight() then n else k;
    }
  }

  /** The severities, from the heaviest. */
  lemma {:induction false} SeveritiesDescend()
    ensures Info.Weight() < Low.Weight() < Medium.Weight() < High.Weight() < Critical.Weight()
  {
  }

  /**
   How sure a score is: ten for every type of support, twenty less for every type
   of refutation, fifteen less for a lone trigger nothing supports, from the
   rule's own start, and never outside 5 to 92.
   */
  lemma {:induction false} ScoreIsSure(rule: PatternRule, group: seq<Signal>, signals: seq<Signal>)
    requires group != []
    ensures
      var scored := Score(rule, group, signals);
      var alone := |scored.triggering| == 1 && forall s :: s in signals ==> s !in scored.supporting;
      var total := rule.baseConfidence + 10 * |set s | s in scored.supporting :: s.signalType|
                 - 20 * |set r | r in scored.refuting :: r.signalType| - if alone then 15 else 0;
      && 5 <= scored.confidence <= 92
      && (scored.confidence < total ==> scored.confidence == 92)
      && (total < scored.confidence ==> scored.confidence == 5)
      && scored.primary == MostSevere(scored.triggering) && scored.severity == scored.primary.severity
  {
    var kept := Score(rule, group, signals).triggering;
    var supporting := Score(rule, group, signals).supporting;
    if supporting != [] {
      SupportersAre(rule, kept, signals, signals, supporting[0]);
    }
    hide About, Against, Standing, Supporters, MostSevere;
  }

  // --------------------------------------------------------------- instances

  /** The pod is named as a replica of this deployment, or numbered as a pod of this stateful set. */
  ghost predicate NamedByOwner(owner: string, pod: string) {
    owner != "" && '\n' !in owner &&
    (NamedAfter(owner, pod) || (NumberedAfter(owner, pod) && !IsReplicaName(pod)))
  }

  /** The name is that of a replica of some deployment. */
  ghost predicate IsReplicaName(pod: string) {
    exists owner :: owner != "" && '\n' !in owner && NamedAfter(owner, pod)
  }

  /**
   Which triggers are about one workload: a pod and the deployment or stateful
   set it is named after, in one namespace, an absent one being the same as an
   empty one.
   */
  lemma {:induction false} PodJoinsOwnerIff(pod: Signal, owner: Signal)
    requires pod.target.kind == "Pod"
    requires owner.target.kind == "Deployment" || owner.target.kind == "StatefulSet"
    ensures InstanceOf(pod) == InstanceOf(owner) <==>
              && pod.target.NamespaceOr("") == owner.target.NamespaceOr("")
              && NamedByOwner(owner.target.name, pod.target.name)
  {
    var name := pod.target.name;
    assert |"Pod"| == 3 && |"Deployment"| == 10 && |"StatefulSet"| == 11;
    OwnerIs(name, owner.target.name);
    ReplicaIff(name);
    if OwnerOf(Replica, name).Some? {
      OwnerIs(name, OwnerOf(Replica, name).value);
    }
    hide OwnerOf, NamedAfter, NumberedAfter, IsReplicaName, ResourceRef.Key;
  }

  lemma {:induction false} ReplicaIff(pod: string)
    ensures OwnerOf(Replica, pod).Some? <==> IsReplicaName(pod)
  {
    if OwnerOf(Replica, pod).Some? {
      OwnerIs(pod, OwnerOf(Replica, pod).value);
    }
    if owner :| owner != "" && '\n' !in owner && NamedAfter(owner, pod) {
      OwnerIs(pod, owner);
    }
    hide OwnerOf, NamedAfter;
  }

  /** Two triggers of other kinds are about one instance exactly when they are about one resource. */
  lemma {:induction false} OthersJoinIff(a: Signal, b: Signal)
    requires a.target.kind !in {"Pod", "Deployment", "StatefulSet"}
    requires b.target.kind !in {"Pod", "Deployment", "StatefulSet"}
    ensures InstanceOf(a) == InstanceOf(b) <==> a.target.kind == b.target.kind && a.target.Key() == b.target.Key()
  {
    hide ResourceRef.Key;
  }

  // ---------------------------------------------------------------- the best

  /**
   Whom a rule names: of the triggered instances, the one nothing refutes before
   one something does; then the surer, then the more severe, then the one with
   more signals for it; and of equals the one that triggered first.
   */
  lemma {:induction false} NamedIsBest(rule: PatternRule, signals: seq<Signal>, i: Instance)
    requires Named(rule, signals).Some? && i in InstancesIn(Triggering(rule, signals))
    ensures Named(rule, signals).value in InstancesIn(Triggering(rule, signals))
    ensures
      var b := Named(rule, signals).value;
      var best, other := ScoreOf(rule, b, signals), ScoreOf(rule, i, signals);
      && (other.refuting == [] ==> best.refuting == [])
      && ((other.refuting == []) == (best.refuting == []) ==>
            && other.confidence <= best.confidence
            && (other.confidence == best.confidence ==>
                  && other.severity.Weight() <= best.severity.Weight()
                  && (other.severity.Weight() == best.severity.Weight() ==>
                        var forOther := |other.triggering| + |other.supporting|;
                        var forBest := |best.triggering| + |best.supporting|;
                        && forOther <= forBest
                        && (forOther == forBest ==> i == b || TriggersFirst(rule, signals, b, i)))))
  {
    hide ScoreOf, InstancesIn, Triggering, Distinct, Better, ComesFirst, BestOf;
    var order := InstancesIn(Triggering(rule, signals));
    InstancesNonEmpty(Triggering(rule, signals));
    var k := BestIsFirstMaximum(rule, order, signals);
    var j :| 0 <= j < |order| && order[j] == i;
    if k < j {
      FirstSeen(Triggering(rule, signals), k, j);
    }
    var best, other := ScoreOf(rule, order[k], signals), ScoreOf(rule, order[j], signals);
    NotBetter(other, best);
    if (other.refuting == []) == (best.refuting == []) && other.confidence == best.confidence
       && other.severity.Weight() == best.severity.Weight()
       && |other.triggering| + |other.supporting| == |best.triggering| + |best.supporting|
    {
      EqualIsNotBetter(best, other);
    }
  }

  lemma {:induction false} NotBetter(other: Scored, best: Scored)
    ensures
      !Better(other, best) ==>
      && (other.refuting == [] ==> best.refuting == [])
      && ((other.refuting == []) == (best.refuting == []) ==>
            && other.confidence <= best.confidence
            && (other.confidence == best.confidence ==>
                  && other.severity.Weight() <= best.severity.Weight()
                  && (other.severity.Weight() == best.severity.Weight() ==>
                        |other.triggering| + |other.supporting| <= |best.triggering| + |best.supporting|)))
  {
    hide Severity.Weight;
  }

  lemma {:induction false} EqualIsNotBetter(best: Scored, other: Scored)
    requires (other.refuting == []) == (best.refuting == []) && other.confidence == best.confidence
             && other.severity.Weight() == best.severity.Weight()
             && |other.triggering| + |other.supporting| == |best.triggering| + |best.supporting|
    ensures !Better(best, other)
  {
    hide Severity.Weight;
  }

  /** Some trigger of b comes before every trigger of i. */
  predicate TriggersFirst(rule: PatternRule, signals: seq<Signal>, b: Instance, i: Instance) {
    ComesFirst(Triggering(rule, signals), b, i)
  }

  predicate ComesFirst(triggering: seq<Signal>, b: Instance, i: Instance) {
    exists k :: 0 <= k < |triggering| && InstanceOf(triggering[k]) == b &&
      forall m :: 0 <= m < |triggering| && InstanceOf(triggering[m]) == i ==> k < m
  }

  lemma {:induction false} FirstSeen(triggering: seq<Signal>, k: nat, j: nat)
    requires k < j < |InstancesIn(triggering)|
    ensures ComesFirst(triggering, InstancesIn(triggering)[k], InstancesIn(triggering)[j])
  {
    hide InstanceOf;
    InstancesAreDistinct(triggering);
    var n := |triggering| - 1;
    var before, order := InstancesIn(triggering[..n]), InstancesIn(triggering);
    var b, i := order[k], order[j];
    if j < |before| {
      FirstSeen(triggering[..n], k, j);
      var m :| 0 <= m < n && InstanceOf(triggering[..n][m]) == b &&
        forall q :: 0 <= q < n && InstanceOf(triggering[..n][q]) == i ==> m < q;
      assert InstanceOf(triggering[m]) == b;
      assert forall q :: 0 <= q < n ==> triggering[..n][q] == triggering[q];
    } else {
      assert i == InstanceOf(triggering[n]) && i !in before;
      InstancesAreThose(triggering[..n], b);
      InstancesAreThose(triggering[..n], i);
      var t :| t in triggering[..n] && InstanceOf(t) == b;
      var m :| 0 <= m < n && triggering[..n][m] == t;
      assert forall q :: 0 <= q < n ==> triggering[..n][q] == triggering[q] && triggering[q] in triggering[..n];
      assert InstanceOf(triggering[m]) == b;
    }
  }

  // -------------------------------------------------------------- evaluation

  /**
   What evaluate reports, from the evidence alone: the rule's own texts; the
   first of the most severe signals it rests on, and its severity; and the ids of
   those signals, of what supports them, and of what refutes them, each in order.
   */
  lemma {:induction false} EvaluationReports(rule: PatternRule, signals: seq<Signal>)
    ensures Evaluation(rule, signals).None? <==> forall s :: s in signals ==> s.signalType !in rule.triggers
    ensures Evaluation(rule, signals).Some? ==>
      var h := Evaluation(rule, signals).value;
      var i := Named(rule, signals).value;
      var group := Filter(signals, (s: Signal) => s.signalType in rule.triggers && InstanceOf(s) == i);
      var kept := if AllRefuted(rule, group, signals) then group
                  else Filter(group, (t: Signal) => !Refuted(rule, signals, t));
      && h.id == rule.id && h.title == rule.title && h.category == rule.category && h.rationale == rule.rationale
      && h.missingEvidence == rule.missingEvidence && h.remediationHint == rule.remediationHint
      && kept != [] && h.target == MostSevere(kept).target && h.severity == MostSevere(kept).severity
      && h.supporting ==
           Ids(kept + Filter(signals, (s: Signal) => s.signalType in rule.supporting && About(s, kept, signals)))
      && h.refuting == Ids(
           if !AllRefuted(rule, group, signals) then []
           else Filter(signals, (r: Signal) => r.signalType in rule.refuting && SharesKey(r, group)))
  {
    hide About, MostSevere, Against, Standing, Confidence, Filter, InstanceOf, Refuted, ResourceRef.Key, BestOf;
    FiresIff(rule, signals);
    if Evaluation(rule, signals).Some? {
      var i := Named(rule, signals).value;
      GroupNonEmpty(i, Triggering(rule, signals));
      TriggersAndGroups(rule, i, signals);
      var group := Group(i, Triggering(rule, signals));
      ScoreRestsOn(rule, group, signals);
      ScoreRests(rule, group, signals);
      SupportersFilter(rule, Score(rule, group, signals).triggering, signals, signals);
    }
  }

  lemma {:induction false} FiresIff(rule: PatternRule, signals: seq<Signal>)
    ensures Evaluation(rule, signals).None? <==> forall s :: s in signals ==> s.signalType !in rule.triggers
  {
    forall s
      ensures s in Triggering(rule, signals) <==> s in signals && s.signalType in rule.triggers
    {
      TriggeringIs(rule, signals, s);
    }
    var triggering := Triggering(rule, signals);
    assert triggering != [] ==> triggering[0] in triggering;
    hide Triggering, BestOf;
  }
}
