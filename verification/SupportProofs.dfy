/** What counts as support for a hypothesis, in terms of kinds, namespaces and the names of pods and their owners. */
module SupportProofs {
  import opened Names
  import opened Signals
  import opened HypothesisRules
  import opened RuleProofs

  /** The pod is named as one of the deployment's replicas are, in its namespace. */
  ghost predicate Owns(deployment: ResourceRef, pod: ResourceRef) {
    && deployment.kind == "Deployment" && pod.kind == "Pod"
    && deployment.namespace == pod.namespace
    && NamedAfter(deployment.name, pod.name)
  }

  lemma {:induction false} SupportingIs(rule: PatternRule, group: seq<Signal>, signals: seq<Signal>, s: Signal)
    requires group != []
    ensures s in Score(rule, group, signals).supporting <==>
            s in signals && s.signalType in rule.supporting && About(s, Score(rule, group, signals).triggering, signals)
  {
    hide About, Against, Standing, Confidence, MostSevere;
    SupportersAre(rule, Score(rule, group, signals).triggering, signals, signals, s);
  }

  lemma {:induction false} KindsDiffer()
    ensures "Pod" != "Deployment" && "Pod" != "Service" && "Deployment" != "Service"
  {
    assert |"Pod"| == 3 && |"Deployment"| == 10 && |"Service"| == 7;
  }

  // ------------------------------------------------- pods and deployments

  /**
   What supports a case about pods and deployments: of the pods and deployments
   in evidence, exactly the triggering resources themselves, the deployments
   whose pods triggered and the pods whose deployment did; of everything else,
   whatever is not an event.
   */
  lemma {:induction false} WorkloadSupportIff(rule: PatternRule, group: seq<Signal>, signals: seq<Signal>, s: Signal)
    requires group != [] && forall t :: t in group ==> t.target.kind == "Pod" || t.target.kind == "Deployment"
    ensures
      var kept := Score(rule, group, signals).triggering;
      s in Score(rule, group, signals).supporting <==>
      && s in signals && s.signalType in rule.supporting
      && if s.target.kind == "Pod" || s.target.kind == "Deployment" then
           exists t :: t in kept &&
             (t.target.Key() == s.target.Key() || Owns(s.target, t.target) || Owns(t.target, s.target))
         else !("event." <= s.signalType)
  {
    var kept := Score(rule, group, signals).triggering;
    SupportingIs(rule, group, signals, s);
    ScoreRests(rule, group, signals);
    NoServices(kept);
    if s.target.kind == "Pod" || s.target.kind == "Deployment" {
      AboutWorkloadIff(s, kept);
    }
    hide Score, ServiceKeys, AboutWorkload, Owns, ResourceRef.Key, OutOfReach, Selects, EmptySelectors;
  }

  lemma {:induction false} AboutWorkloadIff(s: Signal, kept: seq<Signal>)
    requires s.target.kind == "Pod" || s.target.kind == "Deployment"
    ensures AboutWorkload(s, kept) <==>
              exists t :: t in kept &&
                (t.target.Key() == s.target.Key() || Owns(s.target, t.target) || Owns(t.target, s.target))
  {
    KindsDiffer();
    forall t | t in kept
      ensures MatchesReplicasOf(s.target.name, t.target.name) <==> NamedAfter(s.target.name, t.target.name)
      ensures MatchesReplicasOf(t.target.name, s.target.name) <==> NamedAfter(t.target.name, s.target.name)
    {
      MatchesNamedAfter(s.target.name, t.target.name);
      MatchesNamedAfter(t.target.name, s.target.name);
    }
    hide MatchesReplicasOf, NamedAfter, ResourceRef.Key;
  }

  // --------------------------------------------------------------- services

  /** Services alone, no two signals about the same one. */
  predicate ServicesOnce(kept: seq<Signal>) {
    && (forall t :: t in kept ==> t.target.kind == "Service")
    && (forall i, j :: 0 <= i < j < |kept| ==> kept[i].target.Key() != kept[j].target.Key())
  }

  lemma {:induction false} ServiceKeysSplit(before: seq<Signal>, last: Signal)
    ensures ServiceKeys(before + [last])
            == ServiceKeys(before) + if last.target.kind == "Service" then {last.target.Key()} else {}
    ensures ServicesOnce(before + [last]) <==>
              ServicesOnce(before) && last.target.kind == "Service" && last.target.Key() !in KeysOf(before)
  {
    hide ResourceRef.Key;
    var kept := before + [last];
    assert forall t :: t in kept <==> t in before || t == last;
    if ServicesOnce(kept) {
      assert forall k :: 0 <= k < |before| ==> kept[k] == before[k];
      assert kept[|before|] == last;
      assert last.target.Key() !in KeysOf(before);
    }
    if ServicesOnce(before) && last.target.kind == "Service" && last.target.Key() !in KeysOf(before) {
      assert forall k :: 0 <= k < |before| ==> before[k] in before;
    }
  }

  function KeysOf(kept: seq<Signal>): set<string> {
    set t | t in kept :: t.target.Key()
  }

  lemma {:induction false} ServiceKeysCount(kept: seq<Signal>)
    ensures |ServiceKeys(kept)| <= |kept|
    ensures |ServiceKeys(kept)| == |kept| <==> ServicesOnce(kept)
    ensures (forall t :: t in kept ==> t.target.kind == "Service") ==> ServiceKeys(kept) == KeysOf(kept)
  {
    if kept != [] {
      var n := |kept| - 1;
      var before, last := kept[..n], kept[n];
      assert kept == before + [last];
      ServiceKeysCount(before);
      ServiceKeysSplit(before, last);
      hide ResourceRef.Key, ServiceKeys, ServicesOnce;
      AllServices(before);
    }
  }

  lemma {:induction false} AllServices(kept: seq<Signal>)
    ensures ServicesOnce(kept) ==> forall t :: t in kept ==> t.target.kind == "Service"
  {
  }

  /** A namespaced signal reaches triggers that are all namespaced only in one of their namespaces. */
  predicate InReach(s: Signal, kept: seq<Signal>) {
    s.target.HasNamespace() && (forall t :: t in kept ==> t.target.HasNamespace()) ==>
      exists t :: t in kept && t.target.namespace == s.target.namespace
  }

  /** The signal is about this pod, or about the deployment that owns it. */
  ghost predicate IsAboutPod(s: Signal, pod: string) {
    || pod == s.target.name
    || (s.target.kind == "Deployment" && s.target.name != "" && '\n' !in s.target.name
        && NamedAfter(s.target.name, pod))
  }

  /** Some Service in the signal's namespace names a pod the signal is about. */
  ghost predicate IsSelected(s: Signal, kept: seq<Signal>) {
    exists t, pod :: t in kept && pod in t.pods && t.target.namespace == s.target.namespace && IsAboutPod(s, pod)
  }

  /** The evidence says that this Service selects no pod. */
  predicate SelectsNothing(t: Signal, signals: seq<Signal>) {
    exists r :: r in signals && r.signalType == "network.selector_matches_nothing" && r.target.Key() == t.target.Key()
  }

  lemma {:induction false} SelectsIff(s: Signal, kept: seq<Signal>)
    ensures Selects(kept, s) <==> IsSelected(s, kept)
  {
    forall pod
      ensures pod == s.target.name || (s.target.kind == "Deployment" && OwnedBy(pod, s.target.name)) <==>
                IsAboutPod(s, pod)
    {
      OwnerIs(pod, s.target.name);
    }
    hide OwnedBy, IsAboutPod;
    if t, pod :| t in kept && pod in t.pods && t.target.namespace == s.target.namespace && IsAboutPod(s, pod) {
      assert (t.target.namespace, pod) in SelectedPods(kept);
    }
    if Selects(kept, s) {
      var p :| p in SelectedPods(kept) && p.0 == s.target.namespace &&
        (p.1 == s.target.name || (s.target.kind == "Deployment" && OwnedBy(p.1, s.target.name)));
      var t, pod :| t in kept && pod in t.pods && p == (t.target.namespace, pod);
      assert IsAboutPod(s, pod);
    }
  }

  lemma {:induction false} NamesPodsIff(kept: seq<Signal>)
    ensures SelectedPods(kept) != {} <==> exists t :: t in kept && t.pods != []
  {
    if t :| t in kept && t.pods != [] {
      assert t.pods[0] in t.pods;
      assert (t.target.namespace, t.pods[0]) in SelectedPods(kept);
    }
    if p :| p in SelectedPods(kept) {
      var t, pod :| t in kept && pod in t.pods && p == (t.target.namespace, pod);
    }
  }

  lemma {:induction false} NamespacesIff(s: Signal, kept: seq<Signal>)
    ensures s.target.namespace in Namespaces(kept) <==>
              exists t :: t in kept && t.target.namespace == s.target.namespace
  {
  }

  lemma {:induction false} EmptyIff(kept: seq<Signal>, signals: seq<Signal>)
    ensures ServiceKeys(kept) <= EmptySelectors(signals) <==>
              forall t :: t in kept && t.target.kind == "Service" ==> SelectsNothing(t, signals)
  {
    hide ResourceRef.Key;
    if ServiceKeys(kept) <= EmptySelectors(signals) {
      forall t | t in kept && t.target.kind == "Service"
        ensures SelectsNothing(t, signals)
      {
        assert t.target.Key() in ServiceKeys(kept);
      }
    }
  }

  lemma {:induction false} ReachIff(s: Signal, kept: seq<Signal>)
    requires !WorkloadsOnly(kept)
    ensures OutOfReach(s, kept) <==> !InReach(s, kept)
  {
  }

  /**
   What supports a case about Services, each triggering once: of Services, those
   very ones; of pods and deployments in their namespaces, the pods the Services
   name and the deployments of those, or, when no pod is named, any, unless every
   one of the Services is known to select nothing; of everything else, whatever
   is in reach.
   */
  lemma {:induction false} ServiceSupportIff(rule: PatternRule, group: seq<Signal>, signals: seq<Signal>, s: Signal)
    requires group != [] && ServicesOnce(Score(rule, group, signals).triggering)
    ensures
      var kept := Score(rule, group, signals).triggering;
      s in Score(rule, group, signals).supporting <==>
      && s in signals && s.signalType in rule.supporting && InReach(s, kept)
      && (s.target.kind == "Service" ==> exists t :: t in kept && t.target.Key() == s.target.Key())
      && (s.target.kind == "Pod" || s.target.kind == "Deployment" ==>
            && (exists t :: t in kept && t.target.namespace == s.target.namespace)
            && if exists t :: t in kept && t.pods != [] then IsSelected(s, kept)
               else exists t :: t in kept && !SelectsNothing(t, signals))
  {
    hide Score, About, SelectsNothing, IsSelected, ResourceRef.Key, InReach, ServicesOnce;
    SupportingIs(rule, group, signals, s);
    KeptIsSomething(rule, group, signals);
    AboutServicesIff(s, Score(rule, group, signals).triggering, signals);
  }

  lemma {:induction false} KeptIsSomething(rule: PatternRule, group: seq<Signal>, signals: seq<Signal>)
    requires group != []
    ensures Score(rule, group, signals).triggering != []
  {
    ScoreRests(rule, group, signals);
    hide Score;
  }

  lemma {:induction false} AboutServicesIff(s: Signal, kept: seq<Signal>, signals: seq<Signal>)
    requires kept != [] && ServicesOnce(kept)
    ensures
      About(s, kept, signals) <==>
      && InReach(s, kept)
      && (s.target.kind == "Service" ==> exists t :: t in kept && t.target.Key() == s.target.Key())
      && (s.target.kind == "Pod" || s.target.kind == "Deployment" ==>
            && (exists t :: t in kept && t.target.namespace == s.target.namespace)
            && if exists t :: t in kept && t.pods != [] then IsSelected(s, kept)
               else exists t :: t in kept && !SelectsNothing(t, signals))
  {
    hide Selects, EmptySelectors, Namespaces, SelectedPods, SelectsNothing, IsSelected, ResourceRef.Key, InReach,
      OutOfReach, AboutWorkload, ServiceKeys, ServicesOnce;
    KindsDiffer();
    AllServices(kept);
    assert kept[0] in kept;
    ServiceKeysCount(kept);
    ReachIff(s, kept);
    SelectsIff(s, kept);
    NamesPodsIff(kept);
    NamespacesIff(s, kept);
    EmptyIff(kept, signals);
    NotAllWorkloads(kept);
    assert ServiceKeys(kept) != {};
  }

  lemma {:induction false} NotAllWorkloads(kept: seq<Signal>)
    ensures (exists t :: t in kept && t.target.kind != "Pod" && t.target.kind != "Deployment") <==> !WorkloadsOnly(kept)
  {
  }

  /**
   What supports any other case: a Service that triggers more than once, or kinds
   that are mixed or neither. Everything in reach does, except pods and
   deployments when every triggering Service is known to select nothing.
   */
  lemma {:induction false} OtherSupportIff(rule: PatternRule, group: seq<Signal>, signals: seq<Signal>, s: Signal)
    requires group != []
    requires exists t :: t in Score(rule, group, signals).triggering &&
               t.target.kind != "Pod" && t.target.kind != "Deployment"
    requires !ServicesOnce(Score(rule, group, signals).triggering)
    ensures
      var kept := Score(rule, group, signals).triggering;
      s in Score(rule, group, signals).supporting <==>
      && s in signals && s.signalType in rule.supporting && InReach(s, kept)
      && ((s.target.kind == "Pod" || s.target.kind == "Deployment")
          && (exists t :: t in kept && t.target.kind == "Service") ==>
            exists t :: t in kept && t.target.kind == "Service" && !SelectsNothing(t, signals))
  {
    hide Score, About, SelectsNothing, InReach, ServicesOnce;
    SupportingIs(rule, group, signals, s);
    AboutOthersIff(s, Score(rule, group, signals).triggering, signals);
  }

  lemma {:induction false} AboutOthersIff(s: Signal, kept: seq<Signal>, signals: seq<Signal>)
    requires exists t :: t in kept && t.target.kind != "Pod" && t.target.kind != "Deployment"
    requires !ServicesOnce(kept)
    ensures
      About(s, kept, signals) <==>
      && InReach(s, kept)
      && ((s.target.kind == "Pod" || s.target.kind == "Deployment")
          && (exists t :: t in kept && t.target.kind == "Service") ==>
            exists t :: t in kept && t.target.kind == "Service" && !SelectsNothing(t, signals))
  {
    hide Selects, EmptySelectors, Namespaces, SelectedPods, SelectsNothing, ResourceRef.Key, InReach,
      OutOfReach, AboutWorkload, ServiceKeys, ServicesOnce;
    NotAllWorkloads(kept);
    ServiceKeysCount(kept);
    ReachIff(s, kept);
    EmptyIff(kept, signals);
    ServicesIff(kept);
  }

  lemma {:induction false} ServicesIff(kept: seq<Signal>)
    ensures ServiceKeys(kept) != {} <==> exists t :: t in kept && t.target.kind == "Service"
  {
    hide ResourceRef.Key;
    if t :| t in kept && t.target.kind == "Service" {
      assert t.target.Key() in ServiceKeys(kept);
    }
  }

  /** With nothing against it, a score rests on the whole group. */
  lemma {:induction false} NothingAgainst(rule: PatternRule, group: seq<Signal>, signals: seq<Signal>)
    requires group != [] && forall r :: r in signals ==> r.signalType !in rule.refuting
    ensures Score(rule, group, signals).triggering == group
  {
    hide Supporters, Confidence, MostSevere, Standing, Against;
    NoneAgainst(rule, Keys(group), signals);
    NoneRefuted(group);
  }

  lemma {:induction false} NoneAgainst(rule: PatternRule, keys: set<string>, signals: seq<Signal>)
    requires forall r :: r in signals ==> r.signalType !in rule.refuting
    ensures Against(rule, keys, signals) == []
  {
    if signals != [] {
      assert signals[0] in signals && forall r :: r in signals[1..] ==> r in signals;
      NoneAgainst(rule, keys, signals[1..]);
    }
  }

  lemma {:induction false} NoneRefuted(group: seq<Signal>)
    ensures Standing(group, Keys([])) == group
  {
    assert Keys([]) == {};
    if group != [] {
      NoneRefuted(group[1..]);
    }
  }

  /**
   A Service that triggers twice is not held to what it selects: a pod it does not
   name supports the case then, and does not while the Service triggers once.
   */
  lemma {:induction false} TwiceIsUnscoped(rule: PatternRule, one: Signal, two: Signal, pod: Signal,
                                           signals: seq<Signal>)
    requires one.target.kind == "Service" && two.target == one.target && pod.target.kind == "Pod"
    requires one.target.HasNamespace() && pod.target.namespace == one.target.namespace
    requires one.pods != [] && pod.target.name !in one.pods
    requires pod in signals && pod.signalType in rule.supporting
    requires forall r :: r in signals ==>
               r.signalType !in rule.refuting && r.signalType != "network.selector_matches_nothing"
    ensures pod !in Score(rule, [one], signals).supporting
    ensures pod in Score(rule, [one, two], signals).supporting
  {
    hide Score, SelectsNothing, ResourceRef.Key, NamedAfter, InReach;
    KindsDiffer();
    NothingAgainst(rule, [one], signals);
    NothingAgainst(rule, [one, two], signals);
    assert one in [one] && one in [one, two];
    SharedNamespace(pod, [one, two], one);
    assert ServicesOnce([one]);
    ServiceSupportIff(rule, [one], signals, pod);
    assert !IsSelected(pod, [one]);
    assert [one, two][0].target.Key() == [one, two][1].target.Key();
    assert !ServicesOnce([one, two]);
    OtherSupportIff(rule, [one, two], signals, pod);
    StillSelects(one, signals);
  }

  lemma {:induction false} SharedNamespace(s: Signal, kept: seq<Signal>, t: Signal)
    requires t in kept && t.target.namespace == s.target.namespace
    ensures InReach(s, kept)
  {
  }

  lemma {:induction false} StillSelects(t: Signal, signals: seq<Signal>)
    requires forall r :: r in signals ==> r.signalType != "network.selector_matches_nothing"
    ensures !SelectsNothing(t, signals)
  {
  }
}
