/** What scoring one workload on its own evidence guarantees. */
module RuleProofs {
  import opened Prelude
  import opened Names
  import opened Signals
  import opened HypothesisRules

  // ------------------------------------------------------------ the selections

  lemma {:induction false} TriggeringIs(rule: PatternRule, signals: seq<Signal>, t: Signal)
    ensures t in Triggering(rule, signals) <==> t in signals && t.signalType in rule.triggers
  {
    if signals != [] {
      TriggeringIs(rule, signals[1..], t);
    }
  }

  lemma {:induction false} AgainstIs(rule: PatternRule, keys: set<string>, signals: seq<Signal>, r: Signal)
    ensures r in Against(rule, keys, signals) <==>
            r in signals && r.signalType in rule.refuting && r.target.Key() in keys
  {
    if signals != [] {
      AgainstIs(rule, keys, signals[1..], r);
    }
  }

  lemma {:induction false} StandingIs(triggering: seq<Signal>, refuted: set<string>, t: Signal)
    ensures t in Standing(triggering, refuted) <==> t in triggering && t.target.Key() !in refuted
  {
    if triggering != [] {
      StandingIs(triggering[1..], refuted, t);
    }
  }

  // --------------------------------------------------------------- refutation

  /** Some refuting signal is about the very resource this signal is about. */
  predicate Refuted(rule: PatternRule, signals: seq<Signal>, t: Signal) {
    exists r :: r in signals && r.signalType in rule.refuting && r.target.Key() == t.target.Key()
  }

  lemma {:induction false} RefutedKeys(rule: PatternRule, group: seq<Signal>, signals: seq<Signal>, t: Signal)
    requires t in group
    ensures t.target.Key() in Keys(Against(rule, Keys(group), signals)) <==> Refuted(rule, signals, t)
  {
    var against := Against(rule, Keys(group), signals);
    if t.target.Key() in Keys(against) {
      var r :| r in against && r.target.Key() == t.target.Key();
      AgainstIs(rule, Keys(group), signals, r);
    }
    if Refuted(rule, signals, t) {
      var r :| r in signals && r.signalType in rule.refuting && r.target.Key() == t.target.Key();
      AgainstIs(rule, Keys(group), signals, r);
    }
  }

  /** Which triggers a scored group rests on: those nothing refutes, or all of them if everything is refuted. */
  lemma {:induction false} ScoreRests(rule: PatternRule, group: seq<Signal>, signals: seq<Signal>)
    requires group != []
    ensures
      var scored := Score(rule, group, signals);
      && scored.triggering != [] && scored.primary in scored.triggering
      && (forall t :: t in scored.triggering ==> t in group)
      && (scored.refuting == [] <==> exists t :: t in group && !Refuted(rule, signals, t))
      && (scored.refuting == [] ==> forall t :: t in scored.triggering <==> t in group && !Refuted(rule, signals, t))
      && (scored.refuting != [] ==> scored.triggering == group)
  {
    var against := Against(rule, Keys(group), signals);
    var standing := Standing(group, Keys(against));
    forall t | t in group
      ensures t in standing <==> !Refuted(rule, signals, t)
    {
      StandingIs(group, Keys(against), t);
      RefutedKeys(rule, group, signals, t);
    }
    forall t | t in standing
      ensures t in group
    {
      StandingIs(group, Keys(against), t);
    }
    if standing == [] {
      RefutedKeys(rule, group, signals, group[0]);
      assert group[0] in group;
      assert against != [];
    } else {
      assert standing[0] in group && !Refuted(rule, signals, standing[0]);
    }
    hide Supporters, Confidence;
  }

  // ------------------------------------------------------------- the best one

  /** Better is a strict weak order: the comparison of one key. */
  lemma {:induction false} BetterOrders(a: Scored, b: Scored, c: Scored)
    ensures Better(a, b) ==> !Better(b, a)
    ensures Better(a, b) && !Better(c, b) ==> Better(a, c)
    ensures !Better(b, a) && Better(b, c) ==> Better(a, c)
    ensures !Better(b, a) && !Better(c, b) ==> !Better(c, a)
  {
  }

  predicate Distinct(order: seq<Instance>) {
    forall a, b :: 0 <= a < b < |order| ==> order[a] != order[b]
  }

  lemma {:induction false} InstancesAreDistinct(triggering: seq<Signal>)
    ensures Distinct(InstancesIn(triggering))
  {
    if triggering != [] {
      InstancesAreDistinct(triggering[..|triggering| - 1]);
    }
  }

  /** Position k of the order is beaten by nobody, and beats everybody before it. */
  predicate FirstMaximum(rule: PatternRule, order: seq<Instance>, signals: seq<Signal>, k: nat)
    requires forall i :: i in order ==> i in InstancesIn(Triggering(rule, signals))
  {
    && k < |order|
    && (forall j :: 0 <= j < |order| ==> !Better(ScoreOf(rule, order[j], signals), ScoreOf(rule, order[k], signals)))
    && (forall j :: 0 <= j < k ==> Better(ScoreOf(rule, order[k], signals), ScoreOf(rule, order[j], signals)))
  }

  lemma {:induction false} BestIsFirstMaximum(rule: PatternRule, order: seq<Instance>, signals: seq<Signal>)
    returns (k: nat)
    requires order != [] && forall i :: i in order ==> i in InstancesIn(Triggering(rule, signals))
    ensures FirstMaximum(rule, order, signals, k) && order[k] == BestOf(rule, order, signals)
  {
    hide ScoreOf, Better, InstancesIn, Triggering;
    var n := |order| - 1;
    if n == 0 {
      k := 0;
      var only := ScoreOf(rule, order[0], signals);
      BetterOrders(only, only, only);
    } else {
      var m := BestIsFirstMaximum(rule, order[..n], signals);
      var last, before := ScoreOf(rule, order[n], signals), ScoreOf(rule, order[m], signals);
      k := if Better(last, before) then n else m;
      forall j | 0 <= j < |order|
        ensures !Better(ScoreOf(rule, order[j], signals), ScoreOf(rule, order[k], signals))
        ensures j < k ==> Better(ScoreOf(rule, order[k], signals), ScoreOf(rule, order[j], signals))
      {
        if j < n {
          assert order[..n][j] == order[j];
          BetterOrders(last, before, ScoreOf(rule, order[j], signals));
        } else {
          BetterOrders(last, last, last);
        }
      }
    }
  }

  // ---------------------------------------------------- evaluate and refutation

  /**
   A hypothesis carries refuting signals exactly when every triggering signal,
   about any workload, is refuted on its own resource.
   */
  lemma {:induction false} RefutedIffEveryTriggerIs(rule: PatternRule, signals: seq<Signal>)
    requires Evaluation(rule, signals).Some?
    ensures Evaluation(rule, signals).value.refuting != [] <==>
            forall t :: t in Triggering(rule, signals) ==> Refuted(rule, signals, t)
  {
    var triggering := Triggering(rule, signals);
    var order := InstancesIn(triggering);
    InstancesNonEmpty(triggering);
    var k := BestIsFirstMaximum(rule, order, signals);
    var best := ScoreOf(rule, order[k], signals);
    assert Named(rule, signals) == Some(order[k]);
    GroupNonEmpty(order[k], triggering);
    ScoreRests(rule, Group(order[k], triggering), signals);
    IdsAreEmpty(best.refuting);
    if t :| t in triggering && !Refuted(rule, signals, t) {
      var i := InstanceOf(t);
      InstancesAreThose(triggering, i);
      var j :| 0 <= j < |order| && order[j] == i;
      GroupNonEmpty(i, triggering);
      GroupHolds(i, triggering, t);
      ScoreRests(rule, Group(i, triggering), signals);
      assert ScoreOf(rule, order[j], signals).refuting == [];
      assert !Better(ScoreOf(rule, order[j], signals), best);
    } else {
      forall t | t in Group(order[k], triggering)
        ensures Refuted(rule, signals, t)
      {
        GroupHolds(order[k], triggering, t);
      }
    }
  }

  lemma {:induction false} IdsAreEmpty(signals: seq<Signal>)
    ensures Ids(signals) == [] <==> signals == []
  {
  }

  /**
   What a hypothesis cites: triggers of the one instance it names, then the
   signals that support them; its target is one of those triggers. Unless every
   trigger there is refuted, the cited ones are exactly the unrefuted ones.
   */
  lemma {:induction false} CitesOneInstance(rule: PatternRule, signals: seq<Signal>)
    returns (cited: seq<Signal>, support: seq<Signal>)
    requires Evaluation(rule, signals).Some?
    ensures
      var h, i := Evaluation(rule, signals).value, Named(rule, signals).value;
      && cited != []
      && h.supporting == Ids(cited + support)
      && (exists t :: t in cited && t.target == h.target && t.severity == h.severity)
      && (forall t :: t in cited ==> t in signals && t.signalType in rule.triggers && InstanceOf(t) == i)
      && (forall t :: t in support ==> t in signals && t.signalType in rule.supporting && About(t, cited, signals))
      && (h.refuting == [] ==>
            forall t :: t in cited <==>
              t in signals && t.signalType in rule.triggers && InstanceOf(t) == i && !Refuted(rule, signals, t))
  {
    var triggering := Triggering(rule, signals);
    var i := Named(rule, signals).value;
    InstancesNonEmpty(triggering);
    GroupNonEmpty(i, triggering);
    var scored := ScoreOf(rule, i, signals);
    ScoreRests(rule, Group(i, triggering), signals);
    cited, support := scored.triggering, scored.supporting;
    IdsAreEmpty(scored.refuting);
    forall t
      ensures t in Group(i, triggering) <==> t in signals && t.signalType in rule.triggers && InstanceOf(t) == i
    {
      GroupHolds(i, triggering, t);
      TriggeringIs(rule, signals, t);
    }
    forall t | t in support
      ensures t in signals && t.signalType in rule.supporting && About(t, cited, signals)
    {
      SupportersAre(rule, cited, signals, signals, t);
    }
    hide About, Refuted, InstanceOf, Group, Triggering, InstancesIn;
  }

  lemma {:induction false} SupportersAre(rule: PatternRule, triggering: seq<Signal>, among: seq<Signal>,
                                         signals: seq<Signal>, s: Signal)
    ensures s in Supporters(rule, triggering, among, signals) <==>
            s in among && s.signalType in rule.supporting && About(s, triggering, signals)
  {
    hide About;
    if among != [] {
      SupportersAre(rule, triggering, among[1..], signals, s);
    }
  }

  /** Some signal carries this id. */
  predicate Carried(signals: seq<Signal>, id: string) {
    exists s :: s in signals && s.id == id
  }

  lemma {:induction false} IdsAreCarried(some: seq<Signal>, signals: seq<Signal>)
    requires forall s :: s in some ==> s in signals
    ensures forall id :: id in Ids(some) ==> Carried(signals, id)
  {
    if some != [] {
      IdsAreCarried(some[1..], signals);
      assert some[0] in signals;
    }
  }

  /** A hypothesis is about a resource in the evidence given, and cites only that evidence. */
  lemma {:induction false} CitesOnlyGiven(rule: PatternRule, signals: seq<Signal>)
    requires Evaluation(rule, signals).Some?
    ensures
      var h := Evaluation(rule, signals).value;
      && h.id == rule.id
      && (exists s :: s in signals && s.target == h.target)
      && (forall id :: id in h.supporting ==> Carried(signals, id))
      && (forall id :: id in h.refuting ==> Carried(signals, id))
  {
    var cited, support := CitesOneInstance(rule, signals);
    forall t | t in cited + support
      ensures t in signals
    {
    }
    IdsAreCarried(cited + support, signals);
    var group := Group(Named(rule, signals).value, Triggering(rule, signals));
    InstancesNonEmpty(Triggering(rule, signals));
    GroupNonEmpty(Named(rule, signals).value, Triggering(rule, signals));
    var against := Against(rule, Keys(group), signals);
    forall r | r in against
      ensures r in signals
    {
      AgainstIs(rule, Keys(group), signals, r);
    }
    IdsAreCarried(against, signals);
    hide About, Refuted, InstanceOf, Group, Triggering, InstancesIn, Against, Named;
  }

  /** More kinds of support never lower a confidence, more kinds of refutation never raise it; it stays in bounds. */
  lemma {:induction false} ConfidenceMoves(rule: PatternRule, triggering: seq<Signal>, less: seq<Signal>,
                                           against: seq<Signal>, more: seq<Signal>, fewer: seq<Signal>)
    requires Types(less) <= Types(more) && Types(fewer) <= Types(against)
    ensures MIN_CONFIDENCE <= Confidence(rule, triggering, less, against)
            <= Confidence(rule, triggering, more, fewer) <= MAX_CONFIDENCE
  {
    Fewer(Types(less), Types(more));
    Fewer(Types(fewer), Types(against));
    if less != [] {
      assert less[0].signalType in Types(more);
    }
  }

  lemma {:induction false} Fewer(a: set<string>, b: set<string>)
    requires a <= b
    ensures |a| <= |b|
  {
    assert b == a + (b - a);
  }

  // ----------------------------------------------------------- non-interference

  /**
   The signals that can bear on an instance made of pods and deployments: those
   about the instance itself, and those about other kinds that are not events.
   */
  predicate Bears(i: Instance, s: Signal) {
    InstanceOf(s) == i || (!IsWorkload(s.target.kind) && !IsEvent(s.signalType))
  }

  function Kept(i: Instance, signals: seq<Signal>): seq<Signal> {
    if signals == [] then []
    else
      var rest := Kept(i, signals[1..]);
      if Bears(i, signals[0]) then [signals[0]] + rest else rest
  }

  predicate AllWellNamed(signals: seq<Signal>) {
    forall s :: s in signals ==> WellNamed(s.target)
  }

  /** The signals of one instance, all of them pods and deployments. */
  predicate WorkloadGroup(i: Instance, group: seq<Signal>) {
    group != [] && WorkloadsOnly(group) && AllWellNamed(group) &&
    forall t :: t in group ==> InstanceOf(t) == i
  }

  lemma {:induction false} PodOrDeployment(a: ResourceRef, b: ResourceRef)
    requires WellNamed(a) && WellNamed(b) && IsWorkload(b.kind) && Lower(a.kind) == Lower(b.kind)
    ensures a.kind == b.kind
  {
    LowerPod();
    LowerDeployment();
    hide Lower;
  }

  lemma {:induction false} LowerPod()
    ensures Lower("Pod") == "pod"
  {
    LowerLetters("od");
    assert "Pod"[1..] == "od";
    assert "pod" == ['p'] + "od";
  }

  lemma {:induction false} LowerDeployment()
    ensures Lower("Deployment") == "deployment"
  {
    LowerLetters("eployment");
    assert "Deployment"[1..] == "eployment";
    assert "deployment" == ['d'] + "eployment";
  }

  lemma {:induction false} LowerLetters(s: string)
    requires forall k :: 0 <= k < |s| ==> !('A' <= s[k] <= 'Z')
    ensures Lower(s) == s
  {
    if s != [] {
      LowerLetters(s[1..]);
    }
  }

  /** A signal about the very resource of a trigger is about the trigger's instance. */
  lemma {:induction false} SameKeySameInstance(s: Signal, t: Signal)
    requires WellNamed(s.target) && WellNamed(t.target) && IsWorkload(t.target.kind)
    requires s.target.Key() == t.target.Key()
    ensures InstanceOf(s) == InstanceOf(t)
  {
    KeyIsInjective(s.target, t.target);
    PodOrDeployment(s.target, t.target);
  }

  lemma {:induction false} ReplicaInstance(pod: Signal)
    requires pod.target.kind == "Pod" && OwnerOf(Replica, pod.target.name).Some?
    ensures InstanceOf(pod) == Workload(pod.target.NamespaceOr(""), OwnerOf(Replica, pod.target.name).value)
  {
    hide OwnerOf;
    assert |pod.target.kind| == 3 && |"Deployment"| == 10 && |"StatefulSet"| == 11;
  }

  /** A deployment and the pods it owns are one instance. */
  lemma {:induction false} OwnerSameInstance(pod: Signal, deployment: Signal)
    requires pod.target.kind == "Pod" && deployment.target.kind == "Deployment" && WellNamed(deployment.target)
    requires pod.target.namespace == deployment.target.namespace
    requires MatchesReplicasOf(deployment.target.name, pod.target.name)
    ensures InstanceOf(pod) == InstanceOf(deployment)
  {
    OwnershipAgrees(pod.target.name, deployment.target.name);
    ReplicaInstance(pod);
    hide OwnerOf, MatchesReplicasOf;
  }

  /** For a workload group, being about it means bearing on its instance; the other signals play no part. */
  lemma {:induction false} AboutWorkloadBears(i: Instance, group: seq<Signal>, s: Signal, signals: seq<Signal>,
                                              others: seq<Signal>)
    requires WorkloadGroup(i, group) && WellNamed(s.target)
    ensures About(s, group, signals) == About(s, group, others)
    ensures About(s, group, signals) ==> Bears(i, s)
  {
    NoServices(group);
    if About(s, group, signals) && IsWorkload(s.target.kind) {
      assert AboutWorkload(s, group);
      if t :| t in group && t.target.Key() == s.target.Key() {
        SameKeySameInstance(s, t);
      } else if s.target.kind == "Deployment" {
        var t :| t in group && t.target.kind == "Pod" && t.target.namespace == s.target.namespace &&
                 MatchesReplicasOf(s.target.name, t.target.name);
        OwnerSameInstance(t, s);
      } else {
        var t :| t in group && t.target.kind == "Deployment" && t.target.namespace == s.target.namespace &&
                 MatchesReplicasOf(t.target.name, s.target.name);
        OwnerSameInstance(s, t);
      }
    }
  }

  lemma {:induction false} NoServices(group: seq<Signal>)
    requires WorkloadsOnly(group)
    ensures ServiceKeys(group) == {}
  {
    assert "Service"[0] != "Pod"[0] && "Service"[0] != "Deployment"[0];
  }

  lemma {:induction false} AgainstKept(rule: PatternRule, i: Instance, group: seq<Signal>, signals: seq<Signal>)
    requires WorkloadGroup(i, group) && AllWellNamed(signals)
    ensures Against(rule, Keys(group), Kept(i, signals)) == Against(rule, Keys(group), signals)
  {
    if signals != [] {
      AgainstKept(rule, i, group, signals[1..]);
      var s := signals[0];
      if t :| t in group && t.target.Key() == s.target.Key() {
        SameKeySameInstance(s, t);
      }
      hide InstanceOf;
    }
  }

  lemma {:induction false} SupportersKept(rule: PatternRule, i: Instance, group: seq<Signal>, among: seq<Signal>,
                                          signals: seq<Signal>, others: seq<Signal>)
    requires WorkloadGroup(i, group) && AllWellNamed(among)
    ensures Supporters(rule, group, Kept(i, among), others) == Supporters(rule, group, among, signals)
  {
    if among != [] {
      SupportersKept(rule, i, group, among[1..], signals, others);
      AboutWorkloadBears(i, group, among[0], signals, others);
      hide About, Bears;
    }
  }

  lemma {:induction false} StandingIsWorkloadGroup(i: Instance, group: seq<Signal>, refuted: set<string>)
    requires WorkloadGroup(i, group)
    ensures Standing(group, refuted) == [] || WorkloadGroup(i, Standing(group, refuted))
  {
    forall t | t in Standing(group, refuted)
      ensures t in group
    {
      StandingIs(group, refuted, t);
    }
  }

  /** The score of a workload group depends on the signals only through those that bear on it. */
  lemma {:induction false} ScoreKept(rule: PatternRule, i: Instance, group: seq<Signal>, signals: seq<Signal>)
    requires WorkloadGroup(i, group) && AllWellNamed(signals)
    ensures Score(rule, group, Kept(i, signals)) == Score(rule, group, signals)
  {
    AgainstKept(rule, i, group, signals);
    var refuting := Against(rule, Keys(group), signals);
    var standing := Standing(group, Keys(refuting));
    StandingIsWorkloadGroup(i, group, Keys(refuting));
    var kept := if standing != [] then standing else group;
    SupportersKept(rule, i, kept, signals, signals, Kept(i, signals));
    hide Against, Standing, Supporters, Confidence, Kept, WorkloadGroup;
  }

  lemma {:induction false} TriggersKept(rule: PatternRule, i: Instance, signals: seq<Signal>)
    ensures Group(i, Triggering(rule, Kept(i, signals))) == Group(i, Triggering(rule, signals))
  {
    hide InstanceOf;
    if signals != [] {
      TriggersKept(rule, i, signals[1..]);
    }
  }

  lemma {:induction false} GroupIsWorkloadGroup(rule: PatternRule, i: Instance, signals: seq<Signal>)
    requires AllWellNamed(signals) && i in InstancesIn(Triggering(rule, signals))
    requires WorkloadsOnly(Group(i, Triggering(rule, signals)))
    ensures WorkloadGroup(i, Group(i, Triggering(rule, signals)))
  {
    var triggering := Triggering(rule, signals);
    GroupNonEmpty(i, triggering);
    forall t | t in Group(i, triggering)
      ensures t in signals && InstanceOf(t) == i
    {
      GroupHolds(i, triggering, t);
      TriggeringIs(rule, signals, t);
    }
  }

  /**
   Non-interference. Two sets of evidence that agree on what bears on a workload
   give that workload the same score: same confidence, severity, supporting and
   refuting signals, whatever they say about any other pod or deployment.
   */
  lemma {:induction false} ScoreIgnoresOthers(rule: PatternRule, i: Instance, signals: seq<Signal>, others: seq<Signal>)
    requires AllWellNamed(signals) && AllWellNamed(others)
    requires i in InstancesIn(Triggering(rule, signals))
    requires WorkloadsOnly(Group(i, Triggering(rule, signals)))
    requires Kept(i, signals) == Kept(i, others)
    ensures i in InstancesIn(Triggering(rule, others))
    ensures ScoreOf(rule, i, others) == ScoreOf(rule, i, signals)
  {
    TriggersKept(rule, i, signals);
    TriggersKept(rule, i, others);
    GroupIsWorkloadGroup(rule, i, signals);
    var group := Group(i, Triggering(rule, signals));
    assert group == Group(i, Triggering(rule, others));
    assert i in InstancesIn(Triggering(rule, others)) by {
      GroupHolds(i, Triggering(rule, others), group[0]);
      InstancesAreThose(Triggering(rule, others), i);
    }
    ScoreKept(rule, i, group, signals);
    ScoreKept(rule, i, group, others);
    hide Score, Kept, Group, Triggering, InstancesIn, WorkloadGroup;
  }

  /** So when both name the same workload, the two hypotheses are identical. */
  lemma {:induction false} EvaluationIgnoresOthers(rule: PatternRule, signals: seq<Signal>, others: seq<Signal>)
    requires AllWellNamed(signals) && AllWellNamed(others)
    requires Named(rule, signals).Some? && Named(rule, others) == Named(rule, signals)
    requires
      var i := Named(rule, signals).value;
      WorkloadsOnly(Group(i, Triggering(rule, signals))) && Kept(i, signals) == Kept(i, others)
    ensures Evaluation(rule, others) == Evaluation(rule, signals)
  {
    var i := Named(rule, signals).value;
    InstancesNonEmpty(Triggering(rule, signals));
    assert i in InstancesIn(Triggering(rule, signals));
    ScoreIgnoresOthers(rule, i, signals, others);
  }

  lemma {:induction false} KeptSplit(i: Instance, a: seq<Signal>, b: seq<Signal>)
    ensures Kept(i, a + b) == Kept(i, a) + Kept(i, b)
  {
    hide Bears;
    if a == [] {
      assert a + b == b;
    } else {
      KeptSplit(i, a[1..], b);
      assert (a + b)[1..] == a[1..] + b;
    }
  }

  /** Evidence about another pod or deployment, put anywhere, does not bear on an instance. */
  lemma {:induction false} ChurnIsNotKept(i: Instance, a: seq<Signal>, x: Signal, b: seq<Signal>)
    requires IsWorkload(x.target.kind) && InstanceOf(x) != i
    ensures Kept(i, a + [x] + b) == Kept(i, a + b)
  {
    KeptSplit(i, a + [x], b);
    KeptSplit(i, a, [x]);
    KeptSplit(i, a, b);
    assert Kept(i, [x]) == [];
  }
}
