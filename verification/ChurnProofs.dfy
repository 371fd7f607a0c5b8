/** When a signal about one workload can change what a rule concludes about another. */
module ChurnProofs {
  import opened Prelude
  import opened Signals
  import opened HypothesisRules
  import opened RuleProofs

  // ------------------------------------------------------ when churn moves a score

  lemma {:induction false} AgainstSplit(rule: PatternRule, keys: set<string>, a: seq<Signal>, b: seq<Signal>)
    ensures Against(rule, keys, a + b) == Against(rule, keys, a) + Against(rule, keys, b)
  {
    if a == [] {
      assert a + b == b;
    } else {
      assert (a + b)[1..] == a[1..] + b;
      AgainstSplit(rule, keys, a[1..], b);
    }
  }

  lemma {:induction false} SupportersSplit(rule: PatternRule, kept: seq<Signal>, a: seq<Signal>, b: seq<Signal>,
                                           signals: seq<Signal>)
    ensures Supporters(rule, kept, a + b, signals)
            == Supporters(rule, kept, a, signals) + Supporters(rule, kept, b, signals)
  {
    hide About;
    if a == [] {
      assert a + b == b;
    } else {
      assert (a + b)[1..] == a[1..] + b;
      SupportersSplit(rule, kept, a[1..], b, signals);
    }
  }

  lemma {:induction false} SupportersForget(rule: PatternRule, kept: seq<Signal>, among: seq<Signal>,
                                            signals: seq<Signal>, others: seq<Signal>)
    requires forall s :: About(s, kept, signals) == About(s, kept, others)
    ensures Supporters(rule, kept, among, signals) == Supporters(rule, kept, among, others)
  {
    hide About;
    if among != [] {
      SupportersForget(rule, kept, among[1..], signals, others);
      assert About(among[0], kept, signals) == About(among[0], kept, others);
    }
  }

  lemma {:induction false} SelectorsApart(a: seq<Signal>, x: Signal, b: seq<Signal>, services: set<string>)
    requires x.target.Key() !in services
    ensures services <= EmptySelectors(a + [x] + b) <==> services <= EmptySelectors(a + b)
  {
    forall key | key in services
      ensures key in EmptySelectors(a + [x] + b) <==> key in EmptySelectors(a + b)
    {
      assert forall s :: s in a + [x] + b <==> s in a + b || s == x;
    }
  }

  /** A pod or a deployment is not a service: what is about a group does not depend on it. */
  lemma {:induction false} AboutForgets(s: Signal, kept: seq<Signal>, a: seq<Signal>, x: Signal, b: seq<Signal>)
    requires AllWellNamed(kept) && WellNamed(x.target) && IsWorkload(x.target.kind)
    ensures About(s, kept, a + [x] + b) == About(s, kept, a + b)
  {
    var services := ServiceKeys(kept);
    if x.target.Key() in services {
      var t :| t in kept && t.target.kind == "Service" && t.target.Key() == x.target.Key();
      NotAService(t, x);
    }
    SelectorsApart(a, x, b, services);
    hide WorkloadsOnly, OutOfReach, Selects, AboutWorkload, ServiceKeys, EmptySelectors;
  }

  lemma {:induction false} NotAService(service: Signal, x: Signal)
    requires WellNamed(service.target) && WellNamed(x.target) && IsWorkload(x.target.kind)
             && service.target.kind == "Service"
    ensures service.target.Key() != x.target.Key()
  {
    assert "Service"[0] != "Pod"[0] && "Service"[0] != "Deployment"[0];
    if service.target.Key() == x.target.Key() {
      KeyIsInjective(service.target, x.target);
      PodOrDeployment(service.target, x.target);
    }
  }

  /** The triggers a group rests on: all of one instance. */
  predicate OneGroup(i: Instance, group: seq<Signal>) {
    group != [] && AllWellNamed(group) && forall t :: t in group ==> InstanceOf(t) == i
  }

  lemma {:induction false} AgainstApart(rule: PatternRule, i: Instance, group: seq<Signal>, a: seq<Signal>, x: Signal,
                                        b: seq<Signal>)
    requires OneGroup(i, group) && WellNamed(x.target) && IsWorkload(x.target.kind) && InstanceOf(x) != i
    ensures Against(rule, Keys(group), a + [x] + b) == Against(rule, Keys(group), a + b)
  {
    hide InstanceOf, WellNamed, ResourceRef.Key;
    if t :| t in group && t.target.Key() == x.target.Key() {
      SameKeySameInstance(t, x);
    }
    assert x.target.Key() !in Keys(group);
    AgainstSplit(rule, Keys(group), a + [x], b);
    AgainstSplit(rule, Keys(group), a, [x]);
    AgainstSplit(rule, Keys(group), a, b);
    assert Against(rule, Keys(group), [x]) == [];
  }

  /** What x adds to the support of some triggers. */
  lemma {:induction false} SupportersAround(rule: PatternRule, kept: seq<Signal>, a: seq<Signal>, x: Signal,
                                            b: seq<Signal>)
    requires AllWellNamed(kept) && WellNamed(x.target) && IsWorkload(x.target.kind)
    ensures
      var before := Supporters(rule, kept, a + b, a + b);
      var after := Supporters(rule, kept, a + [x] + b, a + [x] + b);
      if x.signalType in rule.supporting && About(x, kept, a + b)
      then |after| == |before| + 1 && Types(after) == Types(before) + {x.signalType}
      else after == before
  {
    hide About, Supporters, AllWellNamed, WellNamed;
    forall s
      ensures About(s, kept, a + [x] + b) == About(s, kept, a + b)
    {
      AboutForgets(s, kept, a, x, b);
    }
    var given := a + b;
    SupportersForget(rule, kept, a + [x] + b, a + [x] + b, given);
    SupportersSplit(rule, kept, a + [x], b, given);
    SupportersSplit(rule, kept, a, [x], given);
    SupportersSplit(rule, kept, a, b, given);
    OneSupporter(rule, kept, x, given);
    var sa, sb := Supporters(rule, kept, a, given), Supporters(rule, kept, b, given);
    TypesSplit(sa + [x], sb);
    TypesSplit(sa, [x]);
    TypesSplit(sa, sb);
    assert Types([x]) == {x.signalType};
  }

  lemma {:induction false} TypesSplit(a: seq<Signal>, b: seq<Signal>)
    ensures Types(a + b) == Types(a) + Types(b)
  {
    assert forall s :: s in a + b <==> s in a || s in b;
  }

  lemma {:induction false} OneSupporter(rule: PatternRule, kept: seq<Signal>, x: Signal, signals: seq<Signal>)
    ensures Supporters(rule, kept, [x], signals)
            == if x.signalType in rule.supporting && About(x, kept, signals) then [x] else []
  {
    hide About;
    assert Supporters(rule, kept, [], signals) == [] && [x][1..] == [];
  }

  /** The signal supports the group, as the rule scores it on this evidence. */
  predicate Supports(rule: PatternRule, x: Signal, group: seq<Signal>, signals: seq<Signal>)
    requires group != []
  {
    x.signalType in rule.supporting && About(x, Score(rule, group, signals).triggering, signals)
  }

  /**
   Exactly when churn moves a score: one more signal about another pod or
   deployment, wherever it stands, leaves the score of a group as it was if and
   only if the rule does not count it as support for that group.
   */
  lemma {:induction false} ChurnMovesIffItSupports(rule: PatternRule, i: Instance, group: seq<Signal>,
                                                   a: seq<Signal>, x: Signal, b: seq<Signal>)
    requires OneGroup(i, group) && WellNamed(x.target) && IsWorkload(x.target.kind) && InstanceOf(x) != i
    ensures Score(rule, group, a + [x] + b) == Score(rule, group, a + b) <==> !Supports(rule, x, group, a + b)
  {
    hide Score, Supports, Types, InstanceOf, WellNamed;
    ScoreAround(rule, i, group, a, x, b);
  }

  /** What a first signal of a new type adds: the bonus, and the penalty a lone trigger is then spared. */
  function Gain(scored: Scored): int {
    SUPPORT_BONUS + if |scored.triggering| == 1 && scored.supporting == [] then UNCORROBORATED_PENALTY else 0
  }

  /**
   Exactly when churn moves a confidence, and by how much: the signal must
   support the group, be of a type no support of the group had yet, and bring a
   total below the upper bound to one above the lower.
   */
  lemma {:induction false} ChurnMovesConfidenceIff(rule: PatternRule, i: Instance, group: seq<Signal>,
                                                   a: seq<Signal>, x: Signal, b: seq<Signal>)
    requires OneGroup(i, group) && WellNamed(x.target) && IsWorkload(x.target.kind) && InstanceOf(x) != i
    ensures
      var before := Score(rule, group, a + b);
      var after := Score(rule, group, a + [x] + b);
      var total := Total(rule, before.triggering, before.supporting, before.refuting);
      var counts := Supports(rule, x, group, a + b) && x.signalType !in Types(before.supporting);
      && after.confidence == Clamp(total + if counts then Gain(before) else 0)
      && (after.confidence != before.confidence <==>
            counts && total < MAX_CONFIDENCE && MIN_CONFIDENCE < total + Gain(before))
  {
    hide Score, Supports, Types, InstanceOf, WellNamed;
    ScoreAround(rule, i, group, a, x, b);
    var before, after := Score(rule, group, a + b), Score(rule, group, a + [x] + b);
    ScoredConfidence(rule, group, a + b);
    ScoredConfidence(rule, group, a + [x] + b);
    TypesOfNone(before.supporting);
    MoreTypes(before.supporting, after.supporting, x);
  }

  lemma {:induction false} ScoredConfidence(rule: PatternRule, group: seq<Signal>, signals: seq<Signal>)
    requires group != []
    ensures
      var s := Score(rule, group, signals);
      s.confidence == Clamp(Total(rule, s.triggering, s.supporting, s.refuting))
  {
    hide Against, Standing, Supporters, Total, Clamp, MostSevere, Keys;
  }

  /** One more signal about another workload leaves a score's triggers and refutations alone. */
  lemma {:induction false} ScoreAround(rule: PatternRule, i: Instance, group: seq<Signal>,
                                       a: seq<Signal>, x: Signal, b: seq<Signal>)
    requires OneGroup(i, group) && WellNamed(x.target) && IsWorkload(x.target.kind) && InstanceOf(x) != i
    ensures
      var before := Score(rule, group, a + b);
      var after := Score(rule, group, a + [x] + b);
      && after.triggering == before.triggering && after.refuting == before.refuting
      && if Supports(rule, x, group, a + b)
         then |after.supporting| == |before.supporting| + 1
              && Types(after.supporting) == Types(before.supporting) + {x.signalType}
         else after == before
  {
    AgainstApart(rule, i, group, a, x, b);
    KeptIsWellNamed(rule, i, group, a + b);
    SupportersAround(rule, Score(rule, group, a + b).triggering, a, x, b);
    hide Against, Standing, Supporters, Confidence, About, InstanceOf, AllWellNamed, WellNamed, Keys, MostSevere, Types;
  }

  lemma {:induction false} TypesOfNone(support: seq<Signal>)
    ensures support == [] ==> Types(support) == {}
  {
  }

  lemma {:induction false} MoreTypes(before: seq<Signal>, after: seq<Signal>, x: Signal)
    ensures Types(after) == Types(before) + {x.signalType} ==>
              |Types(after)| == |Types(before)| + if x.signalType in Types(before) then 0 else 1
  {
    hide Types;
    if x.signalType in Types(before) {
      assert Types(before) + {x.signalType} == Types(before);
    }
  }

  lemma {:induction false} KeptIsWellNamed(rule: PatternRule, i: Instance, group: seq<Signal>, signals: seq<Signal>)
    requires OneGroup(i, group)
    ensures AllWellNamed(Score(rule, group, signals).triggering)
  {
    var refuting := Against(rule, Keys(group), signals);
    var kept := Score(rule, group, signals).triggering;
    forall t | t in kept
      ensures WellNamed(t.target)
    {
      StandingIs(group, Keys(refuting), t);
    }
    hide Against, Standing, Supporters, Confidence, About, InstanceOf, WellNamed, Keys, MostSevere;
  }

  /** A group of pods and deployments is never supported from outside. */
  lemma {:induction false} NoSupportFromOutside(rule: PatternRule, i: Instance, group: seq<Signal>, x: Signal,
                                                signals: seq<Signal>)
    requires WorkloadGroup(i, group) && WellNamed(x.target) && IsWorkload(x.target.kind) && InstanceOf(x) != i
    ensures !Supports(rule, x, group, signals)
  {
    var refuted := Keys(Against(rule, Keys(group), signals));
    StandingIsWorkloadGroup(i, group, refuted);
    var kept := if Standing(group, refuted) != [] then Standing(group, refuted) else group;
    AboutWorkloadBears(i, kept, x, signals, signals);
    hide Against, Standing, Supporters, Confidence, About, InstanceOf, WorkloadGroup, Keys, MostSevere;
  }

  // ------------------------------------------------- who churn can displace

  function Without(j: Instance, order: seq<Instance>): seq<Instance> {
    if order == [] then []
    else
      var n := |order| - 1;
      Without(j, order[..n]) + if order[n] == j then [] else [order[n]]
  }

  lemma {:induction false} WithoutHolds(j: Instance, order: seq<Instance>, i: Instance)
    ensures i in Without(j, order) <==> i in order && i != j
  {
    if order != [] {
      WithoutHolds(j, order[..|order| - 1], i);
      assert order == order[..|order| - 1] + [order[|order| - 1]];
    }
  }

  predicate Before(order: seq<Instance>, p: Instance, q: Instance) {
    exists a, b :: 0 <= a < b < |order| && order[a] == p && order[b] == q
  }

  /** Leaving out a third instance does not change who comes before whom. */
  lemma {:induction false} BeforeWithout(j: Instance, order: seq<Instance>, p: Instance, q: Instance)
    requires p != j && q != j
    ensures Before(order, p, q) <==> Before(Without(j, order), p, q)
  {
    if order != [] {
      var n := |order| - 1;
      var shorter, rest := order[..n], Without(j, order[..n]);
      BeforeWithout(j, shorter, p, q);
      WithoutHolds(j, shorter, p);
      BeforeAppend(shorter, order[n], p, q);
      BeforeAppend(rest, order[n], p, q);
      assert order == shorter + [order[n]];
      assert rest + [] == rest;
      hide Before;
    }
  }

  lemma {:induction false} BeforeAppend(order: seq<Instance>, last: Instance, p: Instance, q: Instance)
    ensures Before(order + [last], p, q) <==> Before(order, p, q) || (p in order && last == q)
  {
    var longer := order + [last];
    if a, b :| 0 <= a < b < |longer| && longer[a] == p && longer[b] == q {
      assert p in order;
    }
    if p in order && last == q {
      var a :| 0 <= a < |order| && order[a] == p;
      assert longer[a] == p && longer[|order|] == q;
    }
    if a, b :| 0 <= a < b < |order| && order[a] == p && order[b] == q {
      assert longer[a] == p && longer[b] == q;
    }
  }

  lemma {:induction false} TriggeringSplit(rule: PatternRule, a: seq<Signal>, b: seq<Signal>)
    ensures Triggering(rule, a + b) == Triggering(rule, a) + Triggering(rule, b)
  {
    if a == [] {
      assert a + b == b;
    } else {
      TriggeringSplit(rule, a[1..], b);
      assert (a + b)[1..] == a[1..] + b;
    }
  }

  lemma {:induction false} InstancesAppend(triggering: seq<Signal>, t: Signal)
    ensures
      var before := InstancesIn(triggering);
      InstancesIn(triggering + [t]) == before + if InstanceOf(t) in before then [] else [InstanceOf(t)]
  {
    assert (triggering + [t])[..|triggering|] == triggering;
  }

  lemma {:induction false} WithoutAppend(j: Instance, order: seq<Instance>, more: seq<Instance>)
    requires |more| <= 1
    ensures Without(j, order + more) == Without(j, order) + if more != [] && more[0] != j then more else []
  {
    if more == [] {
      assert order + more == order;
    } else {
      assert (order + more)[..|order|] == order;
    }
  }

  lemma {:induction false} OrderApartFrom(a: seq<Signal>, x: Signal, b: seq<Signal>)
    ensures Without(InstanceOf(x), InstancesIn(a + [x] + b)) == Without(InstanceOf(x), InstancesIn(a + b))
  {
    hide InstancesIn, Without, InstanceOf;
    var j := InstanceOf(x);
    if b == [] {
      assert a + [x] + b == a + [x] && a + b == a;
      InstancesAppend(a, x);
      WithoutAppend(j, InstancesIn(a), if j in InstancesIn(a) then [] else [j]);
    } else {
      var n := |b| - 1;
      var y := InstanceOf(b[n]);
      OrderApartFrom(a, x, b[..n]);
      assert a + [x] + b == (a + [x] + b[..n]) + [b[n]] && a + b == (a + b[..n]) + [b[n]];
      AppendApartFrom(j, a + [x] + b[..n], a + b[..n], b[n]);
    }
  }

  lemma {:induction false} AppendApartFrom(j: Instance, s: seq<Signal>, t: seq<Signal>, y: Signal)
    requires Without(j, InstancesIn(s)) == Without(j, InstancesIn(t))
    ensures Without(j, InstancesIn(s + [y])) == Without(j, InstancesIn(t + [y]))
  {
    var i := InstanceOf(y);
    InstancesAppend(s, y);
    InstancesAppend(t, y);
    WithoutHolds(j, InstancesIn(s), i);
    WithoutHolds(j, InstancesIn(t), i);
    WithoutAppend(j, InstancesIn(s), if i in InstancesIn(s) then [] else [i]);
    WithoutAppend(j, InstancesIn(t), if i in InstancesIn(t) then [] else [i]);
    hide InstancesIn, Without, InstanceOf;
  }

  /** One more signal about J leaves the order of the other triggered instances alone. */
  lemma {:induction false} OrderWithChurn(rule: PatternRule, a: seq<Signal>, x: Signal, b: seq<Signal>)
    ensures Without(InstanceOf(x), InstancesIn(Triggering(rule, a + [x] + b)))
         == Without(InstanceOf(x), InstancesIn(Triggering(rule, a + b)))
  {
    TriggeringSplit(rule, a + [x], b);
    TriggeringSplit(rule, a, [x]);
    TriggeringSplit(rule, a, b);
    var ta, tb := Triggering(rule, a), Triggering(rule, b);
    if x.signalType in rule.triggers {
      assert Triggering(rule, [x]) == [x];
      OrderApartFrom(ta, x, tb);
    } else {
      assert Triggering(rule, [x]) == [] && ta + [] + tb == ta + tb;
    }
  }

  /** In a list without repeats, coming first means standing at a smaller position. */
  lemma {:induction false} BeforeIsPosition(order: seq<Instance>, j: nat, k: nat)
    requires Distinct(order) && j < |order| && k < |order|
    ensures Before(order, order[j], order[k]) <==> j < k
  {
    if p, q :| 0 <= p < q < |order| && order[p] == order[j] && order[q] == order[k] {
      assert p == j && q == k;
    }
  }

  lemma {:induction false} FirstMaximumBeats(rule: PatternRule, order: seq<Instance>, signals: seq<Signal>, k: nat,
                                             j: nat)
    requires forall i :: i in order ==> i in InstancesIn(Triggering(rule, signals))
    requires FirstMaximum(rule, order, signals, k) && Distinct(order) && j < |order|
    ensures !Better(ScoreOf(rule, order[j], signals), ScoreOf(rule, order[k], signals))
    ensures Before(order, order[j], order[k]) ==>
            Better(ScoreOf(rule, order[k], signals), ScoreOf(rule, order[j], signals))
    ensures order[j] == order[k] || Before(order, order[j], order[k]) || Before(order, order[k], order[j])
  {
    BeforeIsPosition(order, j, k);
    BeforeIsPosition(order, k, j);
    hide ScoreOf, Better, InstancesIn, Triggering, Before, Distinct;
  }

  /** The named instance is triggered, and beats every other one. */
  lemma {:induction false} NamedBeats(rule: PatternRule, signals: seq<Signal>, i: Instance)
    requires Named(rule, signals).Some? && i in InstancesIn(Triggering(rule, signals))
    ensures Named(rule, signals).value in InstancesIn(Triggering(rule, signals))
    ensures
      var best := Named(rule, signals).value;
      var order := InstancesIn(Triggering(rule, signals));
      && !Better(ScoreOf(rule, i, signals), ScoreOf(rule, best, signals))
      && (Before(order, i, best) ==> Better(ScoreOf(rule, best, signals), ScoreOf(rule, i, signals)))
      && (i == best || Before(order, i, best) || Before(order, best, i))
  {
    var order := InstancesIn(Triggering(rule, signals));
    InstancesNonEmpty(Triggering(rule, signals));
    InstancesAreDistinct(Triggering(rule, signals));
    var k := BestIsFirstMaximum(rule, order, signals);
    var j :| 0 <= j < |order| && order[j] == i;
    FirstMaximumBeats(rule, order, signals, k, j);
    hide ScoreOf, Better, InstancesIn, Triggering, Before, Distinct, FirstMaximum;
  }

  /** The triggers of one instance, which signals about another leave alone. */
  lemma {:induction false} GroupApart(rule: PatternRule, i: Instance, a: seq<Signal>, x: Signal, b: seq<Signal>)
    requires InstanceOf(x) != i
    ensures Group(i, Triggering(rule, a + [x] + b)) == Group(i, Triggering(rule, a + b))
  {
    TriggeringSplit(rule, a + [x], b);
    TriggeringSplit(rule, a, [x]);
    TriggeringSplit(rule, a, b);
    var ta, tb := Triggering(rule, a), Triggering(rule, b);
    if x.signalType in rule.triggers {
      assert Triggering(rule, [x]) == [x];
      GroupSplit(i, ta + [x], tb);
      GroupSplit(i, ta, [x]);
      GroupSplit(i, ta, tb);
      assert Group(i, [x]) == [];
    } else {
      assert Triggering(rule, [x]) == [] && ta + [] + tb == ta + tb;
    }
  }

  lemma {:induction false} GroupSplit(i: Instance, a: seq<Signal>, b: seq<Signal>)
    ensures Group(i, a + b) == Group(i, a) + Group(i, b)
  {
    if a == [] {
      assert a + b == b;
    } else {
      assert (a + b)[1..] == a[1..] + b;
      GroupSplit(i, a[1..], b);
    }
  }

  lemma {:induction false} IsOneGroup(rule: PatternRule, i: Instance, signals: seq<Signal>)
    requires AllWellNamed(signals) && i in InstancesIn(Triggering(rule, signals))
    ensures OneGroup(i, Group(i, Triggering(rule, signals)))
  {
    var triggering := Triggering(rule, signals);
    GroupNonEmpty(i, triggering);
    forall t | t in Group(i, triggering)
      ensures t in signals && InstanceOf(t) == i
    {
      GroupHolds(i, triggering, t);
      TriggeringIs(rule, signals, t);
    }
  }

  /** The signal supports the rule's case about an instance. */
  predicate SupportsInstance(rule: PatternRule, x: Signal, i: Instance, signals: seq<Signal>)
    requires i in InstancesIn(Triggering(rule, signals))
  {
    GroupNonEmpty(i, Triggering(rule, signals));
    Supports(rule, x, Group(i, Triggering(rule, signals)), signals)
  }

  /** So the score of an instance moves exactly when the signal supports it. */
  lemma {:induction false} InstanceScoreMoves(rule: PatternRule, i: Instance, a: seq<Signal>, x: Signal, b: seq<Signal>)
    requires AllWellNamed(a + [x] + b) && IsWorkload(x.target.kind) && InstanceOf(x) != i
    requires i in InstancesIn(Triggering(rule, a + b)) && i in InstancesIn(Triggering(rule, a + [x] + b))
    ensures ScoreOf(rule, i, a + [x] + b) == ScoreOf(rule, i, a + b) <==> !SupportsInstance(rule, x, i, a + b)
  {
    assert x in a + [x] + b && forall s :: s in a + b ==> s in a + [x] + b;
    GroupApart(rule, i, a, x, b);
    IsOneGroup(rule, i, a + b);
    ChurnMovesIffItSupports(rule, i, Group(i, Triggering(rule, a + b)), a, x, b);
    hide Score, Supports, Group, Triggering, InstancesIn, InstanceOf;
  }

  /**
   Churn about one workload can change what a rule concludes about another only
   by taking its place or by supporting it: after one more signal about J,
   wherever it stands, the rule concludes exactly what it did, or names J, or
   counts the signal as support for the instance it named before or names now.
   */
  lemma {:induction false} ChurnDisplacesOnlyItself(rule: PatternRule, a: seq<Signal>, x: Signal, b: seq<Signal>)
    requires AllWellNamed(a + [x] + b) && IsWorkload(x.target.kind)
    requires Named(rule, a + b).Some? && Named(rule, a + b) != Some(InstanceOf(x))
    ensures
      || Named(rule, a + [x] + b) == Some(InstanceOf(x))
      || Evaluation(rule, a + [x] + b) == Evaluation(rule, a + b)
      || SupportsNamed(rule, x, Named(rule, a + b), a + b)
      || SupportsNamed(rule, x, Named(rule, a + [x] + b), a + b)
  {
    var before, after, j := a + b, a + [x] + b, InstanceOf(x);
    var named := Named(rule, before).value;
    OrderWithChurn(rule, a, x, b);
    NamedIsTriggered(rule, before);
    StillTriggered(rule, named, a, x, b);
    var now := Named(rule, after).value;
    NamedIsTriggered(rule, after);
    if now != j && !SupportsNamed(rule, x, Some(named), before) && !SupportsNamed(rule, x, Some(now), before) {
      StillTriggered(rule, now, a, x, b);
      InstanceScoreMoves(rule, named, a, x, b);
      InstanceScoreMoves(rule, now, a, x, b);
      SameBest(rule, a, x, b, named, now);
    }
    hide ScoreOf, Better, Before, Without, InstancesIn, Triggering, InstanceOf, Named, SupportsInstance, AllWellNamed;
  }

  /** The signal supports the instance a rule names, if that instance was there already. */
  predicate SupportsNamed(rule: PatternRule, x: Signal, named: Option<Instance>, signals: seq<Signal>) {
    && named.Some? && named.value in InstancesIn(Triggering(rule, signals))
    && SupportsInstance(rule, x, named.value, signals)
  }

  lemma {:induction false} StillTriggered(rule: PatternRule, i: Instance, a: seq<Signal>, x: Signal, b: seq<Signal>)
    requires i != InstanceOf(x)
    ensures i in InstancesIn(Triggering(rule, a + [x] + b)) <==> i in InstancesIn(Triggering(rule, a + b))
    ensures i in InstancesIn(Triggering(rule, a + b)) ==> Named(rule, a + [x] + b).Some?
  {
    OrderWithChurn(rule, a, x, b);
    WithoutHolds(InstanceOf(x), InstancesIn(Triggering(rule, a + [x] + b)), i);
    WithoutHolds(InstanceOf(x), InstancesIn(Triggering(rule, a + b)), i);
    hide InstanceOf, Triggering;
  }

  /** With unchanged scores, the best stays the best. */
  lemma {:induction false} SameBest(rule: PatternRule, a: seq<Signal>, x: Signal, b: seq<Signal>, named: Instance,
                                    now: Instance)
    requires Named(rule, a + b) == Some(named) && Named(rule, a + [x] + b) == Some(now)
    requires named != InstanceOf(x) && now != InstanceOf(x)
    requires named in InstancesIn(Triggering(rule, a + b)) && now in InstancesIn(Triggering(rule, a + b))
    requires named in InstancesIn(Triggering(rule, a + [x] + b)) && now in InstancesIn(Triggering(rule, a + [x] + b))
    requires ScoreOf(rule, named, a + [x] + b) == ScoreOf(rule, named, a + b)
    requires ScoreOf(rule, now, a + [x] + b) == ScoreOf(rule, now, a + b)
    ensures now == named
  {
    var j, oldOrder, newOrder :=
      InstanceOf(x), InstancesIn(Triggering(rule, a + b)), InstancesIn(Triggering(rule, a + [x] + b));
    OrderWithChurn(rule, a, x, b);
    NamedBeats(rule, a + [x] + b, named);
    NamedBeats(rule, a + b, now);
    BeforeWithout(j, oldOrder, now, named);
    BeforeWithout(j, newOrder, now, named);
    BeforeWithout(j, oldOrder, named, now);
    BeforeWithout(j, newOrder, named, now);
    hide ScoreOf, Better, Before, Without, InstancesIn, Triggering, InstanceOf, Named;
  }

  lemma {:induction false} NamedIsTriggered(rule: PatternRule, signals: seq<Signal>)
    requires Named(rule, signals).Some?
    ensures Named(rule, signals).value in InstancesIn(Triggering(rule, signals))
  {
    InstancesNonEmpty(Triggering(rule, signals));
  }

  /**
   About workloads churn only ever displaces. When the instances a rule named
   before and names now are made of pods and deployments, one more signal about
   J leaves the conclusion as it was, or makes the rule name J.
   */
  lemma {:induction false} WorkloadsAreOnlyDisplaced(rule: PatternRule, a: seq<Signal>, x: Signal, b: seq<Signal>)
    requires AllWellNamed(a + [x] + b) && IsWorkload(x.target.kind)
    requires Named(rule, a + b).Some? && Named(rule, a + b) != Some(InstanceOf(x))
    requires WorkloadsOnly(Group(Named(rule, a + b).value, Triggering(rule, a + b)))
    requires Named(rule, a + [x] + b).Some? ==>
               WorkloadsOnly(Group(Named(rule, a + [x] + b).value, Triggering(rule, a + b)))
    ensures
      || Named(rule, a + [x] + b) == Some(InstanceOf(x))
      || Evaluation(rule, a + [x] + b) == Evaluation(rule, a + b)
  {
    hide Named, Evaluation, InstanceOf, Triggering, Group, WorkloadsOnly, InstancesIn, SupportsInstance, WellNamed;
    ChurnDisplacesOnlyItself(rule, a, x, b);
    assert x in a + [x] + b && forall s :: s in a + b ==> s in a + [x] + b;
    assert AllWellNamed(a + b) && WellNamed(x.target);
    var named, now := Named(rule, a + b), Named(rule, a + [x] + b);
    if SupportsNamed(rule, x, named, a + b) {
      WorkloadsAreNotSupportedBy(rule, named.value, x, a + b);
    }
    if SupportsNamed(rule, x, now, a + b) && now.value != InstanceOf(x) {
      WorkloadsAreNotSupportedBy(rule, now.value, x, a + b);
    }
  }

  lemma {:induction false} WorkloadsAreNotSupportedBy(rule: PatternRule, i: Instance, x: Signal, signals: seq<Signal>)
    requires AllWellNamed(signals) && WellNamed(x.target) && IsWorkload(x.target.kind) && InstanceOf(x) != i
    requires i in InstancesIn(Triggering(rule, signals)) && WorkloadsOnly(Group(i, Triggering(rule, signals)))
    ensures !SupportsInstance(rule, x, i, signals)
  {
    GroupIsWorkloadGroup(rule, i, signals);
    NoSupportFromOutside(rule, i, Group(i, Triggering(rule, signals)), x, signals);
  }

  // ------------------------------------------------------- support that moves it

  /** What the table's node.unhealthy rule looks for. */
  predicate IsNodeUnhealthy(rule: PatternRule) {
    && rule.triggers == {"node.not_ready", "node.pressure", "pod.evicted"}
    && rule.supporting == {"pod.pending", "event.scheduling_failure", "pod.oom_killed"}
    && rule.refuting == {}
    && rule.baseConfidence == 60
  }

  predicate IsNodePressure(n: Signal) {
    n.signalType == "node.pressure" && n.target.kind == "Node" && n.target.namespace == None
  }

  predicate IsPendingPod(p: Signal) {
    p.signalType == "pod.pending" && p.target.kind == "Pod"
  }

  /** A pod that is pending, in any namespace, is about a node under pressure. */
  lemma {:induction false} AnyPodIsAboutANode(n: Signal, p: Signal, signals: seq<Signal>)
    requires IsNodePressure(n) && IsPendingPod(p)
    ensures About(p, [n], signals)
  {
    assert |"Node"| == 4 && |"Pod"| == 3 && |"Deployment"| == 10 && |"Service"| == 7;
    assert n in [n];
    assert !WorkloadsOnly([n]) && ServiceKeys([n]) == {};
    assert !OutOfReach(p, [n]);
    hide WorkloadsOnly, ServiceKeys, OutOfReach, Selects, AboutWorkload, EmptySelectors;
  }

  lemma {:induction false} NodeRoles(rule: PatternRule, n: Signal, p: Signal)
    requires IsNodeUnhealthy(rule) && IsNodePressure(n) && IsPendingPod(p)
    ensures n.signalType in rule.triggers && n.signalType !in rule.supporting
    ensures p.signalType in rule.supporting && p.signalType !in rule.triggers
    ensures rule.refuting == {} && rule.baseConfidence == 60
  {
    assert |"node.pressure"| == 13 && |"pod.pending"| == 11 && |"node.not_ready"| == 14 && |"pod.evicted"| == 11;
    assert |"event.scheduling_failure"| == 24 && |"pod.oom_killed"| == 14;
    assert "pod.pending"[4] != "pod.evicted"[4];
  }

  /** Nothing but the one trigger, and whatever supports it. */
  lemma {:induction false} OneTriggerScore(rule: PatternRule, n: Signal, support: seq<Signal>)
    requires rule.refuting == {} && n.signalType in rule.triggers && n.signalType !in rule.supporting
    requires |support| <= 1
    requires forall s :: s in support ==>
      s.signalType !in rule.triggers && s.signalType in rule.supporting && About(s, [n], [n] + support)
    ensures Evaluation(rule, [n] + support).Some?
    ensures Evaluation(rule, [n] + support).value.confidence
            == Clamp(rule.baseConfidence + if support == [] then -UNCORROBORATED_PENALTY else SUPPORT_BONUS)
  {
    var signals := [n] + support;
    OneTrigger(rule, n, support);
    OneSupport(rule, n, support);
    NothingAgainst(rule, Keys([n]), signals);
    OneInstance(n);
    assert Types(support) == if support == [] then {} else {support[0].signalType};
    assert Types([]) == {} && Keys([]) == {};
    hide Triggering, Supporters, Against, InstanceOf, Keys, Types, MostSevere, About, Clamp;
    assert Named(rule, signals) == Some(InstanceOf(n));
  }

  lemma {:induction false} OneTrigger(rule: PatternRule, n: Signal, support: seq<Signal>)
    requires n.signalType in rule.triggers && |support| <= 1
    requires forall s :: s in support ==> s.signalType !in rule.triggers
    ensures Triggering(rule, [n] + support) == [n]
  {
    TriggeringSplit(rule, [n], support);
    assert [n][1..] == [] && Triggering(rule, []) == [];
    if support != [] {
      assert support == [support[0]] && support[1..] == [];
    }
  }

  lemma {:induction false} OneSupport(rule: PatternRule, n: Signal, support: seq<Signal>)
    requires n.signalType !in rule.supporting && |support| <= 1
    requires forall s :: s in support ==> s.signalType in rule.supporting && About(s, [n], [n] + support)
    ensures Supporters(rule, [n], [n] + support, [n] + support) == support
  {
    hide About;
    SupportersSplit(rule, [n], [n], support, [n] + support);
    assert [n][1..] == [] && Supporters(rule, [n], [], [n] + support) == [];
    if support != [] {
      assert support == [support[0]] && support[1..] == [];
    }
  }

  lemma {:induction false} NothingAgainst(rule: PatternRule, keys: set<string>, signals: seq<Signal>)
    requires rule.refuting == {}
    ensures Against(rule, keys, signals) == []
  {
    if signals != [] {
      NothingAgainst(rule, keys, signals[1..]);
    }
  }

  lemma {:induction false} OneInstance(t: Signal)
    ensures InstancesIn([t]) == [InstanceOf(t)] && Group(InstanceOf(t), [t]) == [t] && Standing([t], {}) == [t]
  {
    assert [t][..0] == [] && [t][1..] == [];
    hide InstanceOf;
    assert InstancesIn([]) == [] && Group(InstanceOf(t), []) == [] && Standing([], {}) == [];
  }

  /**
   It happens: the rule about unhealthy nodes takes any pending pod as support,
   so one pod, of whatever namespace, moves its confidence from 45 to 70.
   */
  lemma {:induction false} PendingPodMovesNode(rule: PatternRule, n: Signal, p: Signal)
    requires IsNodeUnhealthy(rule) && IsNodePressure(n) && IsPendingPod(p)
    ensures Evaluation(rule, [n]).Some? && Evaluation(rule, [n]).value.confidence == 45
    ensures Evaluation(rule, [n, p]).Some? && Evaluation(rule, [n, p]).value.confidence == 70
  {
    hide Evaluation, About, IsNodeUnhealthy, IsNodePressure, IsPendingPod;
    NodeRoles(rule, n, p);
    AnyPodIsAboutANode(n, p, [n] + [p]);
    OneTriggerScore(rule, n, []);
    OneTriggerScore(rule, n, [p]);
    assert [n] + [] == [n] && [n] + [p] == [n, p];
  }
}
