/** What the id of an evidence record says it is about. */
module RecordIds {
  import opened Prelude
  import opened PolicyKinds
  import opened TableFacts
  import PolicyProofs
  import Collectors

  /** The kind of object a record is about, or the cluster. */
  function Kind(target: Option<Collectors.Target>): string {
    if target.Some? && target.value.kind != "" then target.value.kind else "cluster"
  }

  /** The namespace if any; and the name, or which cluster. */
  function Place(target: Option<Collectors.Target>, cluster: string): seq<string> {
    (if Collectors.NamespaceOf(target) != "" then [target.value.namespace] else [])
    + if Collectors.NameOf(target) != "" then [target.value.name] else ["_cluster", cluster]
  }

  /** The id is the kind of evidence, a colon, and what it is about, the parts behind slashes. */
  lemma {:induction false} EvidenceIdIs(kind: string, target: Option<Collectors.Target>, cluster: string)
    ensures Collectors.EvidenceId(kind, target, cluster)
            == kind + ":" + (Kind(target) + Slashed(Place(target, cluster)))
  {
    var name := if Collectors.NameOf(target) == "" then "_cluster/" + cluster else Collectors.NameOf(target);
    NameIs(target, cluster);
    if Collectors.NamespaceOf(target) != "" {
      InNamespace(target, cluster);
      Regroup(kind, Kind(target), Collectors.NamespaceOf(target), name);
    } else {
      assert Place(target, cluster) == Name(target, cluster);
      assert kind + ":" + (Kind(target) + ("/" + name)) == kind + ":" + Kind(target) + "/" + name;
    }
    hide Slashed, Kind, Place;
  }

  function Name(target: Option<Collectors.Target>, cluster: string): seq<string> {
    if Collectors.NameOf(target) != "" then [target.value.name] else ["_cluster", cluster]
  }

  lemma {:induction false} NameIs(target: Option<Collectors.Target>, cluster: string)
    ensures
      Slashed(Name(target, cluster))
      == "/" + if Collectors.NameOf(target) == "" then "_cluster/" + cluster else Collectors.NameOf(target)
  {
    var name := Collectors.NameOf(target);
    assert [name][1..] == [] && [cluster][1..] == [] && ["_cluster", cluster][1..] == [cluster] && Slashed([]) == "";
    assert Slashed([cluster]) == "/" + cluster;
    assert "/" + "_cluster" + ("/" + cluster) == "/" + ("_cluster/" + cluster);
  }

  lemma {:induction false} InNamespace(target: Option<Collectors.Target>, cluster: string)
    requires Collectors.NamespaceOf(target) != ""
    ensures Slashed(Place(target, cluster)) == "/" + Collectors.NamespaceOf(target) + Slashed(Name(target, cluster))
  {
    var place := Place(target, cluster);
    assert place[0] == Collectors.NamespaceOf(target) && place[1..] == Name(target, cluster);
  }

  lemma {:induction false} Regroup(kind: string, about: string, namespace: string, name: string)
    ensures kind + ":" + (about + ("/" + namespace + ("/" + name))) == kind + ":" + about + "/" + namespace + "/" + name
  {
    assert about + ("/" + namespace + ("/" + name)) == about + "/" + namespace + "/" + name;
  }

  lemma {:induction false} FirstColon(a: string, b: string, x: string, y: string)
    requires ':' !in a && ':' !in b && a + ":" + x == b + ":" + y
    ensures a == b && x == y
  {
    var s := a + ":" + x;
    assert s[|a|] == ':' && s[|b|] == ':';
    assert forall i :: 0 <= i < |a| ==> s[i] == a[i] && a[i] in a;
    assert forall i :: 0 <= i < |b| ==> s[i] == b[i] && b[i] in b;
    assert |a| == |b|;
    assert s[..|a|] == a && s[..|b|] == b;
    assert s[|a| + 1..] == x && s[|b| + 1..] == y;
  }

  /** Records with one id are of one kind and about one thing, when no part of their ids holds a separator. */
  lemma {:induction false} EvidenceIdTells(kind: string, target: Option<Collectors.Target>, cluster: string,
                                           kind': string, target': Option<Collectors.Target>, cluster': string)
    requires ':' !in kind && ':' !in kind' && '/' !in Kind(target) && '/' !in Kind(target')
    requires Whole(Place(target, cluster)) && Whole(Place(target', cluster'))
    requires Collectors.EvidenceId(kind, target, cluster) == Collectors.EvidenceId(kind', target', cluster')
    ensures kind == kind' && Kind(target) == Kind(target') && Place(target, cluster) == Place(target', cluster')
  {
    hide Collectors.EvidenceId, Whole, Place, Kind;
    EvidenceIdIs(kind, target, cluster);
    EvidenceIdIs(kind', target', cluster');
    var one, two := [Kind(target)] + Place(target, cluster), [Kind(target')] + Place(target', cluster');
    FirstColon(kind, kind', Kind(target) + Slashed(Place(target, cluster)),
               Kind(target') + Slashed(Place(target', cluster')));
    WholeOne(Kind(target), Place(target, cluster));
    WholeOne(Kind(target'), Place(target', cluster'));
    PolicyProofs.SegmentsOfSlashed(one);
    PolicyProofs.SegmentsOfSlashed(two);
    assert one == two;
    assert one[0] == two[0] && one[1..] == two[1..];
  }

  lemma {:induction false} WholeOne(first: string, rest: seq<string>)
    requires '/' !in first && Whole(rest)
    ensures Whole([first] + rest) && Slashed([first] + rest) == "/" + (first + Slashed(rest))
  {
    assert ([first] + rest)[1..] == rest;
    assert "/" + first + Slashed(rest) == "/" + (first + Slashed(rest));
    hide Slashed;
  }
}
