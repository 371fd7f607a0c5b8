/** What a path says can be read back from it, over the whole table. */
module PolicyProofs {
  import opened Prelude
  import opened Text
  import opened Escaping
  import opened PolicyKinds
  import opened TableFacts

  /** What a read is of. */
  datatype Target = Target(kind: string, namespace: string, name: string)

  // ------------------------------------------------------------ reading a path

  function SegmentLength(s: string): (n: nat)
    ensures n <= |s|
  {
    if s == "" || s[0] == '/' then 0 else 1 + SegmentLength(s[1..])
  }

  function Segments(path: string): seq<string>
    decreases |path|
  {
    if path == "" || path[0] != '/' then []
    else
      var n := SegmentLength(path[1..]);
      [path[1..][..n]] + Segments(path[1..][n..])
  }

  function GroupOf(segments: seq<string>): Option<(ApiGroup, seq<string>)> {
    if |segments| >= 2 && segments[0] == "api" && segments[1] == "v1" then Some((Core, segments[2..]))
    else if |segments| >= 3 && segments[0] == "apis" then Some((Extension(segments[1], segments[2]), segments[3..]))
    else None
  }

  /** The kind a group and a plural belong to: the first in the table. */
  function KindFor(entries: seq<Entry>, group: ApiGroup, plural: string): Option<string> {
    if entries == [] then None
    else if entries[0].resource.group == group && entries[0].resource.plural == plural then Some(entries[0].kind)
    else KindFor(entries[1..], group, plural)
  }

  function TargetOf(group: ApiGroup, plural: string, namespace: Option<string>, name: Option<string>): Option<Target> {
    var kind := KindFor(Kinds(), group, plural);
    if kind.Some? && namespace.Some? && name.Some? then Some(Target(kind.value, namespace.value, name.value)) else None
  }

  /** Only the number of segments after the group tells the shapes apart. */
  function ReadRest(group: ApiGroup, rest: seq<string>): Option<Target> {
    match |rest|
    case 1 => TargetOf(group, rest[0], Some(""), Some(""))
    case 2 => TargetOf(group, rest[0], Some(""), ReadSegment(rest[1]))
    case 3 => TargetOf(group, rest[2], ReadSegment(rest[1]), Some(""))
    case 4 => TargetOf(group, rest[2], ReadSegment(rest[1]), ReadSegment(rest[3]))
    case 5 =>
      var namespace, name := ReadSegment(rest[1]), ReadSegment(rest[3]);
      if namespace.Some? && name.Some? then Some(Target(LOGS, namespace.value, name.value)) else None
    case _ => None
  }

  function ReadPath(path: string): Option<Target> {
    var group := GroupOf(Segments(path));
    if group.None? then None else ReadRest(group.value.0, group.value.1)
  }

  // ---------------------------------------------------------------- segments

  lemma {:induction false} SegmentLengthOf(s: string, rest: string)
    requires '/' !in s && (rest == "" || rest[0] == '/')
    ensures SegmentLength(s + rest) == |s|
  {
    if s == "" {
      assert s + rest == rest;
    } else {
      assert (s + rest)[1..] == s[1..] + rest;
      SegmentLengthOf(s[1..], rest);
    }
  }

  lemma {:induction false} SegmentsOfSlashed(segments: seq<string>)
    requires Whole(segments)
    ensures Segments(Slashed(segments)) == segments
  {
    if segments != [] {
      var rest := Slashed(segments[1..]);
      var path := Slashed(segments);
      assert path[1..] == segments[0] + rest;
      assert rest == "" || rest[0] == '/';
      SegmentLengthOf(segments[0], rest);
      assert path[1..][..|segments[0]|] == segments[0] && path[1..][|segments[0]|..] == rest;
      SegmentsOfSlashed(segments[1..]);
    }
  }

  // --------------------------------------------------------------- the table

  /** The groups entries belong to. */
  predicate Within(entries: seq<Entry>, groups: set<ApiGroup>) {
    forall i :: 0 <= i < |entries| ==> entries[i].resource.group in groups
  }

  /** Every kind is found again under its group and plural. */
  ghost predicate Faithful(entries: seq<Entry>) {
    forall kind :: Lookup(entries, kind).Some? ==>
      var r := Lookup(entries, kind).value;
      KindFor(entries, r.group, r.plural) == Some(kind)
  }

  lemma {:induction false} LookupAppend(a: seq<Entry>, b: seq<Entry>, kind: string)
    ensures Lookup(a + b, kind) == if Lookup(a, kind).Some? then Lookup(a, kind) else Lookup(b, kind)
  {
    if a == [] {
      assert a + b == b;
    } else {
      assert (a + b)[1..] == a[1..] + b;
      LookupAppend(a[1..], b, kind);
    }
  }

  lemma {:induction false} KindForAppend(a: seq<Entry>, b: seq<Entry>, group: ApiGroup, plural: string)
    ensures
      KindFor(a + b, group, plural) ==
      if KindFor(a, group, plural).Some? then KindFor(a, group, plural) else KindFor(b, group, plural)
  {
    if a == [] {
      assert a + b == b;
    } else {
      assert (a + b)[1..] == a[1..] + b;
      KindForAppend(a[1..], b, group, plural);
    }
  }

  lemma {:induction false} KindForElsewhere(entries: seq<Entry>, group: ApiGroup, plural: string)
    requires forall i :: 0 <= i < |entries| ==> entries[i].resource.group != group
    ensures KindFor(entries, group, plural) == None
  {
    if entries != [] {
      KindForElsewhere(entries[1..], group, plural);
    }
  }

  lemma {:induction false} LookupFinds(entries: seq<Entry>, kind: string)
    ensures Lookup(entries, kind).Some? ==>
              exists i :: 0 <= i < |entries| && entries[i] == Entry(kind, Lookup(entries, kind).value)
  {
    if entries != [] {
      LookupFinds(entries[1..], kind);
      if entries[0].kind != kind && Lookup(entries, kind).Some? {
        var i :| 0 <= i < |entries[1..]| && entries[1..][i] == Entry(kind, Lookup(entries, kind).value);
        assert entries[i + 1] == entries[1..][i];
      }
    }
  }

  lemma {:induction false} KindForAt(entries: seq<Entry>, group: ApiGroup, i: nat)
    requires Apart(entries, group) && i < |entries|
    ensures KindFor(entries, group, entries[i].resource.plural) == Some(entries[i].kind)
  {
    if i > 0 {
      KindForAt(entries[1..], group, i - 1);
    }
  }

  /** Entries of one more group, in front of a faithful table. */
  lemma {:induction false} FaithfulGrows(front: seq<Entry>, group: ApiGroup, back: seq<Entry>, groups: set<ApiGroup>)
    requires Apart(front, group) && Faithful(back) && Within(back, groups) && group !in groups
    ensures Faithful(front + back) && Within(front + back, groups + {group})
  {
    forall kind | Lookup(front + back, kind).Some?
      ensures
        var r := Lookup(front + back, kind).value;
        KindFor(front + back, r.group, r.plural) == Some(kind)
    {
      var r := Lookup(front + back, kind).value;
      LookupAppend(front, back, kind);
      KindForAppend(front, back, r.group, r.plural);
      LookupFinds(front, kind);
      LookupFinds(back, kind);
      if Lookup(front, kind).Some? {
        var i :| 0 <= i < |front| && front[i] == Entry(kind, r);
        KindForAt(front, group, i);
      } else {
        var i :| 0 <= i < |back| && back[i] == Entry(kind, r);
        KindForElsewhere(front, r.group, r.plural);
      }
    }
  }

  /** No two entries of the table share a group and a plural. */
  lemma {:induction false} TableIsFaithful()
    ensures Faithful(Kinds())
    ensures Within(Kinds(), {METRICS, STORAGE, DISCOVERY, NETWORKING, BATCH, APPS} + {Core})
  {
    CoreApart();
    AppsApart();
    BatchApart();
    NetworkingApart();
    StorageApart();
    GroupsDiffer();
    hide CoreKinds, AppsKinds, BatchKinds, NetworkingKinds, DiscoveryKinds, StorageKinds, MetricsKinds, Apart, Faithful,
      Within;
    NothingIsFaithful();
    var metrics := MetricsKinds() + [];
    FaithfulGrows(MetricsKinds(), METRICS, [], {});
    assert metrics == MetricsKinds();
    FaithfulGrows(StorageKinds(), STORAGE, metrics, {} + {METRICS});
    var storage := StorageKinds() + metrics;
    FaithfulGrows(DiscoveryKinds(), DISCOVERY, storage, {METRICS} + {STORAGE});
    var discovery := DiscoveryKinds() + storage;
    FaithfulGrows(NetworkingKinds(), NETWORKING, discovery, {METRICS, STORAGE} + {DISCOVERY});
    var networking := NetworkingKinds() + discovery;
    FaithfulGrows(BatchKinds(), BATCH, networking, {METRICS, STORAGE, DISCOVERY} + {NETWORKING});
    var batch := BatchKinds() + networking;
    FaithfulGrows(AppsKinds(), APPS, batch, {METRICS, STORAGE, DISCOVERY, NETWORKING} + {BATCH});
    var apps := AppsKinds() + batch;
    FaithfulGrows(CoreKinds(), Core, apps, {METRICS, STORAGE, DISCOVERY, NETWORKING, BATCH} + {APPS});
    assert {METRICS, STORAGE, DISCOVERY, NETWORKING, BATCH} + {APPS}
           == {METRICS, STORAGE, DISCOVERY, NETWORKING, BATCH, APPS};
  }

  lemma {:induction false} NothingIsFaithful()
    ensures Faithful([]) && Within([], {})
  {
  }

  // ------------------------------------------------------------- the theorem

  lemma {:induction false} GroupReadsBack(group: ApiGroup, rest: seq<string>)
    ensures GroupOf(GroupSegments(group) + rest) == Some((group, rest))
  {
    assert |"api"| == 3 && |"apis"| == 4;
    assert (GroupSegments(group) + rest)[|GroupSegments(group)|..] == rest;
  }

  /** What follows the group in a path. */
  function RestOf(plural: string, namespace: string, name: string): seq<string> {
    (if namespace != "" then ["namespaces", PathEscape(namespace)] else [])
    + [plural]
    + if name != "" then [PathEscape(name)] else []
  }

  lemma {:induction false} RestReadsBack(group: ApiGroup, plural: string, kind: string, namespace: string, name: string)
    requires KindFor(Kinds(), group, plural) == Some(kind)
    ensures ReadRest(group, RestOf(plural, namespace, name)) == Some(Target(kind, namespace, name))
  {
    SegmentRoundTrip(namespace);
    SegmentRoundTrip(name);
    hide Kinds, KindFor, PathEscape, ReadSegment;
    var rest := RestOf(plural, namespace, name);
    if namespace == "" {
      assert rest == [plural] + if name != "" then [PathEscape(name)] else [];
    }
  }

  lemma {:induction false} RestIsWhole(plural: string, namespace: string, name: string)
    requires '/' !in plural
    ensures Whole(RestOf(plural, namespace, name))
  {
    EscapedIsOneSegment(namespace);
    EscapedIsOneSegment(name);
    assert '/' !in "namespaces";
    hide PathEscape, IsSegment;
  }

  /** The path of a read of some kind in the table says which kind, which namespace and which name. */
  lemma {:induction false} TablePathReadsBack(kind: string, entry: Resource, namespace: string, name: string)
    requires Lookup(Kinds(), kind) == Some(entry)
    ensures ReadPath(Slashed(PathSegments(entry, namespace, name))) == Some(Target(kind, namespace, name))
  {
    TableIsFaithful();
    TableIsPlain();
    LookupFinds(Kinds(), kind);
    hide Kinds, PathEscape, KindFor, GroupSegments, GroupOf, Whole, Slashed, Segments, ReadRest;
    GroupsArePlain(entry.group);
    RestIsWhole(entry.plural, namespace, name);
    RestReadsBack(entry.group, entry.plural, kind, namespace, name);
    var rest := RestOf(entry.plural, namespace, name);
    WholeAppend(GroupSegments(entry.group), rest);
    SegmentsOfSlashed(GroupSegments(entry.group) + rest);
    GroupReadsBack(entry.group, rest);
    assert PathSegments(entry, namespace, name) == GroupSegments(entry.group) + rest;
  }

  lemma {:induction false} WholeAppend(a: seq<string>, b: seq<string>)
    requires Whole(a) && Whole(b)
    ensures Whole(a + b)
  {
  }

  lemma {:induction false} LogPathReadsBack(namespace: string, name: string)
    ensures ReadPath(Slashed(LogSegments(namespace, name))) == Some(Target(LOGS, namespace, name))
  {
    hide Kinds, Whole, GroupOf, Slashed, Segments, PathEscape, ReadSegment, KindFor, IsSegment;
    SegmentRoundTrip(namespace);
    SegmentRoundTrip(name);
    LogRestIsWhole(namespace, name);
    GroupsArePlain(Core);
    var rest := ["namespaces", PathEscape(namespace), "pods", PathEscape(name), "log"];
    WholeAppend(GroupSegments(Core), rest);
    SegmentsOfSlashed(GroupSegments(Core) + rest);
    GroupReadsBack(Core, rest);
    assert LogSegments(namespace, name) == GroupSegments(Core) + rest;
  }

  lemma {:induction false} LogRestIsWhole(namespace: string, name: string)
    ensures Whole(["namespaces", PathEscape(namespace), "pods", PathEscape(name), "log"])
  {
    EscapedIsOneSegment(namespace);
    EscapedIsOneSegment(name);
    assert '/' !in "namespaces" && '/' !in "pods" && '/' !in "log";
    hide PathEscape, IsSegment;
  }

  /** The namespace a resolved read is confined to. */
  function ConfinedTo(kind: string, namespace: string, parameters: Parameters): string {
    if kind == LOGS || Lookup(Kinds(), kind).None? then namespace
    else EffectiveNamespace(Lookup(Kinds(), kind).value, namespace, parameters)
  }

  /** Every path Resolve produces reads back as the kind, the effective namespace and the name it was made for. */
  lemma {:induction false} PathReadsBack(kind: string, namespace: string, name: string, parameters: Parameters)
    requires Resolved(kind, namespace, name, parameters).Ok?
    ensures
      ReadPath(Resolved(kind, namespace, name, parameters).value.path)
      == Some(Target(kind, ConfinedTo(kind, namespace, parameters), name))
  {
    hide Kinds, Lookup, ReadPath, Slashed, PathSegments, LogSegments, QueryOf, LogQuery, CommandParts, LogParts, Join,
      EffectiveNamespace;
    if kind == LOGS {
      LogPathReadsBack(namespace, name);
    } else {
      var entry := Lookup(Kinds(), kind).value;
      TablePathReadsBack(kind, entry, EffectiveNamespace(entry, namespace, parameters), name);
    }
  }

  /** Two reads of the same path are reads of the same thing. */
  lemma {:induction false} OnePathOneTarget(kind: string, namespace: string, name: string, parameters: Parameters,
                                           kind': string, namespace': string, name': string, parameters': Parameters)
    requires Resolved(kind, namespace, name, parameters).Ok? && Resolved(kind', namespace', name', parameters').Ok?
    requires Resolved(kind, namespace, name, parameters).value.path
             == Resolved(kind', namespace', name', parameters').value.path
    ensures kind == kind' && name == name'
    ensures ConfinedTo(kind, namespace, parameters) == ConfinedTo(kind', namespace', parameters')
  {
    PathReadsBack(kind, namespace, name, parameters);
    PathReadsBack(kind', namespace', name', parameters');
    hide Resolved, ReadPath, ConfinedTo;
  }

  /** What is served: a kind in the table always, a log read when it names a pod, anything else never. */
  lemma {:induction false} ServedIff(kind: string, namespace: string, name: string, parameters: Parameters)
    ensures
      Resolved(kind, namespace, name, parameters).Ok? <==>
      Supports(kind) && (kind == LOGS ==> namespace != "" && name != "")
  {
    hide Kinds, Lookup, Slashed, PathSegments, LogSegments, QueryOf, LogQuery, CommandParts, LogParts, Join;
  }

  /** The query of a table read asks for the selectors and the limit that are set, and for nothing else. */
  lemma {:induction false} QueryIsExact(parameters: Parameters)
    ensures
      var query := QueryOf(parameters);
      && query.Keys <= {"labelSelector", "fieldSelector", "limit"}
      && Param(query, "labelSelector") == Param(parameters, "label_selector")
      && Param(query, "fieldSelector") == Param(parameters, "field_selector")
      && Param(query, "limit") == Param(parameters, "limit")
      && forall key :: key in query ==> query[key] != ""
  {
    QueryHolds(parameters);
    hide Param;
  }

  /** The query of a log read asks for the container, the tail and the previous run; never for all containers. */
  lemma {:induction false} LogQueryIsExact(parameters: Parameters)
    ensures
      var query := LogQuery(parameters);
      && query.Keys <= {"container", "tailLines", "previous"}
      && Param(query, "container") == Param(parameters, "container")
      && Param(query, "tailLines") == Param(parameters, "tail")
      && ("previous" in query <==> Param(parameters, "previous") == "true")
      && forall key :: key in query ==> query[key] != ""
  {
    assert |"container"| == 9 && |"tailLines"| == 9 && |"previous"| == 8 && "container"[0] != "tailLines"[0];
  }
}
