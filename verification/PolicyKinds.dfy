/** Which reads the agent serves, and the API path and kubectl command each one becomes. */
module PolicyKinds {
  import opened Prelude
  import opened Text
  import opened Escaping

  /** "api/v1", or "apis/<name>/<version>". */
  datatype ApiGroup = Core | Extension(name: string, version: string) {
    function Path(): string {
      if Core? then "api/v1" else "apis/" + name + "/" + version
    }
  }

  datatype Resource = Resource(group: ApiGroup, plural: string, kubectl: string, clusterScoped: bool, verb: string)

  datatype Entry = Entry(kind: string, resource: Resource)

  const LOGS := "k8s.logs"
  const PODS := "k8s.pods"
  const APPS := Extension("apps", "v1")
  const BATCH := Extension("batch", "v1")
  const DISCOVERY := Extension("discovery.k8s.io", "v1")
  const NETWORKING := Extension("networking.k8s.io", "v1")
  const STORAGE := Extension("storage.k8s.io", "v1")
  const METRICS := Extension("metrics.k8s.io", "v1beta1")

  function CoreKinds(): seq<Entry> {
    [ Entry("k8s.pods", Resource(Core, "pods", "pods", false, "")),
      Entry("k8s.events", Resource(Core, "events", "events", false, "")),
      Entry("k8s.services", Resource(Core, "services", "services", false, "")),
      Entry("k8s.endpoints", Resource(Core, "endpoints", "endpoints", false, "")),
      Entry("k8s.configmaps", Resource(Core, "configmaps", "configmaps", false, "")),
      Entry("k8s.pvc", Resource(Core, "persistentvolumeclaims", "pvc", false, "")),
      Entry("k8s.namespaces", Resource(Core, "namespaces", "namespaces", true, "")),
      Entry("k8s.nodes", Resource(Core, "nodes", "nodes", true, "")),
      Entry("k8s.pv", Resource(Core, "persistentvolumes", "pv", true, "")),
      Entry("k8s.serviceaccounts", Resource(Core, "serviceaccounts", "serviceaccount", false, "")),
      Entry("k8s.resourcequotas", Resource(Core, "resourcequotas", "resourcequotas", false, "")),
      Entry("k8s.limitranges", Resource(Core, "limitranges", "limitranges", false, "")) ]
  }

  function AppsKinds(): seq<Entry> {
    [ Entry("k8s.deployments", Resource(APPS, "deployments", "deployments", false, "")),
      Entry("k8s.statefulsets", Resource(APPS, "statefulsets", "statefulsets", false, "")),
      Entry("k8s.daemonsets", Resource(APPS, "daemonsets", "daemonsets", false, "")) ]
  }

  function BatchKinds(): seq<Entry> {
    [ Entry("k8s.jobs", Resource(BATCH, "jobs", "jobs", false, "")),
      Entry("k8s.cronjobs", Resource(BATCH, "cronjobs", "cronjobs", false, "")) ]
  }

  function NetworkingKinds(): seq<Entry> {
    [ Entry("k8s.ingress", Resource(NETWORKING, "ingresses", "ingress", false, "")),
      Entry("k8s.networkpolicies", Resource(NETWORKING, "networkpolicies", "networkpolicies", false, "")) ]
  }

  function DiscoveryKinds(): seq<Entry> {
    [ Entry("k8s.endpointslices", Resource(DISCOVERY, "endpointslices", "endpointslices", false, "")) ]
  }

  function StorageKinds(): seq<Entry> {
    [ Entry("k8s.storageclasses", Resource(STORAGE, "storageclasses", "storageclasses", true, "")),
      Entry("k8s.volumeattachments", Resource(STORAGE, "volumeattachments", "volumeattachments", true, "")) ]
  }

  function MetricsKinds(): seq<Entry> {
    [ Entry("k8s.metrics.nodes", Resource(METRICS, "nodes", "nodes", true, "top")),
      Entry("k8s.metrics.pods", Resource(METRICS, "pods", "pods", false, "top")) ]
  }

  /** Every kind the agent serves, by API group. */
  function Kinds(): seq<Entry> {
    CoreKinds()
      + (AppsKinds() + (BatchKinds() + (NetworkingKinds() + (DiscoveryKinds() + (StorageKinds() + MetricsKinds())))))
  }

  function Lookup(entries: seq<Entry>, kind: string): Option<Resource> {
    if entries == [] then None
    else if entries[0].kind == kind then Some(entries[0].resource)
    else Lookup(entries[1..], kind)
  }

  predicate Supports(kind: string) {
    kind == LOGS || Lookup(Kinds(), kind).Some?
  }

  type Parameters = map<string, string>

  datatype Read = Read(path: string, query: map<string, string>, command: string, text: bool, named: bool)

  datatype Refusal = UnknownKind(kind: string) | LogsNeedAPod

  /** What a Go map gives for a key, present or not. */
  function Param(parameters: Parameters, key: string): string {
    if key in parameters then parameters[key] else ""
  }

  predicate AllContainers(kind: string, parameters: Parameters) {
    kind == LOGS && Param(parameters, "all_containers") == "true"
  }

  // ------------------------------------------------------------------- paths

  /** Each segment behind a slash. */
  function Slashed(segments: seq<string>): string {
    if segments == [] then "" else "/" + segments[0] + Slashed(segments[1..])
  }

  function GroupSegments(group: ApiGroup): seq<string> {
    if group.Core? then ["api", "v1"] else ["apis", group.name, group.version]
  }

  function PathSegments(entry: Resource, namespace: string, name: string): seq<string> {
    GroupSegments(entry.group)
    + (if namespace != "" then ["namespaces", PathEscape(namespace)] else [])
    + [entry.plural]
    + if name != "" then [PathEscape(name)] else []
  }

  function LogSegments(namespace: string, name: string): seq<string> {
    ["api", "v1", "namespaces", PathEscape(namespace), "pods", PathEscape(name), "log"]
  }

  /** The namespace a read is confined to; empty when it is not. */
  function EffectiveNamespace(entry: Resource, namespace: string, parameters: Parameters): string {
    if entry.clusterScoped || Param(parameters, "all_namespaces") == "true" then "" else namespace
  }

  // ---------------------------------------------------------------- commands

  function With(query: map<string, string>, key: string, value: string): map<string, string> {
    if value == "" then query else query[key := value]
  }

  function QueryOf(parameters: Parameters): map<string, string> {
    With(With(With(map[], "labelSelector", Param(parameters, "label_selector")),
              "fieldSelector", Param(parameters, "field_selector")),
         "limit", Param(parameters, "limit"))
  }

  function Verb(entry: Resource): string {
    if entry.verb == "" then "get" else entry.verb
  }

  function Given(condition: bool, parts: seq<string>): seq<string> {
    if condition then parts else []
  }

  /** A flag with its value, as two parts, if there is a value. */
  function Spaced(flag: string, value: string): seq<string> {
    if value == "" then [] else [flag, value]
  }

  function ScopeParts(entry: Resource, namespace: string, parameters: Parameters): seq<string> {
    if EffectiveNamespace(entry, namespace, parameters) != "" then ["-n " + namespace]
    else if !entry.clusterScoped && Param(parameters, "all_namespaces") == "true" then ["-A"]
    else []
  }

  function CommandParts(entry: Resource, namespace: string, name: string, parameters: Parameters): seq<string> {
    ["kubectl", Verb(entry), entry.kubectl]
    + Given(name != "", [name])
    + ScopeParts(entry, namespace, parameters)
    + Spaced("-l", Param(parameters, "label_selector"))
    + Spaced("--field-selector", Param(parameters, "field_selector"))
    + Given(Verb(entry) == "get", ["-o", "json"])
  }

  function LogQuery(parameters: Parameters): map<string, string> {
    With(With(With(map[], "container", Param(parameters, "container")),
              "tailLines", Param(parameters, "tail")),
         "previous", if Param(parameters, "previous") == "true" then "true" else "")
  }

  function LogExtras(parameters: Parameters): seq<string> {
    Given(Param(parameters, "container") != "", ["-c " + Param(parameters, "container")])
    + Given(Param(parameters, "tail") != "", ["--tail=" + Param(parameters, "tail")])
    + Given(Param(parameters, "previous") == "true", ["--previous"])
    + Given(Param(parameters, "all_containers") == "true", ["--all-containers=true"])
  }

  function LogParts(namespace: string, name: string, parameters: Parameters): seq<string> {
    ["kubectl", "logs", name, "-n", namespace] + LogExtras(parameters)
  }

  // -------------------------------------------------------------- resolution

  function ResolvedLogs(namespace: string, name: string, parameters: Parameters): Result<Read, Refusal> {
    if name == "" || namespace == "" then Err(LogsNeedAPod)
    else
      Ok(Read(Slashed(LogSegments(namespace, name)), LogQuery(parameters),
              Join(LogParts(namespace, name, parameters)), true, true))
  }

  function Resolved(kind: string, namespace: string, name: string, parameters: Parameters): Result<Read, Refusal> {
    if kind == LOGS then ResolvedLogs(namespace, name, parameters)
    else
      var entry := Lookup(Kinds(), kind);
      if entry.None? then Err(UnknownKind(kind))
      else
        Ok(Read(
          Slashed(PathSegments(entry.value, EffectiveNamespace(entry.value, namespace, parameters), name)),
          QueryOf(parameters),
          Join(CommandParts(entry.value, namespace, name, parameters)),
          false,
          name != ""))
  }

  lemma {:induction false} SlashedAppend(segments: seq<string>, more: seq<string>)
    ensures Slashed(segments + more) == Slashed(segments) + Slashed(more)
  {
    if segments == [] {
      assert segments + more == more;
    } else {
      assert (segments + more)[1..] == segments[1..] + more;
      SlashedAppend(segments[1..], more);
    }
  }

  lemma {:induction false} GrowsByOne(segments: seq<string>, segment: string)
    ensures Slashed(segments + [segment]) == Slashed(segments) + "/" + segment
  {
    SlashedAppend(segments, [segment]);
    assert Slashed([segment]) == "/" + segment + Slashed([]);
  }

  lemma {:induction false} GroupPathIs(group: ApiGroup)
    ensures Slashed(GroupSegments(group)) == "/" + group.Path()
  {
    if group.Core? {
      assert Slashed(["api", "v1"]) == "/" + "api" + ("/" + "v1" + "");
    } else {
      var g := ["apis", group.name, group.version];
      assert g[1..] == [group.name, group.version] && g[1..][1..] == [group.version];
      assert Slashed(g[1..][1..]) == "/" + group.version;
      assert Slashed(g) == "/" + "apis" + ("/" + group.name + ("/" + group.version));
    }
  }

  /** How Resolve names the scope of a read in its command. */
  function ScopeName(entry: Resource, namespace: string, parameters: Parameters): string {
    if EffectiveNamespace(entry, namespace, parameters) != "" then "-n " + namespace
    else if !entry.clusterScoped && Param(parameters, "all_namespaces") == "true" then "-A"
    else "cluster"
  }

  lemma {:induction false} ScopeNameIs(entry: Resource, namespace: string, parameters: Parameters)
    ensures
      var scope := ScopeName(entry, namespace, parameters);
      ScopeParts(entry, namespace, parameters) == if scope != "cluster" then [scope] else []
  {
    assert "cluster"[0] == 'c' && "-A"[0] == '-' && ("-n " + namespace)[0] == '-';
  }

  lemma {:induction false} QueryHolds(parameters: Parameters)
    ensures Param(QueryOf(parameters), "labelSelector") == Param(parameters, "label_selector")
    ensures Param(QueryOf(parameters), "fieldSelector") == Param(parameters, "field_selector")
    ensures Param(QueryOf(parameters), "limit") == Param(parameters, "limit")
  {
    assert "labelSelector"[0] != "fieldSelector"[0] && |"labelSelector"| == 13 && |"fieldSelector"| == 13
           && |"limit"| == 5;
  }

  function PartsOf(entry: Resource, name: string, scope: string, query: map<string, string>): seq<string> {
    ["kubectl", Verb(entry), entry.kubectl]
    + Given(name != "", [name])
    + Given(scope != "cluster", [scope])
    + Spaced("-l", Param(query, "labelSelector"))
    + Spaced("--field-selector", Param(query, "fieldSelector"))
    + Given(Verb(entry) == "get", ["-o", "json"])
  }

  method Command(entry: Resource, name: string, scope: string, query: map<string, string>) returns (text: string)
    ensures text == Join(PartsOf(entry, name, scope, query))
  {
    hide Join;
    var verb := entry.verb;
    if verb == "" {
      verb := "get";
    }
    var parts := ["kubectl", verb, entry.kubectl];
    if name != "" {
      parts := parts + [name];
    }
    ghost var named := ["kubectl", verb, entry.kubectl] + Given(name != "", [name]);
    assert parts == named;
    if scope != "cluster" {
      parts := parts + [scope];
    }
    ghost var scoped := named + Given(scope != "cluster", [scope]);
    assert parts == scoped;
    if Param(query, "labelSelector") != "" {
      parts := parts + ["-l", Param(query, "labelSelector")];
    }
    ghost var labelled := scoped + Spaced("-l", Param(query, "labelSelector"));
    assert parts == labelled;
    if Param(query, "fieldSelector") != "" {
      parts := parts + ["--field-selector", Param(query, "fieldSelector")];
    }
    ghost var filtered := labelled + Spaced("--field-selector", Param(query, "fieldSelector"));
    assert parts == filtered;
    if verb == "get" {
      parts := parts + ["-o", "json"];
    }
    assert parts == filtered + Given(verb == "get", ["-o", "json"]);
    text := Join(parts);
  }

  /** What a log read asks for, as query parameters and as command flags. */
  method LogOptions(parameters: Parameters) returns (query: map<string, string>, extra: seq<string>)
    ensures query == LogQuery(parameters)
    ensures extra == LogExtras(parameters)
  {
    hide Param;
    query, extra := map[], [];
    if Param(parameters, "container") != "" {
      query := query["container" := Param(parameters, "container")];
      extra := extra + ["-c " + Param(parameters, "container")];
    }
    ghost var contained := Given(Param(parameters, "container") != "", ["-c " + Param(parameters, "container")]);
    assert extra == contained;
    if Param(parameters, "tail") != "" {
      query := query["tailLines" := Param(parameters, "tail")];
      extra := extra + ["--tail=" + Param(parameters, "tail")];
    }
    ghost var tailed := contained + Given(Param(parameters, "tail") != "", ["--tail=" + Param(parameters, "tail")]);
    assert extra == tailed;
    if Param(parameters, "previous") == "true" {
      query := query["previous" := "true"];
      extra := extra + ["--previous"];
    }
    ghost var earlier := tailed + Given(Param(parameters, "previous") == "true", ["--previous"]);
    assert extra == earlier;
    if Param(parameters, "all_containers") == "true" {
      extra := extra + ["--all-containers=true"];
    }
    assert extra == earlier + Given(Param(parameters, "all_containers") == "true", ["--all-containers=true"]);
  }

  method ResolveLogs(namespace: string, name: string, parameters: Parameters) returns (r: Result<Read, Refusal>)
    ensures r == ResolvedLogs(namespace, name, parameters)
  {
    hide PathEscape, Join, Slashed, LogExtras, LogQuery;
    if name == "" || namespace == "" {
      return Err(LogsNeedAPod);
    }
    var path := "/api/v1/namespaces/" + PathEscape(namespace) + "/pods/" + PathEscape(name) + "/log";
    LogPathIs(PathEscape(namespace), PathEscape(name));
    var query, extra := LogOptions(parameters);
    var suffix := "";
    if |extra| > 0 {
      suffix := " " + Join(extra);
    }
    LogCommandIs(namespace, name, extra);
    r := Ok(Read(path, query, "kubectl logs " + name + " -n " + namespace + suffix, true, true));
  }

  lemma {:induction false} SlashedSeven(a: string, b: string, c: string, d: string, e: string, f: string, g: string)
    ensures Slashed([a, b, c, d, e, f, g])
            == "/" + a + "/" + b + "/" + c + "/" + d + "/" + e + "/" + f + "/" + g
  {
    GrowsByOne([], a);
    GrowsByOne([a], b);
    GrowsByOne([a, b], c);
    GrowsByOne([a, b, c], d);
    GrowsByOne([a, b, c, d], e);
    GrowsByOne([a, b, c, d, e], f);
    GrowsByOne([a, b, c, d, e, f], g);
    assert Slashed([]) == "";
    hide Slashed;
    assert [] + [a] == [a] && [a] + [b] == [a, b] && [a, b] + [c] == [a, b, c] && [a, b, c] + [d] == [a, b, c, d];
    assert [a, b, c, d] + [e] == [a, b, c, d, e] && [a, b, c, d, e] + [f] == [a, b, c, d, e, f];
    assert [a, b, c, d, e, f] + [g] == [a, b, c, d, e, f, g];
    assert "" + "/" + a == "/" + a;
  }

  lemma {:induction false} Assoc(x: string, a: string, b: string, c: string)
    ensures x + a + b + c == x + (a + b + c)
  {
  }

  lemma {:induction false} LogPathIs(namespace: string, name: string)
    ensures Slashed(["api", "v1", "namespaces", namespace, "pods", name, "log"])
            == "/api/v1/namespaces/" + namespace + "/pods/" + name + "/log"
  {
    SlashedSeven("api", "v1", "namespaces", namespace, "pods", name, "log");
    hide Slashed;
    assert "/" + "api" + "/" + "v1" + "/" + "namespaces" + "/" == "/api/v1/namespaces/";
    var front := "/api/v1/namespaces/" + namespace;
    Assoc(front, "/", "pods", "/");
    assert "/" + "pods" + "/" == "/pods/";
    var middle := front + "/pods/" + name;
    Assoc(middle, "/", "log", "");
    assert "/" + "log" + "" == "/log";
  }

  lemma {:induction false} LogCommandIs(namespace: string, name: string, extra: seq<string>)
    ensures
      Join(["kubectl", "logs", name, "-n", namespace] + extra) ==
      "kubectl logs " + name + " -n " + namespace + if extra != [] then " " + Join(extra) else ""
  {
    JoinAppend(["kubectl", "logs", name, "-n", namespace], extra);
    JoinFive("kubectl", "logs", name, "-n", namespace);
    hide Join;
    assert "kubectl" + " " + "logs" + " " == "kubectl logs ";
    var front := "kubectl logs " + name;
    Assoc(front, " ", "-n", " ");
    assert " " + "-n" + " " == " -n ";
  }

  lemma {:induction false} JoinFive(a: string, b: string, c: string, d: string, e: string)
    ensures Join([a, b, c, d, e]) == a + " " + b + " " + c + " " + d + " " + e
  {
    JoinAppend([a], [b]);
    JoinAppend([a, b], [c]);
    JoinAppend([a, b, c], [d]);
    JoinAppend([a, b, c, d], [e]);
    assert Join([a]) == a && Join([b]) == b && Join([c]) == c && Join([d]) == d && Join([e]) == e;
    hide Join;
    assert [a] + [b] == [a, b] && [a, b] + [c] == [a, b, c] && [a, b, c] + [d] == [a, b, c, d]
           && [a, b, c, d] + [e] == [a, b, c, d, e];
    assert a + (" " + b) == a + " " + b;
    assert a + " " + b + (" " + c) == a + " " + b + " " + c;
    assert a + " " + b + " " + c + (" " + d) == a + " " + b + " " + c + " " + d;
    assert a + " " + b + " " + c + " " + d + (" " + e) == a + " " + b + " " + c + " " + d + " " + e;
  }

  /** The path and scope of Resolve, grown segment by segment. */
  method PathAndScope(entry: Resource, namespace: string, name: string, parameters: Parameters)
    returns (path: string, scope: string)
    ensures path == Slashed(PathSegments(entry, EffectiveNamespace(entry, namespace, parameters), name))
    ensures scope == ScopeName(entry, namespace, parameters)
  {
    hide PathEscape, Slashed, Param;
    var allNamespaces := Param(parameters, "all_namespaces") == "true";
    path := "/" + entry.group.Path();
    ghost var segments := GroupSegments(entry.group);
    GroupPathIs(entry.group);
    hide GroupSegments;
    scope := "cluster";
    if !entry.clusterScoped && !allNamespaces && namespace != "" {
      path := path + "/namespaces/" + PathEscape(namespace);
      GrowsByOne(segments, "namespaces");
      GrowsByOne(segments + ["namespaces"], PathEscape(namespace));
      assert "/" + "namespaces" + "/" == "/namespaces/";
      Assoc(Slashed(segments), "/", "namespaces", "/");
      segments := segments + ["namespaces"] + [PathEscape(namespace)];
      scope := "-n " + namespace;
    } else if !entry.clusterScoped && allNamespaces {
      scope := "-A";
    }
    path := path + "/" + entry.plural;
    GrowsByOne(segments, entry.plural);
    segments := segments + [entry.plural];
    if name != "" {
      path := path + "/" + PathEscape(name);
      GrowsByOne(segments, PathEscape(name));
      segments := segments + [PathEscape(name)];
    }
    assert path == Slashed(segments);
    assert segments == PathSegments(entry, EffectiveNamespace(entry, namespace, parameters), name);
  }

  method QueryFrom(parameters: Parameters) returns (query: map<string, string>)
    ensures query == QueryOf(parameters)
  {
    hide Param;
    query := map[];
    if Param(parameters, "label_selector") != "" {
      query := query["labelSelector" := Param(parameters, "label_selector")];
    }
    if Param(parameters, "field_selector") != "" {
      query := query["fieldSelector" := Param(parameters, "field_selector")];
    }
    if Param(parameters, "limit") != "" {
      query := query["limit" := Param(parameters, "limit")];
    }
  }

  method Resolve(kind: string, namespace: string, name: string, parameters: Parameters)
    returns (r: Result<Read, Refusal>)
    ensures r == Resolved(kind, namespace, name, parameters)
  {
    hide Kinds, Lookup, PathEscape, Join, Slashed, PathSegments, ResolvedLogs, Param, QueryOf, ScopeName, ScopeParts,
      Spaced;
    if kind == LOGS {
      r := ResolveLogs(namespace, name, parameters);
      return;
    }
    var found := Lookup(Kinds(), kind);
    if found.None? {
      return Err(UnknownKind(kind));
    }
    var entry := found.value;
    var path, scope := PathAndScope(entry, namespace, name, parameters);
    var query := QueryFrom(parameters);
    ScopeNameIs(entry, namespace, parameters);
    QueryHolds(parameters);
    assert PartsOf(entry, name, scope, query) == CommandParts(entry, namespace, name, parameters);
    var text := Command(entry, name, scope, query);
    r := Ok(Read(path, query, text, false, name != ""));
  }
}
