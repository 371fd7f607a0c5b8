/** From a spec to an evidence record: the reads issued, under whose identity, and what is recorded of them. */
module Collectors {
  import opened Prelude
  import opened Text
  import opened Escaping
  import opened PolicyKinds

  type Bytes = seq<byte>

  datatype Impersonation = Impersonation(username: string, groups: seq<string>)

  datatype Target = Target(kind: string, namespace: string, name: string)

  /** A read as it goes out, with the identity in its headers. */
  datatype Request = Request(path: string, query: map<string, string>, identity: Option<Impersonation>)

  /** What client-go can tell about a failed read. */
  datatype ReadError = ReadError(refused: bool, timedOut: bool, notFound: bool)

  datatype Reply = Reply(body: Bytes, error: Option<ReadError>)

  datatype PodContainers = PodContainers(initial: seq<string>, regular: seq<string>, ephemeral: seq<string>)

  datatype Status = Unspecified | OK | Failed | NotApplicable | Forbidden | TimedOut | Empty | Unavailable

  /** The cluster, as an oracle over the number of the read and the request, and the JSON library. */
  datatype Wire = Wire(
    answer: (nat, Request) -> Reply,
    decode: Bytes -> Option<PodContainers>,
    textObject: Bytes -> Bytes,
    detail: (ReadError, Bytes) -> string)

  /** What a record says was found. */
  datatype Finding = Finding(status: Status, detail: string, payload: Option<Bytes>)

  const UNREADABLE_POD := "could not read the pod to list its containers"
  const NO_CONTAINERS := "the pod reported no containers to read logs from"

  function NamespaceOf(target: Option<Target>): string {
    if target.Some? then target.value.namespace else ""
  }

  function NameOf(target: Option<Target>): string {
    if target.Some? then target.value.name else ""
  }

  function Message(refusal: Refusal): string {
    match refusal
    case UnknownKind(kind) => "unknown evidence kind \"" + kind + "\""
    case LogsNeedAPod => "a log read needs a namespace and a pod name"
  }

  function EvidenceId(kind: string, target: Option<Target>, cluster: string): string {
    var about := if target.Some? && target.value.kind != "" then target.value.kind else "cluster";
    var name := if NameOf(target) == "" then "_cluster/" + cluster else NameOf(target);
    if NamespaceOf(target) != "" then kind + ":" + about + "/" + NamespaceOf(target) + "/" + name
    else kind + ":" + about + "/" + name
  }

  function StatusFor(error: ReadError, named: bool): (status: Status)
    ensures status !in {OK, Unspecified, NotApplicable}
  {
    if error.refused then Forbidden
    else if error.timedOut then TimedOut
    else if error.notFound && named then Empty
    else if error.notFound then Unavailable
    else Failed
  }

  function Wrap(wire: Wire, body: Bytes, text: bool): Bytes {
    if text then wire.textObject(body) else body
  }

  // ---------------------------------------------------------------- identity

  /** Whose identity a read runs under, when it is not the agent's own. */
  function Identity(impersonate: bool, actor: Option<Impersonation>): Option<Impersonation> {
    if impersonate && actor.Some? && actor.value.username != "" then actor else None
  }

  function GroupParts(groups: seq<string>): seq<string> {
    if groups == [] then []
    else GroupParts(groups[..|groups| - 1]) + ["--as-group", groups[|groups| - 1]]
  }

  function IdentityParts(identity: Option<Impersonation>): seq<string> {
    if identity.None? then [] else ["--as", identity.value.username] + GroupParts(identity.value.groups)
  }

  function Suffix(identity: Option<Impersonation>): string {
    if identity.None? then "" else " " + Join(IdentityParts(identity))
  }

  function RequestFor(read: Read, identity: Option<Impersonation>): Request {
    Request(read.path, read.query, identity)
  }

  // ---------------------------------------------------------------- findings

  function FindingOf(wire: Wire, read: Read, reply: Reply): Finding {
    if reply.error.Some? then
      Finding(StatusFor(reply.error.value, read.named), wire.detail(reply.error.value, reply.body), None)
    else Finding(OK, "", Some(Wrap(wire, reply.body, read.text)))
  }

  function NonEmpty(names: seq<string>): seq<string> {
    if names == [] then []
    else
      var n := |names| - 1;
      NonEmpty(names[..n]) + if names[n] != "" then [names[n]] else []
  }

  function NamesIn(groups: seq<seq<string>>): seq<string> {
    if groups == [] then [] else NamesIn(groups[..|groups| - 1]) + NonEmpty(groups[|groups| - 1])
  }

  /** The containers of a pod: init, regular, ephemeral, each in the order of the spec. */
  function ContainerNames(wire: Wire, body: Bytes): Result<seq<string>, string> {
    var pod := wire.decode(body);
    if pod.None? then Err(UNREADABLE_POD)
    else
      var names := NamesIn([pod.value.initial, pod.value.regular, pod.value.ephemeral]);
      if names == [] then Err(NO_CONTAINERS) else Ok(names)
  }

  lemma {:induction false} PodsAreServed(namespace: string, name: string)
    ensures Resolved(PODS, namespace, name, map[]).Ok?
  {
    assert CoreKinds()[0].kind == PODS;
    assert |PODS| == 8 && PODS[4] != LOGS[4];
    assert Kinds()[0].kind == PODS;
  }

  /** The read of the pod itself. */
  function PodRead(namespace: string, name: string): Read {
    PodsAreServed(namespace, name);
    Resolved(PODS, namespace, name, map[]).value
  }

  predicate NamesAPod(namespace: string, name: string) {
    namespace != "" && name != ""
  }

  /** The log read of one container. */
  function ContainerRead(namespace: string, name: string, parameters: Parameters, container: string): Read
    requires NamesAPod(namespace, name)
  {
    ResolvedLogs(namespace, name, parameters["container" := container]).value
  }

  lemma {:induction false} LogsNameAPod(namespace: string, name: string, parameters: Parameters, read: Read)
    requires Resolved(LOGS, namespace, name, parameters) == Ok(read)
    ensures NamesAPod(namespace, name) && read.text
  {
  }

  /** A log read that names a pod is served, whichever container it names. */
  lemma {:induction false} ContainerReadIsServed(namespace: string, name: string, parameters: Parameters,
                                                 container: string)
    requires NamesAPod(namespace, name)
    ensures
      Resolved(LOGS, namespace, name, parameters["container" := container])
      == Ok(ContainerRead(namespace, name, parameters, container))
  {
  }

  function ContainerReads(namespace: string, name: string, parameters: Parameters, containers: seq<string>): seq<Read>
    requires NamesAPod(namespace, name)
  {
    seq(|containers|, k requires 0 <= k < |containers| => ContainerRead(namespace, name, parameters, containers[k]))
  }

  /** The plan holds the read of each container, in order. */
  predicate PlanFor(namespace: string, name: string, parameters: Parameters, containers: seq<string>, plan: seq<Read>)
    requires NamesAPod(namespace, name)
  {
    && |plan| == |containers|
    && forall k {:trigger ContainerRead(namespace, name, parameters, containers[k])} :: 0 <= k < |containers| ==>
         plan[k] == ContainerRead(namespace, name, parameters, containers[k])
  }

  lemma {:induction false} PlanLength(namespace: string, name: string, parameters: Parameters, containers: seq<string>,
                                      plan: seq<Read>)
    requires NamesAPod(namespace, name) && PlanFor(namespace, name, parameters, containers, plan)
    ensures |plan| == |containers|
  {
  }

  lemma {:induction false} PlanAt(namespace: string, name: string, parameters: Parameters, containers: seq<string>,
                                  plan: seq<Read>, k: nat)
    requires NamesAPod(namespace, name) && PlanFor(namespace, name, parameters, containers, plan) && k < |containers|
    ensures k < |plan| && plan[k] == ContainerRead(namespace, name, parameters, containers[k])
  {
  }

  lemma {:induction false} PlanIs(namespace: string, name: string, parameters: Parameters, containers: seq<string>)
    requires NamesAPod(namespace, name)
    ensures PlanFor(namespace, name, parameters, containers, ContainerReads(namespace, name, parameters, containers))
  {
    hide ContainerRead;
  }

  /** What the k-th of some reads was answered, when the first of them was read number n. */
  function ReplyTo(wire: Wire, identity: Option<Impersonation>, plan: seq<Read>, n: nat, k: nat): Reply
    requires k < |plan|
  {
    wire.answer(n + k, RequestFor(plan[k], identity))
  }

  /** How many of the reads succeed before one fails, trying them from the k-th on. */
  function Successes(wire: Wire, identity: Option<Impersonation>, plan: seq<Read>, n: nat, k: nat): (m: nat)
    requires k <= |plan|
    ensures k <= m <= |plan|
    ensures forall i :: k <= i < m ==> ReplyTo(wire, identity, plan, n, i).error.None?
    ensures m < |plan| ==> ReplyTo(wire, identity, plan, n, m).error.Some?
    decreases |plan| - k
  {
    if k == |plan| || ReplyTo(wire, identity, plan, n, k).error.Some? then k
    else Successes(wire, identity, plan, n, k + 1)
  }

  /** The bodies of the first m replies, one after the other. */
  function Bodies(wire: Wire, identity: Option<Impersonation>, plan: seq<Read>, n: nat, m: nat): Bytes
    requires m <= |plan|
  {
    if m == 0 then [] else Bodies(wire, identity, plan, n, m - 1) + ReplyTo(wire, identity, plan, n, m - 1).body
  }

  function Requests(plan: seq<Read>, identity: Option<Impersonation>): seq<Request> {
    seq(|plan|, k requires 0 <= k < |plan| => RequestFor(plan[k], identity))
  }

  lemma {:induction false} NothingRead(wire: Wire, identity: Option<Impersonation>, plan: seq<Read>, n: nat)
    ensures Requests(plan[..0], identity) == [] && Bodies(wire, identity, plan, n, 0) == []
  {
  }

  /** What one more container read adds. */
  lemma {:induction false} OneMoreRead(wire: Wire, identity: Option<Impersonation>, plan: seq<Read>, n: nat, k: nat)
    requires k < |plan|
    ensures ReplyTo(wire, identity, plan, n, k) == wire.answer(n + k, RequestFor(plan[k], identity))
    ensures Requests(plan[..k + 1], identity) == Requests(plan[..k], identity) + [RequestFor(plan[k], identity)]
    ensures |Requests(plan[..k], identity)| == k
    ensures Bodies(wire, identity, plan, n, k + 1)
            == Bodies(wire, identity, plan, n, k) + ReplyTo(wire, identity, plan, n, k).body
  {
  }

  /** What reading some containers one after the other comes to. */
  datatype Gathering = Gathering(failed: Option<Finding>, combined: Bytes, requests: seq<Request>)

  function Gather(wire: Wire, identity: Option<Impersonation>, plan: seq<Read>, n: nat): (g: Gathering)
    ensures g.failed.Some? ==> g.failed.value.payload == None && g.failed.value.status !in {OK, NotApplicable}
  {
    var m := Successes(wire, identity, plan, n, 0);
    var combined := Bodies(wire, identity, plan, n, m);
    if m < |plan| then
      Gathering(Some(FindingOf(wire, plan[m], ReplyTo(wire, identity, plan, n, m))), combined,
                Requests(plan[..m + 1], identity))
    else Gathering(None, combined, Requests(plan, identity))
  }

  /** Reading stops at the first failure, or at the end. */
  lemma {:induction false} GatherStops(wire: Wire, identity: Option<Impersonation>, plan: seq<Read>, n: nat, m: nat)
    requires m <= |plan|
    requires forall i :: 0 <= i < m ==> ReplyTo(wire, identity, plan, n, i).error.None?
    requires m < |plan| ==> ReplyTo(wire, identity, plan, n, m).error.Some?
    ensures
      Gather(wire, identity, plan, n) ==
      Gathering(if m < |plan| then Some(FindingOf(wire, plan[m], ReplyTo(wire, identity, plan, n, m))) else None,
                Bodies(wire, identity, plan, n, m),
                Requests(if m < |plan| then plan[..m + 1] else plan, identity))
  {
    assert Successes(wire, identity, plan, n, 0) == m;
    hide FindingOf, Bodies, Requests, ReplyTo;
  }

  /** An all-containers read, when the pod read is read number n. */
  function EveryContainer(wire: Wire, identity: Option<Impersonation>, namespace: string, name: string,
                          parameters: Parameters, n: nat): Finding
    requires NamesAPod(namespace, name)
  {
    var pod := PodRead(namespace, name);
    var reply := wire.answer(n, RequestFor(pod, identity));
    if reply.error.Some? then FindingOf(wire, pod, reply)
    else
      match ContainerNames(wire, reply.body)
      case Err(detail) => Finding(Failed, detail, None)
      case Ok(containers) =>
        var gathered := Gather(wire, identity, ContainerReads(namespace, name, parameters, containers), n + 1);
        if gathered.failed.Some? then gathered.failed.value
        else Finding(OK, "", Some(Wrap(wire, gathered.combined, true)))
  }

  /** The requests an all-containers read issues. */
  function EveryRequest(wire: Wire, identity: Option<Impersonation>, namespace: string, name: string,
                        parameters: Parameters, n: nat): seq<Request>
    requires NamesAPod(namespace, name)
  {
    var pod := PodRead(namespace, name);
    var reply := wire.answer(n, RequestFor(pod, identity));
    [RequestFor(pod, identity)] +
    if reply.error.Some? then []
    else
      match ContainerNames(wire, reply.body)
      case Err(_) => []
      case Ok(containers) =>
        Gather(wire, identity, ContainerReads(namespace, name, parameters, containers), n + 1).requests
  }

  // ------------------------------------------------------------------ objects

  /** A Go map held by its owner; whoever gets a reference could write to it. */
  class StringMap {
    var entries: map<string, string>

    constructor ()
      ensures entries == map[]
    {
      entries := map[];
    }
  }

  /** What a possibly nil map holds. */
  function Entries(parameters: StringMap?): Parameters
    reads parameters
  {
    if parameters == null then map[] else parameters.entries
  }

  method Copy(source: StringMap?) returns (copy: StringMap)
    ensures fresh(copy) && copy.entries == Entries(source)
  {
    copy := new StringMap();
    if source != null {
      var todo := source.entries.Keys;
      while todo != {}
        invariant todo <= source.entries.Keys
        invariant copy.entries == map key | key in source.entries && key !in todo :: source.entries[key]
        decreases |todo|
      {
        var key :| key in todo;
        copy.entries := copy.entries[key := source.entries[key]];
        todo := todo - {key};
      }
      assert copy.entries == source.entries;
    }
  }

  class EvidenceRecord {
    const id: string
    const kind: string
    const target: Option<Target>
    var command: Option<string>
    var status: Status
    var detail: string
    var payload: Option<Bytes>

    constructor (id: string, kind: string, target: Option<Target>)
      ensures this.id == id && this.kind == kind && this.target == target
      ensures command == None && Found() == Finding(Unspecified, "", None)
    {
      this.id, this.kind, this.target := id, kind, target;
      command, status, detail, payload := None, Unspecified, "", None;
    }

    function Found(): Finding
      reads this
    {
      Finding(status, detail, payload)
    }
  }

  // ---------------------------------------------------------------- collecting

  /** What collecting a spec finds, when its first read is read number n. */
  function Collected(wire: Wire, identity: Option<Impersonation>, kind: string, namespace: string, name: string,
                     parameters: Parameters, n: nat): Finding
  {
    match Resolved(kind, namespace, name, parameters)
    case Err(refusal) => Finding(NotApplicable, Message(refusal), None)
    case Ok(read) =>
      if AllContainers(kind, parameters) then EveryContainer(wire, identity, namespace, name, parameters, n)
      else FindingOf(wire, read, wire.answer(n, RequestFor(read, identity)))
  }

  /** The requests collecting a spec issues. */
  function Issues(wire: Wire, identity: Option<Impersonation>, kind: string, namespace: string, name: string,
                  parameters: Parameters, n: nat): seq<Request>
  {
    match Resolved(kind, namespace, name, parameters)
    case Err(_) => []
    case Ok(read) =>
      if AllContainers(kind, parameters) then EveryRequest(wire, identity, namespace, name, parameters, n)
      else [RequestFor(read, identity)]
  }

  lemma {:induction false} GatheredUnder(wire: Wire, identity: Option<Impersonation>, plan: seq<Read>, n: nat)
    ensures forall r :: r in Gather(wire, identity, plan, n).requests ==> r.identity == identity
  {
    hide Bodies, FindingOf;
  }

  /** Every request collecting issues is sent under the one identity. */
  lemma {:induction false} IssuedUnder(wire: Wire, identity: Option<Impersonation>, kind: string, namespace: string,
                                       name: string, parameters: Parameters, n: nat)
    ensures forall r :: r in Issues(wire, identity, kind, namespace, name, parameters, n) ==> r.identity == identity
  {
    hide Gather, Resolved, ContainerReads, PodRead, ContainerNames;
    match Resolved(kind, namespace, name, parameters)
    case Err(_) =>
    case Ok(read) =>
      if AllContainers(kind, parameters) {
        LogsNameAPod(namespace, name, parameters, read);
        match ContainerNames(wire, wire.answer(n, RequestFor(PodRead(namespace, name), identity)).body)
        case Err(_) =>
        case Ok(containers) =>
          GatheredUnder(wire, identity, ContainerReads(namespace, name, parameters, containers), n + 1);
      }
  }

  /** Whose name a read goes out in, and what its command then says. */
  lemma {:induction false} IdentityIs(impersonate: bool, actor: Option<Impersonation>)
    ensures
      var identity := Identity(impersonate, actor);
      && (identity.Some? <==> impersonate && actor.Some? && actor.value.username != "")
      && (identity.Some? ==> identity == actor)
      && Suffix(identity) ==
           if identity.None? then ""
           else " " + Join(["--as", identity.value.username] + GroupParts(identity.value.groups))
  {
  }

  lemma {:induction false} IssuedAs(wire: Wire, impersonate: bool, actor: Option<Impersonation>, kind: string,
                                    namespace: string, name: string, parameters: Parameters, n: nat)
    ensures
      var issues := Issues(wire, Identity(impersonate, actor), kind, namespace, name, parameters, n);
      forall k :: 0 <= k < |issues| ==>
        && (issues[k].identity.Some? <==> impersonate && actor.Some? && actor.value.username != "")
        && (issues[k].identity.Some? ==> issues[k].identity == actor)
  {
    hide Issues, Identity, Suffix;
    IssuedUnder(wire, Identity(impersonate, actor), kind, namespace, name, parameters, n);
    IdentityIs(impersonate, actor);
  }

  lemma {:induction false} RecordedAs(impersonate: bool, actor: Option<Impersonation>, resolved: Result<Read, Refusal>)
    ensures
      var command := RecordedCommand(Identity(impersonate, actor), resolved);
      && (command.Some? <==> resolved.Ok?)
      && (resolved.Ok? ==>
            command.value == resolved.value.command +
              if impersonate && actor.Some? && actor.value.username != ""
              then " " + Join(["--as", actor.value.username] + GroupParts(actor.value.groups))
              else "")
  {
    hide Identity, Suffix, Join, GroupParts;
    IdentityIs(impersonate, actor);
  }

  /** The groups follow in their order, each behind its own flag. */
  lemma {:induction false} GroupsFollow(groups: seq<string>, k: nat)
    requires k < |groups|
    ensures |GroupParts(groups)| == 2 * |groups|
    ensures GroupParts(groups)[2 * k] == "--as-group" && GroupParts(groups)[2 * k + 1] == groups[k]
  {
    var n := |groups| - 1;
    if n > 0 {
      GroupsFollow(groups[..n], if k < n then k else 0);
    }
  }

  function RecordedCommand(identity: Option<Impersonation>, resolved: Result<Read, Refusal>): Option<string> {
    if resolved.Ok? then Some(resolved.value.command + Suffix(identity)) else None
  }

  method ContainerNamesOf(wire: Wire, body: Bytes) returns (r: Result<seq<string>, string>)
    ensures r == ContainerNames(wire, body)
  {
    var pod := wire.decode(body);
    if pod.None? {
      return Err(UNREADABLE_POD);
    }
    var names: seq<string> := [];
    var groups := [pod.value.initial, pod.value.regular, pod.value.ephemeral];
    for g := 0 to |groups|
      invariant names == NamesIn(groups[..g])
    {
      assert groups[..g + 1][..g] == groups[..g];
      var group := groups[g];
      assert NamesIn(groups[..g]) + NonEmpty(group[..0]) == NamesIn(groups[..g]);
      for k := 0 to |group|
        invariant names == NamesIn(groups[..g]) + NonEmpty(group[..k])
      {
        assert group[..k + 1][..k] == group[..k];
        if group[k] != "" {
          names := names + [group[k]];
        }
      }
      assert group[..|group|] == group;
    }
    assert groups[..|groups|] == groups;
    r := if |names| == 0 then Err(NO_CONTAINERS) else Ok(names);
  }

  class Collector {
    const wire: Wire
    /** Whether the caller's identity is applied to every read. */
    const impersonate: bool
    const cluster: string
    /** Every request sent so far. */
    var issued: seq<Request>

    constructor (wire: Wire, cluster: string, impersonate: bool)
      ensures this.wire == wire && this.cluster == cluster && this.impersonate == impersonate && issued == []
    {
      this.wire, this.cluster, this.impersonate, issued := wire, cluster, impersonate, [];
    }

    /** One request, in the caller's name exactly when the agent impersonates and the caller has a name. */
    method Perform(read: Read, actor: Option<Impersonation>) returns (reply: Reply)
      modifies this`issued
      ensures issued == old(issued) + [RequestFor(read, Identity(impersonate, actor))]
      ensures
        var request := issued[|old(issued)|];
        && (request.identity.Some? <==> impersonate && actor.Some? && actor.value.username != "")
        && (request.identity.Some? ==> request.identity == actor)
        && request.path == read.path && request.query == read.query
      ensures reply == wire.answer(|old(issued)|, RequestFor(read, Identity(impersonate, actor)))
    {
      var request := RequestFor(read, Identity(impersonate, actor));
      reply := wire.answer(|issued|, request);
      issued := issued + [request];
    }

    method ImpersonationSuffix(actor: Option<Impersonation>) returns (suffix: string)
      ensures suffix == Suffix(Identity(impersonate, actor))
      ensures suffix ==
              if impersonate && actor.Some? && actor.value.username != ""
              then " " + Join(["--as", actor.value.username] + GroupParts(actor.value.groups))
              else ""
    {
      var identity := Identity(impersonate, actor);
      if identity.None? {
        return "";
      }
      var groups := identity.value.groups;
      var parts := ["--as", identity.value.username];
      for k := 0 to |groups|
        invariant parts == ["--as", identity.value.username] + GroupParts(groups[..k])
      {
        assert groups[..k + 1][..k] == groups[..k];
        parts := parts + ["--as-group", groups[k]];
      }
      assert groups[..|groups|] == groups;
      suffix := " " + Join(parts);
    }

    method CollectEveryContainer(namespace: string, name: string, parameters: StringMap?, actor: Option<Impersonation>,
                                 record: EvidenceRecord, read: Read)
      requires NamesAPod(namespace, name) && read.text
      requires record.detail == "" && record.payload == None
      modifies this`issued, record`status, record`detail, record`payload
      ensures
        record.Found() ==
        EveryContainer(wire, Identity(impersonate, actor), namespace, name, Entries(parameters), |old(issued)|)
      ensures
        issued
        == old(issued)
         + EveryRequest(wire, Identity(impersonate, actor), namespace, name, Entries(parameters), |old(issued)|)
    {
      hide Kinds, Lookup, PathEscape, Join, Slashed;
      PodsAreServed(namespace, name);
      hide Resolved, ResolvedLogs, RequestFor, ContainerReads, Requests, Gather, StatusFor, ContainerNames, Wrap,
        Identity;
      var podRead := Resolve(PODS, namespace, name, map[]);
      if podRead.Err? {
        assert false;
      }
      var podReply := Perform(podRead.value, actor);
      if podReply.error.Some? {
        record.status := StatusFor(podReply.error.value, podRead.value.named);
        record.detail := wire.detail(podReply.error.value, podReply.body);
        return;
      }
      var containers := ContainerNamesOf(wire, podReply.body);
      if containers.Err? {
        record.status, record.detail := Failed, containers.error;
        return;
      }
      ghost var plan := ContainerReads(namespace, name, Entries(parameters), containers.value);
      PlanIs(namespace, name, Entries(parameters), containers.value);
      var combined, failed := ReadContainers(namespace, name, parameters, actor, containers.value, plan);
      if failed.Some? {
        record.status, record.detail := failed.value.status, failed.value.detail;
        return;
      }
      record.payload := Some(Wrap(wire, combined, read.text));
      record.status := OK;
    }

    /** The log read of one container, with its name in a copy of the parameters. */
    method ReadContainer(namespace: string, name: string, base: StringMap, actor: Option<Impersonation>,
                         container: string)
      returns (read: Read, reply: Reply)
      requires NamesAPod(namespace, name)
      modifies this`issued
      ensures read == ContainerRead(namespace, name, base.entries, container)
      ensures reply == wire.answer(|old(issued)|, RequestFor(read, Identity(impersonate, actor)))
      ensures issued == old(issued) + [RequestFor(read, Identity(impersonate, actor))]
    {
      ContainerReadIsServed(namespace, name, base.entries, container);
      hide Resolved, ContainerRead, RequestFor, Identity, Kinds, ResolvedLogs;
      var own := Copy(base);
      own.entries := own.entries["container" := container];
      var resolved := Resolve(LOGS, namespace, name, own.entries);
      if resolved.Err? {
        assert false;
      }
      read := resolved.value;
      reply := Perform(read, actor);
    }

    /** One log read per container, until one fails. The caller's parameters are copied, never written. */
    method ReadContainers(namespace: string, name: string, parameters: StringMap?, actor: Option<Impersonation>,
                          containers: seq<string>, ghost plan: seq<Read>)
      returns (combined: Bytes, failed: Option<Finding>)
      requires NamesAPod(namespace, name)
      requires PlanFor(namespace, name, Entries(parameters), containers, plan)
      modifies this`issued
      ensures old(issued) <= issued
      ensures Gathering(failed, combined, issued[|old(issued)|..])
              == Gather(wire, Identity(impersonate, actor), plan, |old(issued)|)
    {
      ghost var identity, n, given := Identity(impersonate, actor), |issued|, Entries(parameters);
      hide *;
      PlanLength(namespace, name, given, containers, plan);
      NothingRead(wire, identity, plan, n);
      var base := Copy(parameters);
      combined := [];
      for k := 0 to |containers|
        invariant base.entries == given
        invariant combined == Bodies(wire, identity, plan, n, k)
        invariant issued == old(issued) + Requests(plan[..k], identity)
        invariant forall i :: 0 <= i < k ==> ReplyTo(wire, identity, plan, n, i).error.None?
      {
        PlanAt(namespace, name, given, containers, plan, k);
        OneMoreRead(wire, identity, plan, n, k);
        var read, reply := ReadContainer(namespace, name, base, actor, containers[k]);
        if reply.error.Some? {
          GatherStops(wire, identity, plan, n, k);
          failed := Some(FindingOf(wire, read, reply));
          return;
        }
        combined := combined + reply.body;
      }
      assert plan[..|plan|] == plan;
      GatherStops(wire, identity, plan, n, |plan|);
      failed := None;
    }

    /** Collect: one fresh record, whatever happens; the caller's parameters are left as they were. */
    method Collect(kind: string, target: Option<Target>, parameters: StringMap?, actor: Option<Impersonation>)
      returns (record: EvidenceRecord)
      modifies this`issued
      ensures fresh(record)
      ensures record.id == EvidenceId(kind, target, cluster) && record.kind == kind && record.target == target
      ensures record.command ==
              RecordedCommand(Identity(impersonate, actor),
                              Resolved(kind, NamespaceOf(target), NameOf(target), Entries(parameters)))
      ensures record.Found() ==
              Collected(wire, Identity(impersonate, actor), kind, NamespaceOf(target), NameOf(target),
                        Entries(parameters), |old(issued)|)
      ensures issued ==
              old(issued) + Issues(wire, Identity(impersonate, actor), kind, NamespaceOf(target), NameOf(target),
                                   Entries(parameters), |old(issued)|)
      ensures forall k :: |old(issued)| <= k < |issued| ==>
                && (issued[k].identity.Some? <==> impersonate && actor.Some? && actor.value.username != "")
                && (issued[k].identity.Some? ==> issued[k].identity == actor)
      ensures
        var resolved := Resolved(kind, NamespaceOf(target), NameOf(target), Entries(parameters));
        && (record.command.Some? <==> resolved.Ok?)
        && (resolved.Ok? ==>
              record.command.value == resolved.value.command +
                if impersonate && actor.Some? && actor.value.username != ""
                then " " + Join(["--as", actor.value.username] + GroupParts(actor.value.groups))
                else "")
      ensures Entries(parameters) == old(Entries(parameters))
    {
      hide Resolved, Kinds, EveryContainer, EveryRequest, Identity, RequestFor, Suffix, EvidenceId, StatusFor, Message,
        Wrap, GroupParts, Join, Lookup;
      var namespace, name := NamespaceOf(target), NameOf(target);
      IssuedAs(wire, impersonate, actor, kind, namespace, name, Entries(parameters), |issued|);
      RecordedAs(impersonate, actor, Resolved(kind, namespace, name, Entries(parameters)));
      record := new EvidenceRecord(EvidenceId(kind, target, cluster), kind, target);
      var resolved := Resolve(kind, namespace, name, Entries(parameters));
      if resolved.Err? {
        record.status, record.detail := NotApplicable, Message(resolved.error);
        return;
      }
      var read := resolved.value;
      var suffix := ImpersonationSuffix(actor);
      record.command := Some(read.command + suffix);
      if AllContainers(kind, Entries(parameters)) {
        LogsNameAPod(namespace, name, Entries(parameters), read);
        CollectEveryContainer(namespace, name, parameters, actor, record, read);
        return;
      }
      var reply := Perform(read, actor);
      if reply.error.Some? {
        record.status := StatusFor(reply.error.value, read.named);
        record.detail := wire.detail(reply.error.value, reply.body);
        return;
      }
      record.payload := Some(Wrap(wire, reply.body, read.text));
      record.status := OK;
    }
  }
}
