/** What collecting guarantees: when a record is good, and what was read to make it. */
module CollectorProofs {
  import opened Prelude
  import opened PolicyKinds
  import opened Collectors
  import PolicyProofs

  // ------------------------------------------------------------ all containers

  /** A log read that asks for every container of its pod. */
  predicate EveryContainerAsked(kind: string, parameters: Parameters) {
    kind == "k8s.logs" && "all_containers" in parameters && parameters["all_containers"] == "true"
  }

  lemma {:induction false} AllContainersIff(kind: string, parameters: Parameters)
    ensures AllContainers(kind, parameters) <==> EveryContainerAsked(kind, parameters)
  {
  }

  /** The first m reads of a plan succeed. */
  predicate AllAnswered(wire: Wire, identity: Option<Impersonation>, plan: seq<Read>, n: nat, m: nat)
    requires m <= |plan|
  {
    forall k :: 0 <= k < m ==> ReplyTo(wire, identity, plan, n, k).error.None?
  }

  /** The pod, the list of its containers and every container could be read. */
  predicate EverythingRead(wire: Wire, identity: Option<Impersonation>, namespace: string, name: string,
                           parameters: Parameters, n: nat)
    requires NamesAPod(namespace, name)
  {
    var reply := wire.answer(n, RequestFor(PodRead(namespace, name), identity));
    var containers := ContainerNames(wire, reply.body);
    && reply.error.None?
    && containers.Ok?
    && var plan := ContainerReads(namespace, name, parameters, containers.value);
       AllAnswered(wire, identity, plan, n + 1, |plan|)
  }

  /** The bodies of all the reads of a plan, one after the other. */
  function Combined(wire: Wire, identity: Option<Impersonation>, namespace: string, name: string,
                    parameters: Parameters, n: nat): Bytes
    requires EverythingReadable(wire, identity, namespace, name, n)
  {
    var reply := wire.answer(n, RequestFor(PodRead(namespace, name), identity));
    var plan := ContainerReads(namespace, name, parameters, ContainerNames(wire, reply.body).value);
    Bodies(wire, identity, plan, n + 1, |plan|)
  }

  predicate EverythingReadable(wire: Wire, identity: Option<Impersonation>, namespace: string, name: string, n: nat) {
    && NamesAPod(namespace, name)
    && var reply := wire.answer(n, RequestFor(PodRead(namespace, name), identity));
       reply.error.None? && ContainerNames(wire, reply.body).Ok?
  }

  /** The first reply that failed, and what it is recorded as. */
  predicate IsFirstFailure(wire: Wire, identity: Option<Impersonation>, namespace: string, name: string,
                           parameters: Parameters, n: nat, f: Finding)
    requires NamesAPod(namespace, name)
  {
    var pod := PodRead(namespace, name);
    var reply := wire.answer(n, RequestFor(pod, identity));
    if reply.error.Some? then f == FindingOf(wire, pod, reply)
    else
      match ContainerNames(wire, reply.body)
      case Err(detail) => f == Finding(Failed, detail, None)
      case Ok(containers) =>
        var plan := ContainerReads(namespace, name, parameters, containers);
        exists m: nat :: m < |plan| &&
          ReplyTo(wire, identity, plan, n + 1, m).error.Some? &&
          AllAnswered(wire, identity, plan, n + 1, m) &&
          f == FindingOf(wire, plan[m], ReplyTo(wire, identity, plan, n + 1, m))
  }

  /**
   An all-containers record is good exactly when the pod, the list of its
   containers and every container were read, and then it wraps their logs in
   order; otherwise it has no payload and says why the first failing read failed.
   */
  lemma {:induction false} GoodIffEverythingRead(wire: Wire, identity: Option<Impersonation>, namespace: string,
                                                 name: string, parameters: Parameters, n: nat)
    requires EveryContainerAsked(LOGS, parameters) && Resolved(LOGS, namespace, name, parameters).Ok?
    ensures NamesAPod(namespace, name)
    ensures
      var f := Collected(wire, identity, LOGS, namespace, name, parameters, n);
      && (f.status == OK <==> EverythingRead(wire, identity, namespace, name, parameters, n))
      && (f.status == OK ==>
            f.detail == "" &&
            f.payload == Some(wire.textObject(Combined(wire, identity, namespace, name, parameters, n))))
      && (f.status != OK ==>
            f.payload == None && IsFirstFailure(wire, identity, namespace, name, parameters, n, f))
  {
    AllContainersIff(LOGS, parameters);
    LogsNameAPod(namespace, name, parameters, Resolved(LOGS, namespace, name, parameters).value);
    CollectedIsEveryContainer(wire, identity, namespace, name, parameters, n);
    EveryContainerIs(wire, identity, namespace, name, parameters, n);
    hide Resolved, Collected, EveryContainer, EverythingRead, IsFirstFailure, Combined, PodRead, ContainerNames,
      ContainerReads, FindingOf;
  }

  lemma {:induction false} CollectedIsEveryContainer(wire: Wire, identity: Option<Impersonation>, namespace: string,
                                                     name: string, parameters: Parameters, n: nat)
    requires NamesAPod(namespace, name) && AllContainers(LOGS, parameters)
    ensures Collected(wire, identity, LOGS, namespace, name, parameters, n)
            == EveryContainer(wire, identity, namespace, name, parameters, n)
    ensures Issues(wire, identity, LOGS, namespace, name, parameters, n)
            == EveryRequest(wire, identity, namespace, name, parameters, n)
  {
    hide EveryContainer, EveryRequest, Kinds, Lookup;
  }

  lemma {:induction false} EveryContainerIs(wire: Wire, identity: Option<Impersonation>, namespace: string,
                                            name: string, parameters: Parameters, n: nat)
    requires NamesAPod(namespace, name)
    ensures
      var f := EveryContainer(wire, identity, namespace, name, parameters, n);
      && (f.status == OK <==> EverythingRead(wire, identity, namespace, name, parameters, n))
      && (f.status == OK ==>
            f.detail == "" &&
            f.payload == Some(wire.textObject(Combined(wire, identity, namespace, name, parameters, n))))
      && (f.status != OK ==>
            f.payload == None && IsFirstFailure(wire, identity, namespace, name, parameters, n, f))
  {
    hide PodRead, ContainerNames, ContainerReads;
  }

  // -------------------------------------------------------------------- order

  lemma {:induction false} NonEmptyIs(names: seq<string>, name: string)
    ensures name in NonEmpty(names) <==> name in names && name != ""
  {
    if names != [] {
      var n := |names| - 1;
      NonEmptyIs(names[..n], name);
      assert names == names[..n] + [names[n]];
    }
  }

  /** The containers read are the named ones: init, then regular, then ephemeral. */
  lemma {:induction false} ContainersInOrder(wire: Wire, body: Bytes)
    requires ContainerNames(wire, body).Ok?
    ensures wire.decode(body).Some?
    ensures
      var pod := wire.decode(body).value;
      && ContainerNames(wire, body).value
         == NonEmpty(pod.initial) + NonEmpty(pod.regular) + NonEmpty(pod.ephemeral)
      && forall c :: c in ContainerNames(wire, body).value <==>
           c != "" && (c in pod.initial || c in pod.regular || c in pod.ephemeral)
  {
    var pod := wire.decode(body).value;
    var i, r, e := pod.initial, pod.regular, pod.ephemeral;
    assert [i, r, e][..2] == [i, r] && [i, r][..1] == [i] && [i][..0] == [];
    assert NamesIn([i, r, e]) == NamesIn([i, r]) + NonEmpty(e);
    assert NamesIn([i, r]) == NamesIn([i]) + NonEmpty(r);
    assert NamesIn([i]) == NamesIn([]) + NonEmpty(i) && NamesIn([]) == [];
    assert [] + NonEmpty(i) == NonEmpty(i);
    hide NamesIn;
    forall c
      ensures c in NonEmpty(i) <==> c in i && c != ""
      ensures c in NonEmpty(r) <==> c in r && c != ""
      ensures c in NonEmpty(e) <==> c in e && c != ""
    {
      NonEmptyIs(i, c);
      NonEmptyIs(r, c);
      NonEmptyIs(e, c);
    }
    hide NonEmpty;
  }

  /** Each container's read asks for that container. */
  lemma {:induction false} PlanNamesContainers(namespace: string, name: string, parameters: Parameters,
                                               containers: seq<string>, k: nat)
    requires NamesAPod(namespace, name) && k < |containers| && containers[k] != ""
    ensures
      var plan := ContainerReads(namespace, name, parameters, containers);
      && |plan| == |containers|
      && Param(plan[k].query, "container") == containers[k]
      && PolicyProofs.ReadPath(plan[k].path) == Some(PolicyProofs.Target(LOGS, namespace, name))
  {
    var own := parameters["container" := containers[k]];
    ContainerReadIsServed(namespace, name, parameters, containers[k]);
    PolicyProofs.PathReadsBack(LOGS, namespace, name, own);
    ContainerAsked(own);
    ContainerQuery(namespace, name, parameters, containers[k]);
    hide Resolved, PolicyProofs.ReadPath, LogQuery;
  }

  lemma {:induction false} ContainerQuery(namespace: string, name: string, parameters: Parameters, container: string)
    requires NamesAPod(namespace, name)
    ensures ContainerRead(namespace, name, parameters, container).query
            == LogQuery(parameters["container" := container])
  {
    hide LogQuery, Slashed, LogParts;
  }

  lemma {:induction false} ContainerAsked(parameters: Parameters)
    ensures Param(LogQuery(parameters), "container") == Param(parameters, "container")
  {
    assert |"container"| == 9 && |"tailLines"| == 9 && "container"[0] != "tailLines"[0] && |"previous"| == 8;
  }

  // ----------------------------------------------------------------- requests

  /** A request Resolve produced for this target, sent under this identity, of this kind. */
  predicate ResolvedAs(request: Request, identity: Option<Impersonation>, kind: string, namespace: string, name: string,
                       parameters: Parameters)
  {
    && Resolved(kind, namespace, name, parameters).Ok?
    && request == RequestFor(Resolved(kind, namespace, name, parameters).value, identity)
  }

  lemma {:induction false} RequestOf(plan: seq<Read>, identity: Option<Impersonation>, request: Request)
    returns (k: nat)
    requires request in Requests(plan, identity)
    ensures k < |plan| && request == RequestFor(plan[k], identity)
  {
    k :| 0 <= k < |plan| && Requests(plan, identity)[k] == request;
  }

  lemma {:induction false} ContainerResolves(identity: Option<Impersonation>, namespace: string, name: string,
                                             parameters: Parameters, container: string)
    requires NamesAPod(namespace, name)
    ensures ResolvedAs(RequestFor(ContainerRead(namespace, name, parameters, container), identity), identity,
                       LOGS, namespace, name, parameters["container" := container])
  {
    ContainerReadIsServed(namespace, name, parameters, container);
    hide Resolved, ContainerRead, RequestFor;
  }

  lemma {:induction false} PlanResolves(identity: Option<Impersonation>, namespace: string, name: string,
                                        parameters: Parameters, containers: seq<string>, plan: seq<Read>,
                                        request: Request)
    requires NamesAPod(namespace, name) && PlanFor(namespace, name, parameters, containers, plan)
    requires request in Requests(plan, identity)
    ensures ReadsAContainer(request, identity, namespace, name, parameters)
  {
    hide *;
    var k := RequestOf(plan, identity, request);
    PlanLength(namespace, name, parameters, containers, plan);
    PlanAt(namespace, name, parameters, containers, plan, k);
    ContainerResolves(identity, namespace, name, parameters, containers[k]);
    OneContainer(request, identity, namespace, name, parameters, containers[k]);
  }

  function ForContainer(parameters: Parameters, container: string): Parameters {
    parameters["container" := container]
  }

  /** The request is for the logs of one container, all else as the spec has it. */
  ghost predicate ReadsAContainer(request: Request, identity: Option<Impersonation>, namespace: string, name: string,
                                  parameters: Parameters)
  {
    exists container ::
      ResolvedAs(request, identity, LOGS, namespace, name, ForContainer(parameters, container))
  }

  lemma {:induction false} OneContainer(request: Request, identity: Option<Impersonation>, namespace: string,
                                        name: string, parameters: Parameters, container: string)
    requires ResolvedAs(request, identity, LOGS, namespace, name, parameters["container" := container])
    ensures ReadsAContainer(request, identity, namespace, name, parameters)
  {
    hide ResolvedAs;
    assert ResolvedAs(request, identity, LOGS, namespace, name, ForContainer(parameters, container));
  }

  lemma {:induction false} GatheredArePlanned(wire: Wire, identity: Option<Impersonation>, plan: seq<Read>, n: nat,
                                              request: Request)
    requires request in Gather(wire, identity, plan, n).requests
    ensures request in Requests(plan, identity)
  {
    var m := Successes(wire, identity, plan, n, 0);
    var some := if m < |plan| then plan[..m + 1] else plan;
    var k := RequestOf(some, identity, request);
    assert some[k] == plan[k] && Requests(plan, identity)[k] == request;
  }

  lemma {:induction false} PodResolves(identity: Option<Impersonation>, namespace: string, name: string)
    ensures ResolvedAs(RequestFor(PodRead(namespace, name), identity), identity, PODS, namespace, name, map[])
  {
    PodsAreServed(namespace, name);
    hide Resolved;
  }

  /** An all-containers read asks for the named pod and for logs of its containers, and nothing else. */
  lemma {:induction false} EveryRequestResolves(wire: Wire, identity: Option<Impersonation>, namespace: string,
                                                name: string, parameters: Parameters, n: nat, request: Request)
    requires NamesAPod(namespace, name)
    requires request in EveryRequest(wire, identity, namespace, name, parameters, n)
    ensures
      || ResolvedAs(request, identity, PODS, namespace, name, map[])
      || ReadsAContainer(request, identity, namespace, name, parameters)
  {
    hide PodRead, ContainerNames, ContainerReads, Gather, RequestFor, ResolvedAs, ReadsAContainer;
    PodResolves(identity, namespace, name);
    var pod := RequestFor(PodRead(namespace, name), identity);
    if request != pod {
      var containers := ContainerNames(wire, wire.answer(n, pod).body).value;
      var plan := ContainerReads(namespace, name, parameters, containers);
      PlanIs(namespace, name, parameters, containers);
      GatheredArePlanned(wire, identity, plan, n + 1, request);
      PlanResolves(identity, namespace, name, parameters, containers, plan, request);
    }
  }

  /**
   Every request collecting issues is an output of Resolve for the spec's own
   target, under the actor's identity; its path reads back to that target. A
   refused spec issues none.
   */
  lemma {:induction false} OnlyResolvedReads(wire: Wire, identity: Option<Impersonation>, kind: string,
                                             namespace: string, name: string, parameters: Parameters, n: nat,
                                             request: Request)
    returns (readKind: string, p: Parameters)
    requires request in Issues(wire, identity, kind, namespace, name, parameters, n)
    ensures Supports(kind)
    ensures readKind == kind || (EveryContainerAsked(kind, parameters) && readKind == PODS)
    ensures ResolvedAs(request, identity, readKind, namespace, name, p) && request.identity == identity
    ensures if !EveryContainerAsked(kind, parameters) then p == parameters
            else (readKind == PODS && p == map[]) || exists container :: p == ForContainer(parameters, container)
    ensures
      PolicyProofs.ReadPath(request.path)
      == Some(PolicyProofs.Target(readKind, PolicyProofs.ConfinedTo(readKind, namespace, p), name))
  {
    AllContainersIff(kind, parameters);
    readKind, p := kind, parameters;
    PolicyProofs.ServedIff(kind, namespace, name, parameters);
    hide Resolved, Supports, EveryRequest, PolicyProofs.ReadPath, PolicyProofs.ConfinedTo;
    if AllContainers(kind, parameters) {
      LogsNameAPod(namespace, name, parameters, Resolved(kind, namespace, name, parameters).value);
      EveryRequestResolves(wire, identity, namespace, name, parameters, n, request);
      if ResolvedAs(request, identity, PODS, namespace, name, map[]) {
        readKind, p := PODS, map[];
      } else {
        var container :| ResolvedAs(request, identity, LOGS, namespace, name, ForContainer(parameters, container));
        p := ForContainer(parameters, container);
      }
    }
    PolicyProofs.PathReadsBack(readKind, namespace, name, p);
  }

  /** A record says "not applicable" exactly when the spec was refused, and then nothing was read. */
  lemma {:induction false} RefusedIff(wire: Wire, identity: Option<Impersonation>, kind: string, namespace: string,
                                      name: string, parameters: Parameters, n: nat)
    ensures
      var refused := !(Supports(kind) && (kind == LOGS ==> NamesAPod(namespace, name)));
      && (Collected(wire, identity, kind, namespace, name, parameters, n).status == NotApplicable <==> refused)
      && (Issues(wire, identity, kind, namespace, name, parameters, n) == [] <==> refused)
  {
    PolicyProofs.ServedIff(kind, namespace, name, parameters);
    hide Resolved, Supports, PodRead, ContainerNames, ContainerReads, Gather;
    if Resolved(kind, namespace, name, parameters).Ok? && AllContainers(kind, parameters) {
      LogsNameAPod(namespace, name, parameters, Resolved(kind, namespace, name, parameters).value);
    }
  }

  /**
   What the status of a single read says: how it failed, and, where the object or
   the API was not found, whether one object was named. Only then does a missing
   answer count as an empty one.
   */
  lemma {:induction false} StatusIs(wire: Wire, identity: Option<Impersonation>, kind: string, namespace: string,
                                    name: string, parameters: Parameters, n: nat)
    requires Resolved(kind, namespace, name, parameters).Ok? && !EveryContainerAsked(kind, parameters)
    ensures
      var status := Collected(wire, identity, kind, namespace, name, parameters, n).status;
      var error := wire.answer(n, RequestFor(Resolved(kind, namespace, name, parameters).value, identity)).error;
      && (status == OK <==> error.None?)
      && (status == Forbidden <==> error.Some? && error.value.refused)
      && (status == TimedOut <==> error.Some? && !error.value.refused && error.value.timedOut)
      && (status == Empty <==> error.Some? && IsMissing(error.value) && name != "")
      && (status == Unavailable <==> error.Some? && IsMissing(error.value) && name == "")
      && (status == Failed <==>
            error.Some? && !error.value.refused && !error.value.timedOut && !error.value.notFound)
  {
    AllContainersIff(kind, parameters);
    NamedIsName(kind, namespace, name, parameters);
    hide Resolved;
  }

  /** What a single read leaves in its record: the answer as it came, or a log as text; or why there is none. */
  lemma {:induction false} PayloadIs(wire: Wire, identity: Option<Impersonation>, kind: string, namespace: string,
                                     name: string, parameters: Parameters, n: nat)
    requires Resolved(kind, namespace, name, parameters).Ok? && !EveryContainerAsked(kind, parameters)
    ensures
      var found := Collected(wire, identity, kind, namespace, name, parameters, n);
      var reply := wire.answer(n, RequestFor(Resolved(kind, namespace, name, parameters).value, identity));
      && (reply.error.None? ==>
            && found.detail == ""
            && found.payload == Some(if kind == LOGS then wire.textObject(reply.body) else reply.body))
      && (reply.error.Some? ==> found.payload == None && found.detail == wire.detail(reply.error.value, reply.body))
  {
    AllContainersIff(kind, parameters);
    NamedIsName(kind, namespace, name, parameters);
    hide Resolved;
  }

  /** A refused spec leaves no payload and says what was wrong with it. */
  lemma {:induction false} RefusalSays(wire: Wire, identity: Option<Impersonation>, kind: string, namespace: string,
                                       name: string, parameters: Parameters, n: nat)
    requires Resolved(kind, namespace, name, parameters).Err?
    ensures
      var found := Collected(wire, identity, kind, namespace, name, parameters, n);
      && found.payload == None
      && (kind == "k8s.logs" ==> found.detail == "a log read needs a namespace and a pod name")
      && (kind != "k8s.logs" ==> found.detail == "unknown evidence kind \"" + kind + "\"")
  {
    hide Kinds, Lookup, Slashed, PathSegments, LogSegments, QueryOf, LogQuery, CommandParts, LogParts;
  }

  predicate IsMissing(error: ReadError) {
    !error.refused && !error.timedOut && error.notFound
  }

  lemma {:induction false} NamedIsName(kind: string, namespace: string, name: string, parameters: Parameters)
    requires Resolved(kind, namespace, name, parameters).Ok?
    ensures Resolved(kind, namespace, name, parameters).value.named <==> name != ""
  {
    hide Kinds, Lookup, Slashed, PathSegments, LogSegments, QueryOf, LogQuery, CommandParts, LogParts;
  }
}
