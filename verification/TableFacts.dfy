/** Facts read off the strings of the kinds table, entry by entry, for the proofs about whole paths and commands. */
module TableFacts {
  import opened PolicyKinds

  // ------------------------------------------------ entries are told apart

  /** Entries of one group, told apart by the length of the plural and its first letter. */
  predicate Apart(entries: seq<Entry>, group: ApiGroup) {
    && (forall i :: 0 <= i < |entries| ==> entries[i].resource.group == group && entries[i].resource.plural != "")
    && (forall i, j :: 0 <= i < j < |entries| ==>
          |entries[i].resource.plural| != |entries[j].resource.plural| ||
          entries[i].resource.plural[0] != entries[j].resource.plural[0])
  }

  /** The length of each core plural; the two of length 10 differ in their first letter. */
  function CoreLength(i: int): int {
    if i == 0 then 4 else if i == 1 then 6 else if i == 2 then 8 else if i == 3 then 9 else if i == 4 then 10
    else if i == 5 then 22 else if i == 6 then 10 else if i == 7 then 5 else if i == 8 then 17 else if i == 9 then 15
    else if i == 10 then 14 else 11
  }

  lemma {:induction false} CoreLengths()
    ensures |CoreKinds()| == 12
    ensures forall i :: 0 <= i < 12 ==> |CoreKinds()[i].resource.plural| == CoreLength(i)
    ensures CoreKinds()[4].resource.plural[0] == 'c' && CoreKinds()[6].resource.plural[0] == 'n'
  {
  }

  lemma {:induction false} CoreLengthsDiffer(i: int, j: int)
    requires 0 <= i < j < 12
    ensures CoreLength(i) != CoreLength(j) || (i == 4 && j == 6)
  {
  }

  lemma {:induction false} CoreGroup()
    ensures forall i :: 0 <= i < |CoreKinds()| ==> CoreKinds()[i].resource.group == Core
  {
  }

  lemma {:induction false} CoreApart()
    ensures Apart(CoreKinds(), Core)
  {
    CoreLengths();
    CoreGroup();
    hide CoreKinds;
    forall i, j | 0 <= i < j < 12
      ensures CoreLength(i) != CoreLength(j) || (i == 4 && j == 6)
    {
      CoreLengthsDiffer(i, j);
    }
    assert forall i :: 0 <= i < 12 ==> CoreLength(i) > 0;
    hide CoreLength;
  }

  lemma {:induction false} AppsApart()
    ensures Apart(AppsKinds(), APPS)
  {
  }

  lemma {:induction false} BatchApart()
    ensures Apart(BatchKinds(), BATCH)
    ensures Apart(DiscoveryKinds(), DISCOVERY)
  {
  }

  lemma {:induction false} NetworkingApart()
    ensures Apart(NetworkingKinds(), NETWORKING)
  {
  }

  lemma {:induction false} StorageApart()
    ensures Apart(StorageKinds(), STORAGE)
    ensures Apart(MetricsKinds(), METRICS)
  {
  }

  lemma {:induction false} GroupsDiffer()
    ensures Core !in {APPS, BATCH, NETWORKING, DISCOVERY, STORAGE, METRICS}
    ensures APPS !in {BATCH, NETWORKING, DISCOVERY, STORAGE, METRICS}
    ensures BATCH !in {NETWORKING, DISCOVERY, STORAGE, METRICS}
    ensures NETWORKING !in {DISCOVERY, STORAGE, METRICS}
    ensures DISCOVERY !in {STORAGE, METRICS}
    ensures STORAGE != METRICS
  {
    assert |APPS.name| == 4 && |BATCH.name| == 5 && |NETWORKING.name| == 17 && |DISCOVERY.name| == 16;
    assert |STORAGE.name| == 14 && |METRICS.name| == 14 && STORAGE.name[0] != METRICS.name[0];
  }

  // -------------------------------------------- no separator in a segment

  predicate Whole(segments: seq<string>) {
    forall s :: s in segments ==> '/' !in s
  }

  /** No plural in the table holds a separator. */
  predicate Plain(entries: seq<Entry>) {
    forall i :: 0 <= i < |entries| ==> '/' !in entries[i].resource.plural
  }

  lemma {:induction false} CorePluralsFirst()
    ensures CoreKinds()[0].resource.plural == "pods"
    ensures CoreKinds()[1].resource.plural == "events"
    ensures CoreKinds()[2].resource.plural == "services"
    ensures CoreKinds()[3].resource.plural == "endpoints"
    ensures CoreKinds()[4].resource.plural == "configmaps"
    ensures CoreKinds()[5].resource.plural == "persistentvolumeclaims"
  {
  }

  lemma {:induction false} CorePluralsLast()
    ensures CoreKinds()[6].resource.plural == "namespaces"
    ensures CoreKinds()[7].resource.plural == "nodes"
    ensures CoreKinds()[8].resource.plural == "persistentvolumes"
    ensures CoreKinds()[9].resource.plural == "serviceaccounts"
    ensures CoreKinds()[10].resource.plural == "resourcequotas"
    ensures CoreKinds()[11].resource.plural == "limitranges"
  {
  }

  lemma {:induction false} NoSlashFirst()
    ensures '/' !in "pods"
    ensures '/' !in "events"
    ensures '/' !in "services"
    ensures '/' !in "endpoints"
  {
  }

  lemma {:induction false} NoSlashClaims()
    ensures '/' !in "configmaps"
    ensures '/' !in "persistentvolumeclaims"
  {
  }

  lemma {:induction false} NoSlashNext()
    ensures '/' !in "namespaces"
    ensures '/' !in "nodes"
    ensures '/' !in "persistentvolumes"
  {
  }

  lemma {:induction false} NoSlashLast()
    ensures '/' !in "serviceaccounts"
    ensures '/' !in "resourcequotas"
    ensures '/' !in "limitranges"
  {
  }

  lemma {:induction false} CoreIsPlain()
    ensures Plain(CoreKinds())
  {
    CorePluralsFirst();
    CorePluralsLast();
    NoSlashFirst();
    NoSlashClaims();
    NoSlashNext();
    NoSlashLast();
    assert |CoreKinds()| == 12;
    hide CoreKinds;
  }

  lemma {:induction false} AppsArePlain()
    ensures Plain(AppsKinds())
  {
    assert '/' !in "deployments";
    assert '/' !in "statefulsets";
    assert '/' !in "daemonsets";
  }

  lemma {:induction false} BatchArePlain()
    ensures Plain(BatchKinds())
  {
    assert '/' !in "jobs";
    assert '/' !in "cronjobs";
  }

  lemma {:induction false} NetworkingArePlain()
    ensures Plain(NetworkingKinds())
  {
    assert '/' !in "ingresses";
    assert '/' !in "networkpolicies";
  }

  lemma {:induction false} DiscoveryArePlain()
    ensures Plain(DiscoveryKinds())
  {
    assert '/' !in "endpointslices";
  }

  lemma {:induction false} StorageArePlain()
    ensures Plain(StorageKinds())
  {
    assert '/' !in "storageclasses";
    assert '/' !in "volumeattachments";
  }

  lemma {:induction false} MetricsArePlain()
    ensures Plain(MetricsKinds())
  {
    assert '/' !in "nodes";
    assert '/' !in "pods";
  }

  lemma {:induction false} TableIsPlain()
    ensures Plain(Kinds())
  {
    CoreIsPlain();
    AppsArePlain();
    BatchArePlain();
    NetworkingArePlain();
    DiscoveryArePlain();
    StorageArePlain();
    MetricsArePlain();
    hide CoreKinds, AppsKinds, BatchKinds, NetworkingKinds, DiscoveryKinds, StorageKinds, MetricsKinds;
  }

  /** No plural in the table is as short as "..". */
  predicate Long(entries: seq<Entry>) {
    forall i :: 0 <= i < |entries| ==> |entries[i].resource.plural| > 2
  }

  lemma {:induction false} CoreIsLong()
    ensures Long(CoreKinds())
  {
    CoreLengths();
    hide CoreKinds;
  }

  lemma {:induction false} OthersAreLong()
    ensures Long(AppsKinds()) && Long(BatchKinds()) && Long(NetworkingKinds())
    ensures Long(DiscoveryKinds()) && Long(StorageKinds()) && Long(MetricsKinds())
  {
  }

  lemma {:induction false} TableIsLong()
    ensures Long(Kinds())
  {
    hide CoreKinds, AppsKinds, BatchKinds, NetworkingKinds, DiscoveryKinds, StorageKinds, MetricsKinds;
    CoreIsLong();
    OthersAreLong();
  }

  lemma {:induction false} NoSlashShort()
    ensures '/' !in "api"
    ensures '/' !in "v1"
    ensures '/' !in "v1beta1"
    ensures '/' !in "apis"
    ensures '/' !in "apps"
    ensures '/' !in "batch"
  {
  }

  lemma {:induction false} NoSlashLong()
    ensures '/' !in "networking.k8s.io"
    ensures '/' !in "discovery.k8s.io"
  {
  }

  lemma {:induction false} NoSlashDotted()
    ensures '/' !in "storage.k8s.io"
    ensures '/' !in "metrics.k8s.io"
  {
  }

  lemma {:induction false} GroupsArePlain(group: ApiGroup)
    requires group in {METRICS, STORAGE, DISCOVERY, NETWORKING, BATCH, APPS} + {Core}
    ensures Whole(GroupSegments(group))
  {
    NoSlashShort();
    NoSlashLong();
    NoSlashDotted();
    var segments := GroupSegments(group);
    assert forall i :: 0 <= i < |segments| ==> '/' !in segments[i];
  }

  // ------------------------------------------------- no flag in a command

  /** The words an entry puts into a command are not flags. */
  predicate Bare(e: Entry) {
    '-' !in e.resource.kubectl && (e.resource.verb == "" || e.resource.verb == "top")
  }

  predicate AllBare(entries: seq<Entry>) {
    forall i :: 0 <= i < |entries| ==> Bare(entries[i])
  }

  lemma {:induction false} CoreCommandsFirst()
    ensures CoreKinds()[0].resource.kubectl == "pods" && CoreKinds()[0].resource.verb == ""
    ensures CoreKinds()[1].resource.kubectl == "events" && CoreKinds()[1].resource.verb == ""
    ensures CoreKinds()[2].resource.kubectl == "services" && CoreKinds()[2].resource.verb == ""
    ensures CoreKinds()[3].resource.kubectl == "endpoints" && CoreKinds()[3].resource.verb == ""
    ensures CoreKinds()[4].resource.kubectl == "configmaps" && CoreKinds()[4].resource.verb == ""
    ensures CoreKinds()[5].resource.kubectl == "pvc" && CoreKinds()[5].resource.verb == ""
  {
  }

  lemma {:induction false} CoreCommandsLast()
    ensures CoreKinds()[6].resource.kubectl == "namespaces" && CoreKinds()[6].resource.verb == ""
    ensures CoreKinds()[7].resource.kubectl == "nodes" && CoreKinds()[7].resource.verb == ""
    ensures CoreKinds()[8].resource.kubectl == "pv" && CoreKinds()[8].resource.verb == ""
    ensures CoreKinds()[9].resource.kubectl == "serviceaccount" && CoreKinds()[9].resource.verb == ""
    ensures CoreKinds()[10].resource.kubectl == "resourcequotas" && CoreKinds()[10].resource.verb == ""
    ensures CoreKinds()[11].resource.kubectl == "limitranges" && CoreKinds()[11].resource.verb == ""
  {
  }

  lemma {:induction false} NoHyphenFirst()
    ensures '-' !in "pods"
    ensures '-' !in "events"
    ensures '-' !in "services"
    ensures '-' !in "endpoints"
    ensures '-' !in "configmaps"
  {
  }

  lemma {:induction false} NoHyphenNext()
    ensures '-' !in "pvc"
    ensures '-' !in "namespaces"
    ensures '-' !in "nodes"
    ensures '-' !in "pv"
    ensures '-' !in "serviceaccount"
  {
  }

  lemma {:induction false} NoHyphenLast()
    ensures '-' !in "resourcequotas"
    ensures '-' !in "limitranges"
  {
  }

  lemma {:induction false} CoreIsBare()
    ensures AllBare(CoreKinds())
  {
    CoreCommandsFirst();
    CoreCommandsLast();
    NoHyphenFirst();
    NoHyphenNext();
    NoHyphenLast();
    assert |CoreKinds()| == 12;
    hide CoreKinds;
  }

  lemma {:induction false} AppsAreBare()
    ensures AllBare(AppsKinds())
  {
    assert '-' !in "deployments";
    assert '-' !in "statefulsets";
    assert '-' !in "daemonsets";
  }

  lemma {:induction false} BatchAreBare()
    ensures AllBare(BatchKinds())
  {
    assert '-' !in "jobs";
    assert '-' !in "cronjobs";
  }

  lemma {:induction false} NetworkingAreBare()
    ensures AllBare(NetworkingKinds())
  {
    assert '-' !in "ingress";
    assert '-' !in "networkpolicies";
  }

  lemma {:induction false} DiscoveryAreBare()
    ensures AllBare(DiscoveryKinds())
  {
    assert '-' !in "endpointslices";
  }

  lemma {:induction false} StorageAreBare()
    ensures AllBare(StorageKinds())
  {
    assert '-' !in "storageclasses";
    assert '-' !in "volumeattachments";
  }

  lemma {:induction false} MetricsAreBare()
    ensures AllBare(MetricsKinds())
  {
    assert '-' !in "nodes";
    assert '-' !in "pods";
  }

  lemma {:induction false} TableIsBare()
    ensures AllBare(Kinds())
  {
    CoreIsBare();
    AppsAreBare();
    BatchAreBare();
    NetworkingAreBare();
    DiscoveryAreBare();
    StorageAreBare();
    MetricsAreBare();
    hide CoreKinds, AppsKinds, BatchKinds, NetworkingKinds, DiscoveryKinds, StorageKinds, MetricsKinds, Bare;
  }
}
