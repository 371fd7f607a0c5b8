/** The values the reasoning core works on. */
module Signals {
  import opened Prelude

  datatype Severity = Critical | High | Medium | Low | Info {
    function Weight(): nat {
      match this
      case Critical => 5
      case High => 4
      case Medium => 3
      case Low => 2
      case Info => 1
    }
  }

  function LowerChar(c: char): char {
    if 'A' <= c <= 'Z' then (c as int + 32) as char else c
  }

  function Lower(s: string): string {
    if s == [] then [] else [LowerChar(s[0])] + Lower(s[1..])
  }

  datatype ResourceRef = ResourceRef(kind: string, name: string, namespace: Option<string>) {
    /** Both an absent and an empty namespace read as none. */
    function NamespaceOr(default: string): string {
      if namespace.Some? && namespace.value != "" then namespace.value else default
    }

    predicate HasNamespace() {
      namespace.Some? && namespace.value != ""
    }

    function Key(): string {
      Lower(kind) + "/" + NamespaceOr("_cluster") + "/" + name
    }
  }

  /** `pods` is the one attribute the hypothesis rules look at. */
  datatype Signal = Signal(
    id: string,
    signalType: string,
    severity: Severity,
    summary: string,
    target: ResourceRef,
    evidenceIds: seq<string>,
    pods: seq<string>)

  datatype Hypothesis = Hypothesis(
    id: string,
    title: string,
    category: string,
    severity: Severity,
    confidence: int,
    rationale: string,
    target: ResourceRef,
    supporting: seq<string>,
    refuting: seq<string>,
    missingEvidence: seq<string>,
    remediationHint: string)

  function Ids(signals: seq<Signal>): seq<string> {
    if signals == [] then [] else [signals[0].id] + Ids(signals[1..])
  }

  // ------------------------------------------------------------- key lemmas

  /** Names as Kubernetes allows them, so that a key can be read back. */
  predicate WellNamed(r: ResourceRef) {
    && '/' !in r.kind
    && (Lower(r.kind) == "pod" ==> r.kind == "Pod")
    && (Lower(r.kind) == "deployment" ==> r.kind == "Deployment")
    && r.name != "" && '\n' !in r.name
    && '/' !in r.NamespaceOr("_cluster")
    && (r.HasNamespace() ==> r.namespace.value != "_cluster")
  }

  lemma {:induction false} FirstSlash(a: string, b: string, x: string, y: string)
    requires '/' !in a && '/' !in b && a + "/" + x == b + "/" + y
    ensures a == b && x == y
  {
    var s := a + "/" + x;
    assert s[|a|] == '/' && s[|b|] == '/';
    assert forall i :: 0 <= i < |a| ==> s[i] == a[i] && a[i] in a;
    assert forall i :: 0 <= i < |b| ==> s[i] == b[i] && b[i] in b;
    assert |a| == |b|;
    assert s[..|a|] == a && s[..|b|] == b;
    assert s[|a| + 1..] == x && s[|b| + 1..] == y;
  }

  lemma {:induction false} LowerHasNoSlash(s: string)
    requires '/' !in s
    ensures '/' !in Lower(s)
  {
    if s != [] {
      LowerHasNoSlash(s[1..]);
    }
  }

  /** A key determines the kind up to case, the namespace and the name. */
  lemma {:induction false} KeyIsInjective(a: ResourceRef, b: ResourceRef)
    requires WellNamed(a) && WellNamed(b) && a.Key() == b.Key()
    ensures Lower(a.kind) == Lower(b.kind) && a.NamespaceOr("") == b.NamespaceOr("") && a.name == b.name
  {
    hide Lower;
    LowerHasNoSlash(a.kind);
    LowerHasNoSlash(b.kind);
    var ra, rb := a.NamespaceOr("_cluster") + "/" + a.name, b.NamespaceOr("_cluster") + "/" + b.name;
    assert a.Key() == Lower(a.kind) + "/" + ra && b.Key() == Lower(b.kind) + "/" + rb;
    FirstSlash(Lower(a.kind), Lower(b.kind), ra, rb);
    FirstSlash(a.NamespaceOr("_cluster"), b.NamespaceOr("_cluster"), a.name, b.name);
  }
}
