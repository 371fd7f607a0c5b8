/** Whether a model's diagnosis may be believed, given the deterministic analysis. */
module Grounding {
  import opened Prelude
  import opened Text
  import opened Signals
  import opened AnalysisEngine

  /** A parsed JSON value. Other stands for numbers, booleans and objects. */
  datatype Json = Null | Text(text: string) | List(items: seq<Json>) | Other(truth: bool)

  type Payload = map<string, Json>

  /** str() on what is not a string, and the two checks that read prose. */
  datatype Prose = Prose(
    show: Json -> string,
    contradicts: (string, Analysis) -> bool,
    invents: (string, Analysis) -> bool)

  datatype Rejection =
    | NoRootCause
    | UnknownHypothesis(id: string)
    | NoValidCitation
    | Contradiction
    | IrrelevantCitations(id: string)
    | InventedResource

  datatype GroundingResult = GroundingResult(
    rejection: Option<Rejection>,
    selected: Option<string>,
    cited: seq<string>,
    rejected: seq<string>)
  {
    predicate Valid() { rejection.None? }
  }

  predicate Truthy(j: Json) {
    match j
    case Null => false
    case Text(s) => s != ""
    case List(items) => items != []
    case Other(truth) => truth
  }

  function Get(payload: Payload, key: string, default: Json): Json {
    if key in payload then payload[key] else default
  }

  function Str(prose: Prose, j: Json): string {
    if j.Text? then j.text else prose.show(j)
  }

  /** str(value or "") */
  function StrOrEmpty(prose: Prose, j: Json): string {
    if Truthy(j) then Str(prose, j) else ""
  }

  function SignalIds(analysis: Analysis): set<string> {
    set s | s in analysis.signals :: s.id
  }

  /** The first hypothesis with an id. */
  function FindHypothesis(hypotheses: seq<Hypothesis>, id: string): Option<Hypothesis> {
    if hypotheses == [] then None
    else if hypotheses[0].id == id then Some(hypotheses[0])
    else FindHypothesis(hypotheses[1..], id)
  }

  function Selected(prose: Prose, payload: Payload): Option<string> {
    var selected := Get(payload, "selected_hypothesis", Null);
    if !Truthy(selected) then None
    else
      var id := Strip(Str(prose, selected));
      if id == "" || id == "null" || id == "none" || id == "None" then None else Some(id)
  }

  // --------------------------------------------------------------- citations

  function RawCitations(payload: Payload): seq<Json> {
    match Get(payload, "cited_signals", List([]))
    case Text(s) => [Text(s)]
    case List(items) => items
    case _ => []
  }

  /** The citations a payload makes, stripped, without the blank ones. */
  function Claims(prose: Prose, items: seq<Json>): seq<string> {
    if items == [] then []
    else
      var n := |items| - 1;
      var claim := Strip(Str(prose, items[n]));
      Claims(prose, items[..n]) + if claim == "" then [] else [claim]
  }

  /** Each member once, where it first occurs. */
  function Distinct(claims: seq<string>): seq<string> {
    if claims == [] then []
    else
      var n := |claims| - 1;
      var before := Distinct(claims[..n]);
      if claims[n] in before then before else before + [claims[n]]
  }

  /** The claims that are, or are not, among the known ids. */
  function Sift(claims: seq<string>, known: set<string>, wanted: bool): seq<string> {
    if claims == [] then []
    else
      var n := |claims| - 1;
      Sift(claims[..n], known, wanted) + if (claims[n] in known) == wanted then [claims[n]] else []
  }

  /** _partition_citations: one pass, two lists. */
  method PartitionCitations(prose: Prose, items: seq<Json>, known: set<string>)
    returns (cited: seq<string>, rejected: seq<string>)
    ensures cited == Distinct(Sift(Claims(prose, items), known, true))
    ensures rejected == Distinct(Sift(Claims(prose, items), known, false))
  {
    cited, rejected := [], [];
    for k := 0 to |items|
      invariant cited == Distinct(Sift(Claims(prose, items[..k]), known, true))
      invariant rejected == Distinct(Sift(Claims(prose, items[..k]), known, false))
    {
      assert items[..k + 1][..k] == items[..k];
      var citation := Strip(Str(prose, items[k]));
      var before := Claims(prose, items[..k]);
      if citation == "" {
        assert before + [] == before;
        continue;
      }
      SiftAppend(before, citation, known, true);
      SiftAppend(before, citation, known, false);
      if citation in known {
        if citation !in cited {
          cited := cited + [citation];
        }
      } else if citation !in rejected {
        rejected := rejected + [citation];
      }
    }
    assert items[..|items|] == items;
  }

  lemma {:induction false} SiftAppend(claims: seq<string>, claim: string, known: set<string>, wanted: bool)
    ensures
      var before := Sift(claims, known, wanted);
      var after := Sift(claims + [claim], known, wanted);
      && after == before + (if (claim in known) == wanted then [claim] else [])
      && Distinct(after)
         == if (claim in known) == wanted && claim !in Distinct(before)
            then Distinct(before) + [claim]
            else Distinct(before)
  {
    assert (claims + [claim])[..|claims|] == claims;
    var before := Sift(claims, known, wanted);
    if (claim in known) == wanted {
      assert (before + [claim])[..|before|] == before;
    } else {
      assert before + [] == before;
    }
  }

  function Cited(prose: Prose, payload: Payload, analysis: Analysis): seq<string> {
    Distinct(Sift(Claims(prose, RawCitations(payload)), SignalIds(analysis), true))
  }

  function RejectedCitations(prose: Prose, payload: Payload, analysis: Analysis): seq<string> {
    Distinct(Sift(Claims(prose, RawCitations(payload)), SignalIds(analysis), false))
  }

  predicate IgnoresSelection(cited: seq<string>, selected: Option<string>, analysis: Analysis) {
    && selected.Some? && cited != []
    && FindHypothesis(analysis.hypotheses, selected.value).Some?
    && FindHypothesis(analysis.hypotheses, selected.value).value.supporting != []
    && forall c :: c in cited ==> c !in FindHypothesis(analysis.hypotheses, selected.value).value.supporting
  }

  function Validate(prose: Prose, payload: Payload, analysis: Analysis): GroundingResult {
    var rootCause := Strip(StrOrEmpty(prose, Get(payload, "root_cause", Null)));
    if rootCause == "" then GroundingResult(Some(NoRootCause), None, [], [])
    else
      var selected := Selected(prose, payload);
      if selected.Some? && FindHypothesis(analysis.hypotheses, selected.value).None? then
        GroundingResult(Some(UnknownHypothesis(selected.value)), None, [], [])
      else
        var cited := Cited(prose, payload, analysis);
        var rejected := RejectedCitations(prose, payload, analysis);
        var text := StrOrEmpty(prose, Get(payload, "root_cause", Null)) + " "
                  + StrOrEmpty(prose, Get(payload, "explanation", Null));
        if analysis.signals != [] && cited == [] then
          GroundingResult(Some(NoValidCitation), selected, [], rejected)
        else if prose.contradicts(text, analysis) then
          GroundingResult(Some(Contradiction), selected, cited, rejected)
        else if IgnoresSelection(cited, selected, analysis) then
          GroundingResult(Some(IrrelevantCitations(selected.value)), selected, cited, rejected)
        else if prose.invents(text, analysis) then
          GroundingResult(Some(InventedResource), selected, cited, rejected)
        else GroundingResult(None, selected, cited, rejected)
  }

  // ----------------------------------------------------------------- lemmas

  lemma {:induction false} DistinctHolds(claims: seq<string>)
    ensures forall c :: c in Distinct(claims) <==> c in claims
    ensures forall i, j :: 0 <= i < j < |Distinct(claims)| ==> Distinct(claims)[i] != Distinct(claims)[j]
  {
    if claims != [] {
      var n := |claims| - 1;
      DistinctHolds(claims[..n]);
      assert claims == claims[..n] + [claims[n]];
    }
  }

  lemma {:induction false} SiftHolds(claims: seq<string>, known: set<string>, wanted: bool, c: string)
    ensures c in Sift(claims, known, wanted) <==> c in claims && ((c in known) == wanted)
  {
    if claims != [] {
      var n := |claims| - 1;
      SiftHolds(claims[..n], known, wanted, c);
      assert claims == claims[..n] + [claims[n]];
    }
  }

  /** Where a member first occurs. */
  function FirstIndex(claims: seq<string>, c: string): nat
    requires c in claims
  {
    if claims[0] == c then 0 else 1 + FirstIndex(claims[1..], c)
  }

  predicate InOrderOf(some: seq<string>, claims: seq<string>) {
    && (forall i :: 0 <= i < |some| ==> some[i] in claims)
    && (forall i, j :: 0 <= i < j < |some| ==> FirstIndex(claims, some[i]) < FirstIndex(claims, some[j]))
  }

  lemma {:induction false} FirstIndexAppend(claims: seq<string>, last: string, c: string)
    ensures c in claims ==> FirstIndex(claims + [last], c) == FirstIndex(claims, c) < |claims|
    ensures c !in claims && c == last ==> FirstIndex(claims + [last], c) == |claims|
  {
    if claims != [] {
      FirstIndexAppend(claims[1..], last, c);
      assert (claims + [last])[1..] == claims[1..] + [last];
      assert claims == [claims[0]] + claims[1..];
    }
  }

  /** Citing one more thing, after everything cited so far, keeps the order. */
  lemma {:induction false} InOrderGrows(some: seq<string>, claims: seq<string>, last: string)
    requires InOrderOf(some, claims)
    ensures InOrderOf(some, claims + [last])
    ensures last !in claims ==> InOrderOf(some + [last], claims + [last])
  {
    forall c
      ensures c in claims ==> FirstIndex(claims + [last], c) == FirstIndex(claims, c) < |claims|
      ensures c !in claims && c == last ==> FirstIndex(claims + [last], c) == |claims|
    {
      FirstIndexAppend(claims, last, c);
    }
    hide FirstIndex;
    assert forall i :: 0 <= i < |some| ==> (some + [last])[i] == some[i];
  }

  lemma {:induction false} SiftInOrder(claims: seq<string>, known: set<string>, wanted: bool)
    ensures InOrderOf(Distinct(Sift(claims, known, wanted)), claims)
  {
    if claims != [] {
      var n := |claims| - 1;
      assert claims == claims[..n] + [claims[n]];
      SiftInOrder(claims[..n], known, wanted);
      SiftStep(claims[..n], claims[n], known, wanted);
      hide Sift, Distinct, InOrderOf;
    }
  }

  lemma {:induction false} SiftStep(shorter: seq<string>, last: string, known: set<string>, wanted: bool)
    requires InOrderOf(Distinct(Sift(shorter, known, wanted)), shorter)
    ensures InOrderOf(Distinct(Sift(shorter + [last], known, wanted)), shorter + [last])
  {
    hide Sift, Distinct, InOrderOf;
    SiftAppend(shorter, last, known, wanted);
    InOrderGrows(Distinct(Sift(shorter, known, wanted)), shorter, last);
    SiftedOnce(shorter, known, wanted, last);
  }

  lemma {:induction false} SiftedOnce(claims: seq<string>, known: set<string>, wanted: bool, c: string)
    ensures c in Distinct(Sift(claims, known, wanted)) <==> c in claims && ((c in known) == wanted)
  {
    DistinctHolds(Sift(claims, known, wanted));
    SiftHolds(claims, known, wanted, c);
  }

  /**
   The two lists are disjoint and free of repeats, keep the order in which the
   citations were made, and between them hold every non-blank citation: the
   real ones in the first, the fabricated ones in the second.
   */
  lemma {:induction false} PartitionIsSound(claims: seq<string>, known: set<string>)
    ensures
      var cited, rejected := Distinct(Sift(claims, known, true)), Distinct(Sift(claims, known, false));
      && (forall c :: c in cited <==> c in claims && c in known)
      && (forall c :: c in rejected <==> c in claims && c !in known)
      && (forall i, j :: 0 <= i < j < |cited| ==> cited[i] != cited[j])
      && (forall i, j :: 0 <= i < j < |rejected| ==> rejected[i] != rejected[j])
      && InOrderOf(cited, claims) && InOrderOf(rejected, claims)
  {
    DistinctHolds(Sift(claims, known, true));
    DistinctHolds(Sift(claims, known, false));
    SiftInOrder(claims, known, true);
    SiftInOrder(claims, known, false);
    forall c
      ensures c in Sift(claims, known, true) <==> c in claims && c in known
      ensures c in Sift(claims, known, false) <==> c in claims && c !in known
    {
      SiftHolds(claims, known, true, c);
      SiftHolds(claims, known, false, c);
    }
    hide Sift, Distinct, FirstIndex;
  }

  lemma {:induction false} ClaimsAre(prose: Prose, items: seq<Json>, c: string)
    ensures c in Claims(prose, items) <==> c != "" && exists k :: 0 <= k < |items| && Strip(Str(prose, items[k])) == c
  {
    if items != [] {
      var n := |items| - 1;
      ClaimsAre(prose, items[..n], c);
      if k :| 0 <= k < |items| && Strip(Str(prose, items[k])) == c {
        assert k < n ==> items[..n][k] == items[k];
      }
      if k :| 0 <= k < n && Strip(Str(prose, items[..n][k])) == c {
        assert items[k] == items[..n][k];
      }
      hide Strip, Str;
    }
  }

  lemma {:induction false} FoundHypothesis(hypotheses: seq<Hypothesis>, id: string)
    ensures
      var found := FindHypothesis(hypotheses, id);
      && (found.Some? ==> found.value in hypotheses && found.value.id == id)
      && (found.None? ==> forall h :: h in hypotheses ==> h.id != id)
  {
    if hypotheses != [] {
      FoundHypothesis(hypotheses[1..], id);
    }
  }

  /** The hypothesis found under an id is the first that has it. */
  lemma {:induction false} FoundIsFirst(hypotheses: seq<Hypothesis>, id: string, h: Hypothesis)
    ensures FindHypothesis(hypotheses, id) == Some(h) <==>
              exists k :: 0 <= k < |hypotheses| && hypotheses[k] == h && h.id == id &&
                forall j :: 0 <= j < k ==> hypotheses[j].id != id
  {
    if hypotheses != [] && hypotheses[0].id != id {
      var rest := hypotheses[1..];
      FoundIsFirst(rest, id, h);
      if k :| 0 <= k < |rest| && rest[k] == h && h.id == id && forall j :: 0 <= j < k ==> rest[j].id != id {
        assert forall j :: 0 < j < k + 1 ==> hypotheses[j] == rest[j - 1];
        assert hypotheses[k + 1] == h;
      }
      if k :| 0 <= k < |hypotheses| && hypotheses[k] == h && h.id == id &&
              forall j :: 0 <= j < k ==> hypotheses[j].id != id
      {
        assert forall j :: 0 <= j < k - 1 ==> rest[j] == hypotheses[j + 1];
        assert rest[k - 1] == h;
      }
    }
  }

  /** What acceptance guarantees. */
  lemma {:induction false} AcceptedIsGrounded(prose: Prose, payload: Payload, analysis: Analysis)
    requires Validate(prose, payload, analysis).Valid()
    ensures
      var g := Validate(prose, payload, analysis);
      && (forall c :: c in g.cited ==> c in SignalIds(analysis))
      && (analysis.signals != [] ==> g.cited != [])
      && (g.selected.Some? ==>
            var h := FindHypothesis(analysis.hypotheses, g.selected.value);
            && h.Some?
            && (analysis.signals != [] && h.value.supporting != [] ==>
                  exists c :: c in g.cited && c in h.value.supporting))
  {
    PartitionIsSound(Claims(prose, RawCitations(payload)), SignalIds(analysis));
    hide Distinct, Sift, Claims, Strip, Selected, Str, StrOrEmpty, InOrderOf;
  }

  /** Some citation, once stripped, is one of these signals. */
  predicate CitesOneOf(prose: Prose, items: seq<Json>, ids: set<string>) {
    exists k :: 0 <= k < |items| && Strip(Str(prose, items[k])) != "" && Strip(Str(prose, items[k])) in ids
  }

  /**
   When an answer is accepted: it says something, names no hypothesis or a real
   one, cites a real signal if there are any, and one that supports the
   hypothesis it names if that has support, and its prose passes both checks.
   */
  lemma {:induction false} AcceptedIff(prose: Prose, payload: Payload, analysis: Analysis)
    ensures
      var items, selected, known := RawCitations(payload), Selected(prose, payload), SignalIds(analysis);
      var text :=
        StrOrEmpty(prose, Get(payload, "root_cause", Null)) + " "
          + StrOrEmpty(prose, Get(payload, "explanation", Null));
      Validate(prose, payload, analysis).Valid() <==>
      && Strip(StrOrEmpty(prose, Get(payload, "root_cause", Null))) != ""
      && (selected.Some? ==> exists h :: h in analysis.hypotheses && h.id == selected.value)
      && (analysis.signals != [] ==> CitesOneOf(prose, items, known))
      && (selected.Some? && CitesOneOf(prose, items, known) ==>
            var h := FindHypothesis(analysis.hypotheses, selected.value);
            h.Some? &&
            (h.value.supporting != [] ==> CitesOneOf(prose, items, known * set id | id in h.value.supporting)))
      && !prose.contradicts(text, analysis)
      && !prose.invents(text, analysis)
  {
    var items, selected, known := RawCitations(payload), Selected(prose, payload), SignalIds(analysis);
    var cited := Cited(prose, payload, analysis);
    CitedIff(prose, items, known);
    if selected.Some? {
      FoundHypothesis(analysis.hypotheses, selected.value);
      var h := FindHypothesis(analysis.hypotheses, selected.value);
      if h.Some? {
        CitedAmong(prose, items, known, set id | id in h.value.supporting);
      }
    }
    hide Strip, Selected, Str, StrOrEmpty, CitesOneOf, Distinct, Sift, Claims, FindHypothesis, SignalIds, RawCitations;
  }

  lemma {:induction false} CitedIff(prose: Prose, items: seq<Json>, known: set<string>)
    ensures Distinct(Sift(Claims(prose, items), known, true)) != [] <==> CitesOneOf(prose, items, known)
  {
    CitedAmong(prose, items, known, known);
    assert known * known == known;
    var cited := Distinct(Sift(Claims(prose, items), known, true));
    PartitionIsSound(Claims(prose, items), known);
    assert cited != [] ==> cited[0] in cited;
    hide Distinct, Sift, Claims, CitesOneOf, InOrderOf;
  }

  lemma {:induction false} CitedAmong(prose: Prose, items: seq<Json>, known: set<string>, some: set<string>)
    ensures (exists c :: c in Distinct(Sift(Claims(prose, items), known, true)) && c in some)
            <==> CitesOneOf(prose, items, known * some)
  {
    PartitionIsSound(Claims(prose, items), known);
    var cited := Distinct(Sift(Claims(prose, items), known, true));
    hide Distinct, Sift, InOrderOf, Strip, Str;
    if c :| c in cited && c in some {
      ClaimsAre(prose, items, c);
    }
    if k :| 0 <= k < |items| && Strip(Str(prose, items[k])) != "" && Strip(Str(prose, items[k])) in known * some {
      ClaimsAre(prose, items, Strip(Str(prose, items[k])));
      assert Strip(Str(prose, items[k])) in cited;
    }
  }
}
