/** Which answers of a model are accepted, and why the others are not, in terms of what an answer holds. */
module AcceptanceProofs {
  import opened Prelude
  import opened Text
  import opened AnalysisEngine
  import opened Grounding

  // ----------------------------------------------------------- what is said

  /** The text under a key: a string as it is, any other truthy value as it is shown, nothing otherwise. */
  function Said(prose: Prose, payload: Payload, key: string): string {
    if key !in payload then ""
    else
      match payload[key]
      case Text(s) => s
      case Null => ""
      case List(items) => if |items| > 0 then prose.show(payload[key]) else ""
      case Other(truth) => if truth then prose.show(payload[key]) else ""
  }

  lemma {:induction false} SaidIs(prose: Prose, payload: Payload, key: string)
    ensures StrOrEmpty(prose, Get(payload, key, Null)) == Said(prose, payload, key)
  {
  }

  /** The hypothesis an answer names, if it names one. */
  function NamedBy(prose: Prose, payload: Payload): Option<string> {
    var id := Strip(Said(prose, payload, "selected_hypothesis"));
    if id in {"", "null", "none", "None"} then None else Some(id)
  }

  lemma {:induction false} NamedIs(prose: Prose, payload: Payload)
    ensures Selected(prose, payload) == NamedBy(prose, payload)
  {
    StripNothing();
    hide Strip;
  }

  lemma {:induction false} StripNothing()
    ensures Strip("") == ""
  {
  }

  /** The answer cites one of these signals: alone as a string, or in a list. */
  predicate Cites(prose: Prose, payload: Payload, ids: set<string>) {
    "cited_signals" in payload &&
    match payload["cited_signals"]
    case Text(s) => Strip(s) != "" && Strip(s) in ids
    case List(items) =>
      exists k :: 0 <= k < |items| &&
        Strip(if items[k].Text? then items[k].text else prose.show(items[k])) in ids - {""}
    case _ => false
  }

  lemma {:induction false} CitesIff(prose: Prose, payload: Payload, ids: set<string>)
    ensures CitesOneOf(prose, RawCitations(payload), ids) <==> Cites(prose, payload, ids)
  {
    hide Strip;
    var items := RawCitations(payload);
    if "cited_signals" in payload && payload["cited_signals"].Text? {
      assert items == [payload["cited_signals"]];
      assert Str(prose, items[0]) == payload["cited_signals"].text;
    }
  }

  // --------------------------------------------------------------- verdicts

  /** The analysis holds a hypothesis of this id, and the answer cites some of its support, if it has any. */
  predicate Supported(prose: Prose, payload: Payload, analysis: Analysis, id: string) {
    var h := FindHypothesis(analysis.hypotheses, id);
    h.Some? &&
    (h.value.supporting != [] ==> Cites(prose, payload, SignalIds(analysis) * set s | s in h.value.supporting))
  }

  /** The questions validate asks, in order. */
  function Questions(prose: Prose, payload: Payload, analysis: Analysis): seq<bool> {
    var named, known := NamedBy(prose, payload), SignalIds(analysis);
    var text := Said(prose, payload, "root_cause") + " " + Said(prose, payload, "explanation");
    [ Strip(Said(prose, payload, "root_cause")) != "",
      named.Some? ==> exists h :: h in analysis.hypotheses && h.id == named.value,
      analysis.signals != [] ==> Cites(prose, payload, known),
      !prose.contradicts(text, analysis),
      named.Some? && Cites(prose, payload, known) ==> Supported(prose, payload, analysis, named.value),
      !prose.invents(text, analysis) ]
  }

  /** An answer is rejected for the first question it fails, and accepted when it fails none. */
  lemma {:induction false} RejectedForTheFirst(prose: Prose, payload: Payload, analysis: Analysis)
    ensures
      var q := Questions(prose, payload, analysis);
      var rejection := Validate(prose, payload, analysis).rejection;
      && (rejection == Some(NoRootCause) <==> !q[0])
      && (rejection.Some? && rejection.value.UnknownHypothesis? <==> q[0] && !q[1])
      && (rejection == Some(NoValidCitation) <==> q[0] && q[1] && !q[2])
      && (rejection == Some(Contradiction) <==> q[0] && q[1] && q[2] && !q[3])
      && (rejection.Some? && rejection.value.IrrelevantCitations? <==> q[0] && q[1] && q[2] && q[3] && !q[4])
      && (rejection == Some(InventedResource) <==> q[0] && q[1] && q[2] && q[3] && q[4] && !q[5])
      && (rejection.None? <==> q[0] && q[1] && q[2] && q[3] && q[4] && q[5])
      && (rejection.None? ==> Validate(prose, payload, analysis).selected == NamedBy(prose, payload))
  {
    hide Strip, Said, StrOrEmpty, Selected, NamedBy, Cites, Cited, RejectedCitations, IgnoresSelection, FindHypothesis,
      SignalIds, Get, Supported;
    SaidIs(prose, payload, "root_cause");
    SaidIs(prose, payload, "explanation");
    NamedIs(prose, payload);
    CitedNothingIff(prose, payload, analysis);
    var named := NamedBy(prose, payload);
    if named.Some? {
      FoundHypothesis(analysis.hypotheses, named.value);
      if FindHypothesis(analysis.hypotheses, named.value).Some? {
        IgnoresIff(prose, payload, analysis, named.value);
      }
    } else {
      NothingIgnored(prose, payload, analysis);
    }
  }

  lemma {:induction false} CitedNothingIff(prose: Prose, payload: Payload, analysis: Analysis)
    ensures Cited(prose, payload, analysis) != [] <==> Cites(prose, payload, SignalIds(analysis))
  {
    CitedIff(prose, RawCitations(payload), SignalIds(analysis));
    CitesIff(prose, payload, SignalIds(analysis));
    hide Distinct, Sift, Claims, CitesOneOf, RawCitations, Cites, SignalIds;
  }

  lemma {:induction false} IgnoresIff(prose: Prose, payload: Payload, analysis: Analysis, id: string)
    requires FindHypothesis(analysis.hypotheses, id).Some?
    ensures IgnoresSelection(Cited(prose, payload, analysis), Some(id), analysis) <==>
              Cites(prose, payload, SignalIds(analysis)) && !Supported(prose, payload, analysis, id)
  {
    var h := FindHypothesis(analysis.hypotheses, id).value;
    var support := set s | s in h.supporting;
    assert forall c :: c in support <==> c in h.supporting;
    CitedNothingIff(prose, payload, analysis);
    CitedAmong(prose, RawCitations(payload), SignalIds(analysis), support);
    CitesIff(prose, payload, SignalIds(analysis) * support);
    hide Distinct, Sift, Claims, CitesOneOf, RawCitations, Cites, SignalIds, FindHypothesis;
    var cited := Cited(prose, payload, analysis);
    assert (exists c :: c in cited && c in support) <==> !(forall c :: c in cited ==> c !in h.supporting);
  }

  lemma {:induction false} NothingIgnored(prose: Prose, payload: Payload, analysis: Analysis)
    ensures !IgnoresSelection(Cited(prose, payload, analysis), None, analysis)
  {
  }
}
