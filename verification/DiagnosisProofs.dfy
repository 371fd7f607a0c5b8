/** What of a model's answer a diagnosis shows, and what it shows without one. */
module DiagnosisProofs {
  import opened Prelude
  import opened Text
  import opened Signals
  import opened AnalysisEngine
  import opened Grounding
  import opened Remediation
  import opened RootCause

  /** The answer says something under a key. */
  predicate Says(payload: Payload, key: string) {
    key in payload &&
    match payload[key]
    case Null => false
    case Text(s) => s != ""
    case List(items) => |items| > 0
    case Other(truth) => truth
  }

  /** A list of texts as the answer gives it: a list, each member as a string, or one text that is not blank. */
  predicate ListsAs(prose: Prose, payload: Payload, key: string, shown: seq<string>, otherwise: seq<string>) {
    if key in payload && payload[key].List? then
      |shown| == |payload[key].items| &&
      forall k :: 0 <= k < |shown| ==>
        var item := payload[key].items[k];
        shown[k] == if item.Text? then item.text else prose.show(item)
    else if key in payload && payload[key].Text? && Strip(payload[key].text) != "" then shown == [payload[key].text]
    else shown == otherwise
  }

  /** The confidence an answer states, where it can be read as a number. */
  function OwnConfidence<I(!new)>(s: Services<I>, payload: Payload, plain: Diagnosis): int {
    var stated := s.toInt(if "confidence" in payload then payload["confidence"] else Null);
    if stated.Some? then stated.value else plain.confidence
  }

  lemma {:induction false} OrIs(payload: Payload, key: string, otherwise: Json)
    ensures Or(Get(payload, key, Null), otherwise) == if Says(payload, key) then payload[key] else otherwise
  {
  }

  lemma {:induction false} ListIs(prose: Prose, payload: Payload, key: string, otherwise: seq<string>)
    ensures ListsAs(prose, payload, key, StringList(prose, Get(payload, key, Null), otherwise), otherwise)
  {
    hide Strip;
  }

  lemma {:induction false} AcceptedSaysWhy(prose: Prose, payload: Payload, analysis: Analysis)
    requires Validate(prose, payload, analysis).Valid()
    ensures Says(payload, "root_cause")
  {
    AcceptedIff(prose, payload, analysis);
    BlankIsBlank();
    hide Strip, Selected, CitesOneOf, SignalIds, FindHypothesis, RawCitations, Validate;
  }

  lemma {:induction false} BlankIsBlank()
    ensures Strip("") == ""
  {
  }

  /**
   An accepted answer supplies the words: its own root cause always, and its own
   explanation, fix, prevention, gaps, steps and reasons where it gives any. The
   rest is what the platform says of the same hypothesis by itself; and the
   confidence is scored from the answer's, or else from the platform's.
   */
  lemma {:induction false} ModelSuppliesWords<I(!new)>(s: Services<I>, investigation: I, analysis: Analysis,
                                                       result: LlmResult)
    requires Accepted(s, analysis, result).Some?
    ensures
      var p := Accepted(s, analysis, result).value;
      var d := Diagnose(s, investigation, analysis, result);
      var plain := Fallback(s, investigation, analysis, "", Chosen(s, analysis, result));
      && "root_cause" in p && d.rootCause == p["root_cause"] && d.aiGenerated
      && d.explanation == (if Says(p, "explanation") then p["explanation"] else plain.explanation)
      && d.fix == (if Says(p, "fix") then p["fix"] else plain.fix)
      && d.prevention == (if Says(p, "prevention") then p["prevention"] else plain.prevention)
      && ListsAs(s.prose, p, "evidence_gaps", d.evidenceGaps, plain.evidenceGaps)
      && ListsAs(s.prose, p, "next_steps", d.nextSteps, plain.nextSteps)
      && ListsAs(s.prose, p, "confidence_reasoning", d.confidenceReasoning, plain.confidenceReasoning)
      && (d.confidence, d.confidenceBreakdown)
         == s.score(analysis, investigation, Some(OwnConfidence(s, p, plain)), None)
  {
    var p := Accepted(s, analysis, result).value;
    var plain := Fallback(s, investigation, analysis, "", Chosen(s, analysis, result));
    AcceptedSaysWhy(s.prose, p, analysis);
    NormalizedOnChosen(s, investigation, analysis, result);
    OrIs(p, "root_cause", plain.rootCause);
    OrIs(p, "explanation", plain.explanation);
    OrIs(p, "fix", plain.fix);
    OrIs(p, "prevention", plain.prevention);
    ListIs(s.prose, p, "evidence_gaps", plain.evidenceGaps);
    ListIs(s.prose, p, "next_steps", plain.nextSteps);
    ListIs(s.prose, p, "confidence_reasoning", plain.confidenceReasoning);
    hide Fallback, Accepted, Chosen, Diagnose, Normalize, Or, StringList, Get, ListsAs, Validate;
  }

  lemma {:induction false} NormalizedOnChosen<I(!new)>(s: Services<I>, investigation: I, analysis: Analysis,
                                                       result: LlmResult)
    requires Accepted(s, analysis, result).Some?
    ensures
      var p := Accepted(s, analysis, result).value;
      var d := Diagnose(s, investigation, analysis, result);
      var plain := Fallback(s, investigation, analysis, "", Chosen(s, analysis, result));
      && Validate(s.prose, p, analysis).Valid() && d.aiGenerated
      && d.rootCause == Or(Get(p, "root_cause", Null), plain.rootCause)
      && d.explanation == Or(Get(p, "explanation", Null), plain.explanation)
      && d.fix == Or(Get(p, "fix", Null), plain.fix)
      && d.prevention == Or(Get(p, "prevention", Null), plain.prevention)
      && d.evidenceGaps == StringList(s.prose, Get(p, "evidence_gaps", Null), plain.evidenceGaps)
      && d.nextSteps == StringList(s.prose, Get(p, "next_steps", Null), plain.nextSteps)
      && d.confidenceReasoning == StringList(s.prose, Get(p, "confidence_reasoning", Null), plain.confidenceReasoning)
      && (d.confidence, d.confidenceBreakdown)
         == s.score(analysis, investigation, Some(OwnConfidence(s, p, plain)), None)
  {
    hide Validate, Selected, Fallback, Or, StringList, EvidenceOf, Distinct, Normalize, FindHypothesis, OwnConfidence;
    var p := Accepted(s, analysis, result).value;
    ValidSelects(s.prose, p, analysis);
    AcceptedIsGrounded(s.prose, p, analysis);
    TopIsDefault(s, investigation, analysis);
    NormalizedWords(s, p, investigation, analysis, Validate(s.prose, p, analysis));
  }

  lemma {:induction false} NormalizedWords<I(!new)>(s: Services<I>, p: Payload, investigation: I, analysis: Analysis,
                                                    g: GroundingResult)
    ensures
      var h := if g.selected.Some? then FindHypothesis(analysis.hypotheses, g.selected.value) else None;
      var plain := Fallback(s, investigation, analysis, "", h);
      var d := Normalize(s, p, investigation, analysis, g);
      && d.aiGenerated
      && d.rootCause == Or(Get(p, "root_cause", Null), plain.rootCause)
      && d.explanation == Or(Get(p, "explanation", Null), plain.explanation)
      && d.fix == Or(Get(p, "fix", Null), plain.fix)
      && d.prevention == Or(Get(p, "prevention", Null), plain.prevention)
      && d.evidenceGaps == StringList(s.prose, Get(p, "evidence_gaps", Null), plain.evidenceGaps)
      && d.nextSteps == StringList(s.prose, Get(p, "next_steps", Null), plain.nextSteps)
      && d.confidenceReasoning == StringList(s.prose, Get(p, "confidence_reasoning", Null), plain.confidenceReasoning)
      && (d.confidence, d.confidenceBreakdown)
         == s.score(analysis, investigation, Some(OwnConfidence(s, p, plain)), None)
  {
    hide Fallback, Or, StringList, EvidenceOf, Distinct, FindHypothesis;
  }

  /** Without a hypothesis to speak of, the platform speaks of the leading one. */
  lemma {:induction false} TopIsDefault<I(!new)>(s: Services<I>, investigation: I, analysis: Analysis)
    ensures Fallback(s, investigation, analysis, "", None) == Fallback(s, investigation, analysis, "", Top(analysis))
  {
    hide Vetted, Explanation, ConfidenceReasoning, Distinct, EvidenceOf, PlanOf, RecommendationOf, ReviewPlan,
      ToLegacyRisk;
  }

  /** What is shown when no answer was accepted: nothing of it but, in the explanation, the client's error. */
  lemma {:induction false} WithoutAnswer<I(!new)>(s: Services<I>, investigation: I, analysis: Analysis,
                                                  result: LlmResult)
    requires Accepted(s, analysis, result).None?
    ensures
      var d := Diagnose(s, investigation, analysis, result);
      var plain := Fallback(s, investigation, analysis, "", Top(analysis));
      && !d.aiGenerated && d.rootCause == Json.Text(s.summary(investigation, analysis))
      && d.explanation.Text? && plain.explanation.Text?
      && d.explanation.text ==
           plain.explanation.text + (if result.error == "" then "" else " OpenAI status: " + result.error)
      && d.(explanation := plain.explanation) == plain
  {
    hide Explanation, Fallback;
    TopIsDefault(s, investigation, analysis);
    ErrorIsAppended(s, analysis, result.error);
    OnlyExplains(s, investigation, analysis, result.error);
  }

  lemma {:induction false} ErrorIsAppended<I(!new)>(s: Services<I>, analysis: Analysis, error: string)
    ensures Explanation(s, analysis, error)
            == Explanation(s, analysis, "") + (if error == "" then "" else " OpenAI status: " + error)
  {
    var about := Explanation(s, analysis, "");
    ExplanationWith(s, analysis, error);
    hide Explanation;
    assert about + " OpenAI status: " + error == about + (" OpenAI status: " + error) && about + "" == about;
  }

  lemma {:induction false} ExplanationWith<I(!new)>(s: Services<I>, analysis: Analysis, error: string)
    ensures error != "" ==> Explanation(s, analysis, error) == Explanation(s, analysis, "") + " OpenAI status: " + error
  {
  }

  lemma {:induction false} OnlyExplains<I(!new)>(s: Services<I>, investigation: I, analysis: Analysis, error: string)
    ensures
      var d, plain := Fallback(s, investigation, analysis, error, None), Fallback(s, investigation, analysis, "", None);
      && d.(explanation := plain.explanation) == plain && !d.aiGenerated
      && d.explanation == Json.Text(Explanation(s, analysis, error))
      && plain.explanation == Json.Text(Explanation(s, analysis, ""))
      && d.rootCause == Json.Text(s.summary(investigation, analysis))
  {
    hide Vetted, Explanation, ConfidenceReasoning, Distinct, EvidenceOf, PlanOf, RecommendationOf, ReviewPlan,
      ToLegacyRisk;
  }

  /**
   What the platform says by itself about a hypothesis: its own hint, or else the
   recommended fix, and its own support. The explanation and the reasons are
   always those of the leading hypothesis, whichever one it speaks of.
   */
  lemma {:induction false} PlainWords<I(!new)>(s: Services<I>, investigation: I, analysis: Analysis, h: Hypothesis)
    requires analysis.hypotheses != []
    ensures
      var plain, top := Fallback(s, investigation, analysis, "", Some(h)), analysis.hypotheses[0];
      && plain.explanation == Json.Text(top.rationale + " This conclusion is supported by "
                                        + s.decimal(|top.supporting|)
                                        + " signal(s) extracted from collected evidence.")
      && plain.confidenceReasoning ==
           ["Hypothesis '" + top.title + "' matched " + s.decimal(|top.supporting|) + " signal(s)."]
           + s.investigationScore(investigation).1
      && plain.fix == Json.Text(if h.remediationHint != "" then h.remediationHint
                                else RecommendationOf(s, investigation, analysis, Some(h)).fix)
      && plain.selected == Some(h.id) && plain.cited == h.supporting
      && (plain.confidence, plain.confidenceBreakdown) ==
           s.score(analysis, investigation, None, Some(s.investigationScore(investigation).0))
  {
    hide Vetted, Distinct, EvidenceOf, PlanOf, ReviewPlan, ToLegacyRisk, RecommendationOf;
  }

  /** And when no pattern matched at all. */
  lemma {:induction false} PlainWordsOfNothing<I(!new)>(s: Services<I>, investigation: I, analysis: Analysis)
    requires analysis.hypotheses == []
    ensures
      var plain := Fallback(s, investigation, analysis, "", None);
      && plain.explanation == Json.Text("The diagnosis was generated from collected Kubernetes evidence. "
                                        + "No failure pattern matched the observed signals.")
      && plain.fix == Json.Text(s.wording.fix(s.healthy(investigation)))
      && plain.confidenceReasoning == s.investigationScore(investigation).1
      && plain.selected == None && plain.cited == [] && plain.remediation == None && plain.patches == []
      && plain.remediationRisk == s.riskWithoutPlan(investigation)
  {
    hide Vetted, Distinct, EvidenceOf, ReviewPlan, GenericCommands;
  }
}
