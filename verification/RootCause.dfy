/** From an analysis and a model's answer to one diagnosis. */
module RootCause {
  import opened Prelude
  import opened Text
  import opened Signals
  import opened HypothesisRules
  import opened AnalysisEngine
  import opened CommandPolicy
  import opened Grounding
  import opened Remediation
  import RuleProofs
  import EngineProofs

  const CHANGES_STATE := "   # CHANGES STATE - review before running"

  /** A dictionary as it is rendered. */
  type Record = string

  /** The collaborators whose own workings are not modelled; I is an investigation. */
  datatype Services<!I(!new)> = Services(
    prose: Prose,
    parse: string -> Option<Payload>,
    rule: (Hypothesis, Analysis, I) -> RuleOutcome,
    outstanding: (Hypothesis, I) -> seq<string>,
    wording: Wording,
    healthy: I -> bool,
    investigationScore: I -> (int, seq<string>),
    toInt: Json -> Option<int>,
    decimal: nat -> string,
    score: (Analysis, I, Option<int>, Option<int>) -> (int, seq<Record>),
    summary: (I, Analysis) -> string,
    gaps: (I, Analysis, Option<Hypothesis>) -> seq<string>,
    severityIsHealthy: I -> bool,
    riskWithoutPlan: I -> LegacyRisk,
    selectionRationale: (Analysis, Option<Hypothesis>) -> Record)

  datatype LlmResult = LlmResult(success: bool, content: string, error: string)

  datatype Diagnosis = Diagnosis(
    rootCause: Json,
    explanation: Json,
    fix: Json,
    kubectlCommands: seq<string>,
    prevention: Json,
    evidenceGaps: seq<string>,
    nextSteps: seq<string>,
    confidence: int,
    confidenceReasoning: seq<string>,
    confidenceBreakdown: seq<Record>,
    remediationRisk: LegacyRisk,
    remediationPlan: LegacyPlan,
    remediation: Option<Plan>,
    patches: seq<string>,
    signals: seq<Signal>,
    hypotheses: seq<Hypothesis>,
    selectionRationale: Record,
    selected: Option<string>,
    cited: seq<string>,
    citedEvidence: seq<string>,
    grounding: GroundingResult,
    aiGenerated: bool)

  // ---------------------------------------------------------------- commands

  function Vetted(commands: seq<string>): seq<string> {
    if commands == [] then []
    else
      var n := |commands| - 1;
      Vetted(commands[..n]) +
      match ClassifyCommand(commands[n])
      case Unrecognised => []
      case Mutating => [commands[n] + CHANGES_STATE]
      case ReadOnly => [commands[n]]
  }

  method VettedCommands(commands: seq<string>) returns (vetted: seq<string>)
    ensures vetted == Vetted(commands)
  {
    vetted := [];
    for k := 0 to |commands|
      invariant vetted == Vetted(commands[..k])
    {
      assert commands[..k + 1][..k] == commands[..k];
      var verdict := ClassifyCommand(commands[k]);
      if verdict == Unrecognised {
        continue;
      }
      if verdict == Mutating {
        vetted := vetted + [commands[k] + CHANGES_STATE];
      } else {
        vetted := vetted + [commands[k]];
      }
    }
    assert commands[..|commands|] == commands;
  }

  /** What a command may be shown as: itself if it only reads, marked if it changes state. */
  predicate ShownAs(command: string, shown: string) {
    match ClassifyCommand(command)
    case Unrecognised => false
    case Mutating => shown == command + CHANGES_STATE
    case ReadOnly => shown == command
  }

  /** Exactly the recognised commands are offered, each as it may be shown, in order. */
  lemma {:induction false} VettedAreRecognised(a: seq<string>, b: seq<string>, shown: string)
    ensures shown in Vetted(a) <==> exists k :: 0 <= k < |a| && ShownAs(a[k], shown)
    ensures Vetted(a + b) == Vetted(a) + Vetted(b)
    decreases |a| + |b|
  {
    hide ClassifyCommand;
    if b != [] {
      var n := |b| - 1;
      VettedAreRecognised(a, b[..n], shown);
      assert (a + b)[..|a| + n] == a + b[..n];
    } else {
      assert a + b == a;
      if a != [] {
        var n := |a| - 1;
        VettedAreRecognised(a[..n], [], shown);
        if k :| 0 <= k < |a| && ShownAs(a[k], shown) {
          assert k < n ==> a[..n][k] == a[k];
        }
        if k :| 0 <= k < n && ShownAs(a[..n][k], shown) {
          assert a[k] == a[..n][k];
        }
      }
    }
  }

  // ---------------------------------------------------------------- evidence

  function FindSignal(signals: seq<Signal>, id: string): Option<Signal> {
    if signals == [] then None
    else if signals[0].id == id then Some(signals[0])
    else FindSignal(signals[1..], id)
  }

  /** The evidence of each signal found, in order, repeats and all. */
  function EvidenceOf(signals: seq<Signal>, ids: seq<string>): seq<string> {
    if ids == [] then []
    else
      var n := |ids| - 1;
      var signal := FindSignal(signals, ids[n]);
      EvidenceOf(signals, ids[..n]) + if signal.Some? then signal.value.evidenceIds else []
  }

  lemma {:induction false} OneMoreDistinct(before: seq<string>, evidence: seq<string>, m: nat)
    requires m < |evidence|
    ensures
      var seen := Distinct(before + evidence[..m]);
      Distinct(before + evidence[..m + 1]) == if evidence[m] in seen then seen else seen + [evidence[m]]
  {
    assert (before + evidence[..m + 1])[..|before| + m] == before + evidence[..m];
  }

  lemma {:induction false} OneMoreId(signals: seq<Signal>, ids: seq<string>, k: nat)
    requires k < |ids|
    ensures
      var signal := FindSignal(signals, ids[k]);
      EvidenceOf(signals, ids[..k + 1])
      == EvidenceOf(signals, ids[..k]) + if signal.Some? then signal.value.evidenceIds else []
  {
    assert ids[..k + 1][..k] == ids[..k];
    hide FindSignal;
  }

  /** evidence_ids_for: two loops and a list without repeats. */
  method EvidenceIdsFor(signals: seq<Signal>, ids: seq<string>) returns (seen: seq<string>)
    ensures seen == Distinct(EvidenceOf(signals, ids))
  {
    seen := [];
    assert EvidenceOf(signals, ids[..0]) == [] && Distinct([]) == [];
    hide Distinct, EvidenceOf, FindSignal;
    for k := 0 to |ids|
      invariant seen == Distinct(EvidenceOf(signals, ids[..k]))
    {
      OneMoreId(signals, ids, k);
      ghost var before := EvidenceOf(signals, ids[..k]);
      var signal := FindSignal(signals, ids[k]);
      if signal.None? {
        assert before + [] == before;
        continue;
      }
      var evidence := signal.value.evidenceIds;
      assert before + evidence[..0] == before;
      for m := 0 to |evidence|
        invariant seen == Distinct(before + evidence[..m])
      {
        OneMoreDistinct(before, evidence, m);
        if evidence[m] !in seen {
          seen := seen + [evidence[m]];
        }
      }
      assert evidence[..|evidence|] == evidence;
    }
    assert ids[..|ids|] == ids;
  }

  // --------------------------------------------------------------- diagnoses

  function Top(analysis: Analysis): Option<Hypothesis> {
    if analysis.hypotheses == [] then None else Some(analysis.hypotheses[0])
  }

  /** The explanation built without a model: always about the leading hypothesis. */
  function Explanation<I(!new)>(s: Services<I>, analysis: Analysis, error: string): string {
    var about :=
      match Top(analysis)
      case Some(top) =>
        top.rationale + " This conclusion is supported by " + s.decimal(|top.supporting|) +
        " signal(s) extracted from collected evidence."
      case None =>
        "The diagnosis was generated from collected Kubernetes evidence. " +
        "No failure pattern matched the observed signals.";
    if error != "" then about + " OpenAI status: " + error else about
  }

  function ConfidenceReasoning<I(!new)>(s: Services<I>, analysis: Analysis, reasons: seq<string>): seq<string> {
    match Top(analysis)
    case None => reasons
    case Some(top) =>
      ["Hypothesis '" + top.title + "' matched " + s.decimal(|top.supporting|) + " signal(s)."] + reasons
  }

  function StringList(prose: Prose, value: Json, default: seq<string>): seq<string> {
    match value
    case List(items) => seq(|items|, k requires 0 <= k < |items| => Str(prose, items[k]))
    case Text(s) => if Strip(s) != "" then [s] else default
    case _ => default
  }

  /** value or default */
  function Or(value: Json, default: Json): Json {
    if Truthy(value) then value else default
  }

  /** The planner's plan: there is one whenever there is a hypothesis to plan for. */
  function PlanOf<I(!new)>(s: Services<I>, investigation: I, analysis: Analysis, h: Option<Hypothesis>): Option<Plan> {
    if h.None? then None
    else
      var outstanding := s.outstanding(h.value, investigation);
      Some(PlanFor(s.wording, s.rule(h.value, analysis, investigation), h.value, outstanding))
  }

  function RecommendationOf<I(!new)>(s: Services<I>, investigation: I, analysis: Analysis, h: Option<Hypothesis>)
    : Recommendation
  {
    Recommend(s.wording, s.healthy(investigation), h, PlanOf(s, investigation, analysis, h))
  }

  /** The plan shown for review. */
  function ReviewPlan<I(!new)>(s: Services<I>, investigation: I, analysis: Analysis,
                               h: Option<Hypothesis>)
    : LegacyPlan
  {
    var plan := PlanOf(s, investigation, analysis, h);
    if plan.Some? then ToLegacyPlan(plan.value)
    else
      var commands := RecommendationOf(s, investigation, analysis, h).commands;
      WithoutPlan(s.wording, s.severityIsHealthy(investigation), commands)
  }

  function Fallback<I(!new)>(s: Services<I>, investigation: I, analysis: Analysis, error: string,
                             hypothesis: Option<Hypothesis>): Diagnosis
  {
    var top := if hypothesis.Some? then hypothesis else Top(analysis);
    var plan := PlanOf(s, investigation, analysis, top);
    var recommendation := RecommendationOf(s, investigation, analysis, top);
    var (deterministic, reasons) := s.investigationScore(investigation);
    var (confidence, components) := s.score(analysis, investigation, None, Some(deterministic));
    var cited := if top.Some? then top.value.supporting else [];
    var selected := if top.Some? then Some(top.value.id) else None;
    Diagnosis(
      Json.Text(s.summary(investigation, analysis)),
      Json.Text(Explanation(s, analysis, error)),
      Json.Text(if top.Some? && top.value.remediationHint != "" then top.value.remediationHint else recommendation.fix),
      Vetted(recommendation.commands),
      Json.Text(recommendation.prevention),
      s.gaps(investigation, analysis, top),
      recommendation.nextSteps,
      confidence,
      ConfidenceReasoning(s, analysis, reasons),
      components,
      if plan.Some? then ToLegacyRisk(plan.value.risk) else s.riskWithoutPlan(investigation),
      ReviewPlan(s, investigation, analysis, top),
      plan,
      if plan.Some? then plan.value.patches else [],
      analysis.signals,
      analysis.hypotheses,
      s.selectionRationale(analysis, top),
      selected,
      cited,
      Distinct(EvidenceOf(analysis.signals, cited)),
      GroundingResult(None, selected, cited, []),
      false)
  }

  function Normalize<I(!new)>(s: Services<I>, payload: Payload, investigation: I, analysis: Analysis,
                              grounding: GroundingResult): Diagnosis
  {
    var hypothesis :=
      if grounding.selected.Some? then FindHypothesis(analysis.hypotheses, grounding.selected.value) else None;
    var base := Fallback(s, investigation, analysis, "", hypothesis);
    var own := s.toInt(Get(payload, "confidence", Null));
    var (confidence, components) :=
      s.score(analysis, investigation, Some(if own.Some? then own.value else base.confidence), None);
    var cited := if grounding.cited != [] then grounding.cited else base.cited;
    base.(
      rootCause := Or(Get(payload, "root_cause", Null), base.rootCause),
      explanation := Or(Get(payload, "explanation", Null), base.explanation),
      fix := Or(Get(payload, "fix", Null), base.fix),
      prevention := Or(Get(payload, "prevention", Null), base.prevention),
      evidenceGaps := StringList(s.prose, Get(payload, "evidence_gaps", Null), base.evidenceGaps),
      nextSteps := StringList(s.prose, Get(payload, "next_steps", Null), base.nextSteps),
      confidence := confidence,
      confidenceReasoning := StringList(s.prose, Get(payload, "confidence_reasoning", Null), base.confidenceReasoning),
      confidenceBreakdown := components,
      selected := if grounding.selected.Some? then grounding.selected else base.selected,
      cited := cited,
      citedEvidence := Distinct(EvidenceOf(analysis.signals, cited)),
      grounding := grounding,
      aiGenerated := true)
  }

  /** The payload of a response that parsed and was accepted. */
  function Accepted<I(!new)>(s: Services<I>, analysis: Analysis, result: LlmResult): Option<Payload> {
    if !result.success then None
    else
      var parsed := s.parse(result.content);
      if parsed.Some? && Validate(s.prose, parsed.value, analysis).Valid() then parsed else None
  }

  /** RootCauseAnalyzer.analyze, once the analysis and the model's answer are at hand. */
  function Diagnose<I(!new)>(s: Services<I>, investigation: I, analysis: Analysis, result: LlmResult): Diagnosis {
    var payload := Accepted(s, analysis, result);
    if payload.Some? then
      Normalize(s, payload.value, investigation, analysis, Validate(s.prose, payload.value, analysis))
    else Fallback(s, investigation, analysis, result.error, None)
  }

  // --------------------------------------------------- what a model may change

  /** The part of a diagnosis that tells an operator what to do. */
  datatype Remedy = Remedy(
    commands: seq<string>,
    risk: LegacyRisk,
    plan: LegacyPlan,
    remediation: Option<Plan>,
    patches: seq<string>,
    signals: seq<Signal>,
    hypotheses: seq<Hypothesis>,
    rationale: Record)

  function RemedyOf(d: Diagnosis): Remedy {
    Remedy(d.kubectlCommands, d.remediationRisk, d.remediationPlan, d.remediation, d.patches,
           d.signals, d.hypotheses, d.selectionRationale)
  }

  /** The hypothesis found under the id a diagnosis reports. */
  function Reported(analysis: Analysis, d: Diagnosis): Option<Hypothesis> {
    if d.selected.None? then None else FindHypothesis(analysis.hypotheses, d.selected.value)
  }

  /** The hypothesis an answer chooses: the one an accepted answer names, or else the leading one. */
  function Chosen<I(!new)>(s: Services<I>, analysis: Analysis, result: LlmResult): Option<Hypothesis> {
    var payload := Accepted(s, analysis, result);
    var named := if payload.Some? then Selected(s.prose, payload.value) else None;
    if named.Some? then FindHypothesis(analysis.hypotheses, named.value) else Top(analysis)
  }

  /** A diagnosis reports a hypothesis whenever there is one, and its remedy is built for that hypothesis. */
  lemma {:induction false} RemedyIsForReported<I(!new)>(s: Services<I>, investigation: I, analysis: Analysis,
                                                        result: LlmResult)
    ensures
      var d := Diagnose(s, investigation, analysis, result);
      var h := Reported(analysis, d);
      && (h.Some? <==> analysis.hypotheses != [])
      && (h.Some? <==> d.selected.Some?)
      && (h.Some? ==> h.value in analysis.hypotheses && h.value.id == d.selected.value)
      && RemedyOf(d) == RemedyOf(Fallback(s, investigation, analysis, "", h))
      && d.remediation == PlanOf(s, investigation, analysis, h)
      && d.remediationPlan == ReviewPlan(s, investigation, analysis, h)
      && d.kubectlCommands == Vetted(RecommendationOf(s, investigation, analysis, h).commands)
  {
    hide Vetted, EvidenceOf, Distinct, Explanation, ConfidenceReasoning, StringList, Or, Validate, Recommend, PlanOf,
      ReviewPlan, ToLegacyRisk;
    var d := Diagnose(s, investigation, analysis, result);
    var payload := Accepted(s, analysis, result);
    if payload.Some? {
      AcceptedIsGrounded(s.prose, payload.value, analysis);
    }
    if d.selected.Some? {
      FoundHypothesis(analysis.hypotheses, d.selected.value);
    }
  }

  /** What a diagnosis reports is settled by the answer and the analysis, before it is made. */
  lemma {:induction false} ReportedIsChosen<I(!new)>(s: Services<I>, investigation: I, analysis: Analysis,
                                                     result: LlmResult)
    ensures Reported(analysis, Diagnose(s, investigation, analysis, result)) == Chosen(s, analysis, result)
  {
    hide Vetted, EvidenceOf, Distinct, Explanation, ConfidenceReasoning, StringList, Or, Validate, Recommend, PlanOf,
      ReviewPlan, ToLegacyRisk, Selected;
    var payload := Accepted(s, analysis, result);
    if payload.Some? {
      AcceptedIsGrounded(s.prose, payload.value, analysis);
      ValidSelects(s.prose, payload.value, analysis);
    }
  }

  /** Two answers that lead to the same selection lead to the same remedy, whatever else they say. */
  lemma {:induction false} SameSelectionSameRemedy<I(!new)>(s: Services<I>, investigation: I, analysis: Analysis,
                                                            one: LlmResult, two: LlmResult)
    requires Diagnose(s, investigation, analysis, one).selected == Diagnose(s, investigation, analysis, two).selected
    ensures RemedyOf(Diagnose(s, investigation, analysis, one)) == RemedyOf(Diagnose(s, investigation, analysis, two))
  {
    RemedyIsForReported(s, investigation, analysis, one);
    RemedyIsForReported(s, investigation, analysis, two);
    hide Diagnose, Fallback, RemedyOf;
  }

  // ----------------------------------------------------------- what is not vetted

  /** The commands of the plan shown for review: these do not go through the vetting. */
  function Reviewed(d: Diagnosis): seq<string> {
    ShownForReview(d.remediationPlan)
  }

  /** When the plan shown for review only reads. */
  lemma {:induction false} ReviewPlanReads<I(!new)>(s: Services<I>, investigation: I, analysis: Analysis,
                                                    h: Option<Hypothesis>)
    ensures
      AllRead(ShownForReview(ReviewPlan(s, investigation, analysis, h))) <==>
      (h.Some? && s.rule(h.value, analysis, investigation).Builds? ==>
         var plan := s.rule(h.value, analysis, investigation).plan;
         AllRead(FirstThree(CommandsOf(plan.remediation))) && AllRead(CommandsOf(plan.rollback)))
  {
    hide AllRead, ShownForReview, ToLegacyPlan, WithoutPlan, GenericCommands, CommandsOf, FirstThree, DiagnosticPlan,
      ConfirmTarget;
    WithoutPlanReads(s.wording, s.severityIsHealthy(investigation));
    if h.Some? {
      DiagnosticPlanReads(s.wording, h.value, s.outstanding(h.value, investigation));
      LegacyPlanReads(PlanOf(s, investigation, analysis, h).value);
    }
  }

  /**
   The vetting promises that an operator is shown no unrecognised command and no
   unmarked mutating one. The plan shown for review escapes it, and keeps the
   promise exactly when no rule builds a plan for the hypothesis the answer
   chooses, or the rule's plan only reads: in the first three commands it
   remediates with, and in all it rolls back with.
   */
  lemma {:induction false} ReviewedAreNotVetted<I(!new)>(s: Services<I>, investigation: I, analysis: Analysis,
                                                         result: LlmResult)
    ensures
      var h := Chosen(s, analysis, result);
      AllRead(Reviewed(Diagnose(s, investigation, analysis, result))) <==>
      (h.Some? && s.rule(h.value, analysis, investigation).Builds? ==>
         var plan := s.rule(h.value, analysis, investigation).plan;
         AllRead(FirstThree(CommandsOf(plan.remediation))) && AllRead(CommandsOf(plan.rollback)))
  {
    hide AllRead, ShownForReview, CommandsOf, FirstThree, ReviewPlan, Diagnose, Reported, Chosen, Fallback, PlanOf;
    RemedyIsForReported(s, investigation, analysis, result);
    ReportedIsChosen(s, investigation, analysis, result);
    ReviewPlanReads(s, investigation, analysis, Chosen(s, analysis, result));
  }

  lemma {:induction false} MarkText()
    ensures |CHANGES_STATE| > 5
    ensures CHANGES_STATE[0] == CHANGES_STATE[1] == CHANGES_STATE[2] == CHANGES_STATE[4] == ' '
    ensures CHANGES_STATE[3] == '#' && CHANGES_STATE[|CHANGES_STATE| - 1] == 'g'
    ensures forall i :: 0 <= i < |CHANGES_STATE| ==> ' ' <= CHANGES_STATE[i] <= 'z'
  {
  }

  lemma {:induction false} Printable()
    ensures IsSpace(' ') && !IsSpace('g') && Unspaced("#")
    ensures forall c :: ' ' <= c <= 'z' ==> !IsLineBreak(c)
  {
  }

  lemma {:induction false} MarkIsRemark()
    ensures IsRemark(CHANGES_STATE)
  {
    hide Words, IsSpace, IsLineBreak, Unspaced, CHANGES_STATE;
    MarkText();
    Printable();
    var rest := CHANGES_STATE[4..];
    assert CHANGES_STATE == [' '] + ([' '] + ([' '] + ("#" + rest)));
    SkipSpace(' ', [' '] + ([' '] + ("#" + rest)));
    SkipSpace(' ', [' '] + ("#" + rest));
    SkipSpace(' ', "#" + rest);
    FirstWord("#", rest);
  }

  /** The vetting shows a mutating command marked exactly when it is among those it is given. */
  lemma {:induction false} MarkedIffGiven(commands: seq<string>, command: string)
    requires ClassifyCommand(command) == Mutating
    ensures command + CHANGES_STATE in Vetted(commands) <==> command in commands
  {
    hide ClassifyCommand, Vetted;
    MarkIsRemark();
    RemarkedStillMutates(command, CHANGES_STATE);
    VettedAreRecognised(commands, [], command + CHANGES_STATE);
    forall k | 0 <= k < |commands|
      ensures ShownAs(commands[k], command + CHANGES_STATE) <==> commands[k] == command
    {
      SameEnding(commands[k], command, CHANGES_STATE);
    }
  }

  lemma {:induction false} SameEnding(a: string, b: string, ending: string)
    ensures a + ending == b + ending <==> a == b
  {
    if a + ending == b + ending {
      assert a == (a + ending)[..|a|] && b == (b + ending)[..|b|];
    }
  }

  /**
   Of the mutating commands shown bare for review, those the plan prepares,
   remediates or verifies with are marked where they are recommended, and no
   others: a command of the rollback alone is marked nowhere.
   */
  lemma {:induction false} MarkedIffRecommended<I(!new)>(s: Services<I>, investigation: I, analysis: Analysis,
                                                         result: LlmResult, command: string)
    requires command in Reviewed(Diagnose(s, investigation, analysis, result)) && ClassifyCommand(command) == Mutating
    ensures
      var d := Diagnose(s, investigation, analysis, result);
      var plan := PlanOf(s, investigation, analysis, Chosen(s, analysis, result));
      && plan.Some?
      && (command + CHANGES_STATE in d.kubectlCommands <==> command in PlanCommands(plan.value))
      && (command in d.remediationPlan.reviewCommands ==> command in PlanCommands(plan.value))
  {
    hide ClassifyCommand, ReviewPlan, Diagnose, Reported, Chosen, Fallback, PlanOf, Vetted, PlanCommands;
    var h := Chosen(s, analysis, result);
    RemedyIsForReported(s, investigation, analysis, result);
    ReportedIsChosen(s, investigation, analysis, result);
    ReviewNeedsPlan(s, investigation, analysis, h, command);
    MarkedIffGiven(PlanCommands(PlanOf(s, investigation, analysis, h).value), command);
    ReviewIsRecommended(s, investigation, analysis, h, command);
  }

  /** Only a plan ever has a mutating command reviewed. */
  lemma {:induction false} ReviewNeedsPlan<I(!new)>(s: Services<I>, investigation: I, analysis: Analysis,
                                                    h: Option<Hypothesis>, command: string)
    requires command in ShownForReview(ReviewPlan(s, investigation, analysis, h))
             && ClassifyCommand(command) == Mutating
    ensures h.Some? && PlanOf(s, investigation, analysis, h).Some?
  {
    hide ClassifyCommand, ShownForReview, WithoutPlan, GenericCommands;
    WithoutPlanReads(s.wording, s.severityIsHealthy(investigation));
  }

  lemma {:induction false} ReviewIsRecommended<I(!new)>(s: Services<I>, investigation: I, analysis: Analysis,
                                                        h: Option<Hypothesis>, command: string)
    requires PlanOf(s, investigation, analysis, h).Some?
    ensures command in ReviewPlan(s, investigation, analysis, h).reviewCommands ==>
              command in PlanCommands(PlanOf(s, investigation, analysis, h).value)
  {
    hide CommandsOf, PlanCommands, PlanOf, RollbackHistory, Descriptions;
    var plan := PlanOf(s, investigation, analysis, h).value;
    if command in CommandsOf(plan.remediation) {
      RemediationIsRecommended(plan, command);
    }
  }

  /** The edit a plan for an exhausted quota asks to have reviewed. */
  function QuotaEdit(h: Hypothesis, quota: string): string {
    Kubectl(["edit", "resourcequota", quota, "-n", h.target.NamespaceOr("<namespace>")])
  }

  /** What it rolls back with. */
  function QuotaApply(quota: string): string {
    Kubectl(["apply", "-f", quota + "-before.yaml"])
  }

  /**
   It happens: whatever quota is exhausted, its plan shows an edit for review
   unmarked, and a rollback that is marked nowhere.
   */
  lemma {:induction false} QuotaPlanIsBare<I(!new)>(s: Services<I>, investigation: I, analysis: Analysis,
                                                    result: LlmResult, h: Hypothesis, quota: string, exhausted: string)
    requires Chosen(s, analysis, result) == Some(h)
    requires s.rule(h, analysis, investigation) == Builds(QuotaPlan(h, quota, exhausted))
    requires AreWords([quota]) && AreWords([h.target.NamespaceOr("<namespace>")])
    ensures
      var d := Diagnose(s, investigation, analysis, result);
      && QuotaEdit(h, quota) in d.remediationPlan.reviewCommands
      && QuotaEdit(h, quota) + CHANGES_STATE in d.kubectlCommands
      && QuotaApply(quota) in d.remediationPlan.rollbackCommands
      && QuotaApply(quota) + CHANGES_STATE !in d.kubectlCommands
      && ClassifyCommand(QuotaEdit(h, quota)) == ClassifyCommand(QuotaApply(quota)) == Mutating
      && !AllRead(Reviewed(d))
  {
    hide Diagnose, Reported, Chosen, Fallback, ReviewPlan, PlanCommands, RecommendationOf, ClassifyCommand, QuotaPlan,
      QuotaEdit, QuotaApply, AreWords, ResourceRef.NamespaceOr;
    RemedyIsForReported(s, investigation, analysis, result);
    ReportedIsChosen(s, investigation, analysis, result);
    QuotaReview(s, investigation, analysis, h, quota, exhausted);
    QuotaApplyIsNotRecommended(h, quota, exhausted);
    MarkedIffRecommended(s, investigation, analysis, result, QuotaEdit(h, quota));
    MarkedIffRecommended(s, investigation, analysis, result, QuotaApply(quota));
    assert QuotaEdit(h, quota) in Reviewed(Diagnose(s, investigation, analysis, result));
  }

  lemma {:induction false} QuotaReview<I(!new)>(s: Services<I>, investigation: I, analysis: Analysis, h: Hypothesis,
                                                quota: string, exhausted: string)
    requires s.rule(h, analysis, investigation) == Builds(QuotaPlan(h, quota, exhausted))
    requires AreWords([quota]) && AreWords([h.target.NamespaceOr("<namespace>")])
    ensures QuotaEdit(h, quota) in ReviewPlan(s, investigation, analysis, Some(h)).reviewCommands
    ensures QuotaApply(quota) in ReviewPlan(s, investigation, analysis, Some(h)).rollbackCommands
    ensures ClassifyCommand(QuotaEdit(h, quota)) == ClassifyCommand(QuotaApply(quota)) == Mutating
  {
    hide ClassifyCommand, QuotaPlan, AreWords, Kubectl, CommandsOf, Descriptions, RollbackHistory,
      ResourceRef.NamespaceOr, DiagnosticPlan, GenericCommands, QuotaSummary, QuotaRisk, QuotaChecks, QuotaVerification,
      QuotaRollback, QuotaChange;
    QuotaPlanMutates(h, quota, exhausted);
    assert QuotaEdit(h, quota) in [QuotaEdit(h, quota)] && QuotaApply(quota) in [QuotaApply(quota)];
  }

  lemma {:induction false} QuotaApplyIsNotRecommended(h: Hypothesis, quota: string, exhausted: string)
    ensures QuotaApply(quota) !in PlanCommands(QuotaPlan(h, quota, exhausted))
  {
    hide PlanCommands, QuotaPlan, Kubectl;
    KubectlVerb(["apply", "-f", quota + "-before.yaml"]);
    assert "apply"[0] == 'a';
    if QuotaApply(quota) in PlanCommands(QuotaPlan(h, quota, exhausted)) {
      QuotaRecommends(h, quota, exhausted, QuotaApply(quota));
    }
  }

  // ---------------------------------------------------------------- citations

  /** Every hypothesis rests on signals the analysis holds. */
  predicate Honest(analysis: Analysis) {
    forall h, id :: h in analysis.hypotheses && id in h.supporting ==> id in SignalIds(analysis)
  }

  lemma {:induction false} CarriedIsKnown(analysis: Analysis, signals: seq<Signal>, id: string)
    requires RuleProofs.Carried(signals, id) && forall s :: s in signals ==> s in analysis.signals
    ensures id in SignalIds(analysis)
  {
  }

  /** The pattern rules only ever produce honest analyses, scoped or not. */
  lemma {:induction false} AnalysesAreHonest(extractions: seq<Extraction>, rules: seq<PatternRule>, scope: Scope)
    ensures Honest(Analyze(extractions, FromPatterns(rules), scope))
  {
    var analysis := Analyze(extractions, FromPatterns(rules), scope);
    var signals := analysis.signals;
    var inside := Within(scope, signals);
    forall s | s in inside
      ensures s in signals
    {
      EngineProofs.WithinIs(scope, signals, s);
    }
    forall h | h in analysis.hypotheses
      ensures h in Built(FromPatterns(rules), signals) || h in Built(FromPatterns(rules), inside)
    {
      ComesFrom(extractions, FromPatterns(rules), scope, h);
    }
    hide Analyze, FromPatterns, Built, Within, SignalIds;
    forall h, id | h in analysis.hypotheses && id in h.supporting
      ensures id in SignalIds(analysis)
    {
      var given := if h in Built(FromPatterns(rules), signals) then signals else inside;
      EngineProofs.BuiltFromPatterns(rules, given, h);
      var k :| 0 <= k < |rules| && Evaluation(rules[k], given) == Some(h);
      RuleProofs.CitesOnlyGiven(rules[k], given);
      CarriedIsKnown(analysis, given, id);
    }
  }

  lemma {:induction false} ComesFrom(extractions: seq<Extraction>, rules: seq<HypothesisRule>, scope: Scope,
                                     h: Hypothesis)
    ensures
      var analysis := Analyze(extractions, rules, scope);
      h in analysis.hypotheses ==>
        h in Built(rules, analysis.signals) || h in Built(rules, Within(scope, analysis.signals))
  {
    var signals := ExtractedSignals(extractions);
    var taken := set id | id in HypothesisIds(Built(rules, Within(scope, signals)));
    EngineProofs.OthersIs(Built(rules, signals), taken, h);
    hide Built, ExtractedSignals, Within, Others, HypothesisIds;
  }

  /** The signal an id stands for has this evidence. */
  predicate IsEvidenceOf(signals: seq<Signal>, id: string, evidence: string) {
    FindSignal(signals, id).Some? && evidence in FindSignal(signals, id).value.evidenceIds
  }

  /** That is the evidence of the first signal with the id. */
  lemma {:induction false} EvidenceOfTheFirst(signals: seq<Signal>, id: string, evidence: string)
    ensures IsEvidenceOf(signals, id, evidence) <==>
              exists k :: 0 <= k < |signals| && signals[k].id == id && evidence in signals[k].evidenceIds &&
                forall j :: 0 <= j < k ==> signals[j].id != id
  {
    if signals != [] && signals[0].id != id {
      var rest := signals[1..];
      EvidenceOfTheFirst(rest, id, evidence);
      if k :| 0 <= k < |rest| && rest[k].id == id && evidence in rest[k].evidenceIds &&
              forall j :: 0 <= j < k ==> rest[j].id != id
      {
        assert forall j :: 0 < j < k + 1 ==> signals[j] == rest[j - 1];
        assert signals[k + 1] == rest[k];
      }
      if k :| 0 <= k < |signals| && signals[k].id == id && evidence in signals[k].evidenceIds &&
              forall j :: 0 <= j < k ==> signals[j].id != id
      {
        assert forall j :: 0 <= j < k - 1 ==> rest[j] == signals[j + 1];
        assert rest[k - 1] == signals[k];
      }
    }
  }

  lemma {:induction false} EvidenceIsOf(signals: seq<Signal>, ids: seq<string>, evidence: string)
    ensures evidence in EvidenceOf(signals, ids) <==> exists id :: id in ids && IsEvidenceOf(signals, id, evidence)
  {
    if ids != [] {
      var n := |ids| - 1;
      EvidenceIsOf(signals, ids[..n], evidence);
      assert ids == ids[..n] + [ids[n]];
      assert evidence in EvidenceOf(signals, ids) <==>
             evidence in EvidenceOf(signals, ids[..n]) || IsEvidenceOf(signals, ids[n], evidence);
      hide IsEvidenceOf, EvidenceOf;
      if id :| id in ids && IsEvidenceOf(signals, id, evidence) {
        assert id in ids[..n] || id == ids[n];
      }
    }
  }

  /**
   Whichever path a diagnosis took, it cites only signals the analysis holds,
   and the evidence it shows is exactly the evidence of the signals found under
   the cited ids, each once.
   */
  lemma {:induction false} CitationsAreReal<I(!new)>(s: Services<I>, investigation: I, analysis: Analysis,
                                                     result: LlmResult)
    requires Honest(analysis)
    ensures
      var d := Diagnose(s, investigation, analysis, result);
      && (forall c :: c in d.cited ==> c in SignalIds(analysis))
      && (forall i, j :: 0 <= i < j < |d.citedEvidence| ==> d.citedEvidence[i] != d.citedEvidence[j])
      && (forall e :: e in d.citedEvidence <==> exists c :: c in d.cited && IsEvidenceOf(analysis.signals, c, e))
  {
    var d := Diagnose(s, investigation, analysis, result);
    CitedAre(s, investigation, analysis, result);
    DistinctHolds(EvidenceOf(analysis.signals, d.cited));
    hide Diagnose, Distinct, EvidenceOf, SignalIds;
    forall e
      ensures e in d.citedEvidence <==> exists c :: c in d.cited && IsEvidenceOf(analysis.signals, c, e)
    {
      EvidenceIsOf(analysis.signals, d.cited, e);
    }
  }

  lemma {:induction false} CitedAre<I(!new)>(s: Services<I>, investigation: I, analysis: Analysis, result: LlmResult)
    requires Honest(analysis)
    ensures
      var d := Diagnose(s, investigation, analysis, result);
      && (forall c :: c in d.cited ==> c in SignalIds(analysis))
      && d.citedEvidence == Distinct(EvidenceOf(analysis.signals, d.cited))
  {
    hide Vetted, EvidenceOf, Distinct, Explanation, ConfidenceReasoning, StringList, Or, Validate, Recommend, PlanOf,
      ReviewPlan, ToLegacyRisk, SignalIds;
    var payload := Accepted(s, analysis, result);
    if payload.Some? {
      AcceptedIsGrounded(s.prose, payload.value, analysis);
      var g := Validate(s.prose, payload.value, analysis);
      if g.selected.Some? {
        FoundHypothesis(analysis.hypotheses, g.selected.value);
      }
    }
  }

  /** A hypothesis the model itself names, and that has support, is cited for. */
  lemma {:induction false} NamedIsSupported<I(!new)>(s: Services<I>, investigation: I, analysis: Analysis,
                                                     result: LlmResult)
    requires Honest(analysis) && Accepted(s, analysis, result).Some?
    requires Selected(s.prose, Accepted(s, analysis, result).value).Some?
    ensures
      var d := Diagnose(s, investigation, analysis, result);
      && d.selected == Selected(s.prose, Accepted(s, analysis, result).value)
      && Reported(analysis, d).Some?
      && (Reported(analysis, d).value.supporting != [] ==>
            exists c :: c in d.cited && c in Reported(analysis, d).value.supporting)
  {
    var payload := Accepted(s, analysis, result).value;
    AcceptedIsGrounded(s.prose, payload, analysis);
    ValidSelects(s.prose, payload, analysis);
    RemedyIsForReported(s, investigation, analysis, result);
    hide Vetted, EvidenceOf, Distinct, Explanation, ConfidenceReasoning, StringList, Or, Validate, Recommend, PlanOf,
      ReviewPlan, ToLegacyRisk, Selected, RemedyOf;
    var d := Diagnose(s, investigation, analysis, result);
    var h := Reported(analysis, d).value;
    if h.supporting != [] {
      assert h.supporting[0] in SignalIds(analysis);
    }
  }

  lemma {:induction false} ValidSelects(prose: Prose, payload: Payload, analysis: Analysis)
    requires Validate(prose, payload, analysis).Valid()
    ensures Validate(prose, payload, analysis).selected == Selected(prose, payload)
  {
    hide Strip, Selected, Str, StrOrEmpty, Cited, RejectedCitations, IgnoresSelection;
  }

  /**
   When the model names nothing, the leading hypothesis is reported, with the
   model's citations, or with the hypothesis's own support if it cited nothing real.
   */
  lemma {:induction false} UnnamedReportsTop<I(!new)>(s: Services<I>, investigation: I, analysis: Analysis,
                                                      result: LlmResult)
    requires Accepted(s, analysis, result).Some?
    requires Selected(s.prose, Accepted(s, analysis, result).value).None?
    ensures
      var d := Diagnose(s, investigation, analysis, result);
      var cited := Cited(s.prose, Accepted(s, analysis, result).value, analysis);
      && Reported(analysis, d) == Top(analysis)
      && (cited != [] ==> d.cited == cited)
      && (cited == [] && Top(analysis).Some? ==> d.cited == Top(analysis).value.supporting)
  {
    ValidSelects(s.prose, Accepted(s, analysis, result).value, analysis);
    ValidCites(s.prose, Accepted(s, analysis, result).value, analysis);
    hide Vetted, EvidenceOf, Distinct, Explanation, ConfidenceReasoning, StringList, Or, Validate, Selected, Cited,
      Recommend, PlanOf, ReviewPlan, ToLegacyRisk;
  }

  lemma {:induction false} ValidCites(prose: Prose, payload: Payload, analysis: Analysis)
    requires Validate(prose, payload, analysis).Valid()
    ensures Validate(prose, payload, analysis).cited == Cited(prose, payload, analysis)
  {
    hide Strip, Selected, Str, StrOrEmpty, Cited, RejectedCitations, IgnoresSelection;
  }

  /**
   An accepted answer that names nothing is not checked against the hypothesis
   it is reported under. Some citation supports that hypothesis exactly when the
   answer cites a real signal the hypothesis rests on, or cites no real signal at
   all, so that the hypothesis's own support is shown instead.
   */
  lemma {:induction false} UnnamedIsSupportedIff<I(!new)>(s: Services<I>, investigation: I, analysis: Analysis,
                                                          result: LlmResult)
    requires Accepted(s, analysis, result).Some? && analysis.hypotheses != []
    requires Selected(s.prose, Accepted(s, analysis, result).value).None?
    ensures
      var d, top := Diagnose(s, investigation, analysis, result), analysis.hypotheses[0];
      var items, known := RawCitations(Accepted(s, analysis, result).value), SignalIds(analysis);
      var support := set id | id in top.supporting;
      && Reported(analysis, d) == Some(top)
      && ((exists c :: c in d.cited && c in top.supporting) <==>
          CitesOneOf(s.prose, items, known * support) || (!CitesOneOf(s.prose, items, known) && top.supporting != []))
  {
    var top := analysis.hypotheses[0];
    var items, known := RawCitations(Accepted(s, analysis, result).value), SignalIds(analysis);
    UnnamedReportsTop(s, investigation, analysis, result);
    CitedIff(s.prose, items, known);
    CitedAmong(s.prose, items, known, set id | id in top.supporting);
    assert top.supporting != [] ==> top.supporting[0] in top.supporting;
    hide Diagnose, Accepted, Selected, Distinct, Sift, Claims, CitesOneOf, RawCitations, Reported, SignalIds;
  }

  /** A root cause and one citation, nothing else. */
  function BareAnswer(cause: string, citation: string): Payload {
    map["root_cause" := Json.Text(cause), "cited_signals" := Json.Text(citation)]
  }

  /**
   So on every analysis that holds a signal its leading hypothesis does not rest
   on, an answer that names nothing and cites that signal alone is accepted, and
   reported under that hypothesis with nothing to support it.
   */
  lemma {:induction false} UnnamedIsUnchecked<I(!new)>(s: Services<I>, investigation: I, analysis: Analysis,
                                                       result: LlmResult, cause: string, citation: string)
    requires result.success && s.parse(result.content) == Some(BareAnswer(cause, citation))
    requires Strip(cause) != "" && citation != "" && Strip(citation) == citation
    requires !s.prose.contradicts(cause + " " + "", analysis) && !s.prose.invents(cause + " " + "", analysis)
    requires analysis.hypotheses != [] && citation in SignalIds(analysis)
    requires citation !in analysis.hypotheses[0].supporting
    ensures Accepted(s, analysis, result).Some?
    ensures
      var d := Diagnose(s, investigation, analysis, result);
      && Reported(analysis, d) == Some(analysis.hypotheses[0])
      && d.cited == [citation]
      && forall c :: c in d.cited ==> c !in analysis.hypotheses[0].supporting
  {
    BareAnswerIsAccepted(s.prose, cause, citation, analysis);
    hide BareAnswer, Validate, Selected, Diagnose, Cited, SignalIds, Strip, Reported;
    UnnamedReportsTop(s, investigation, analysis, result);
  }

  lemma {:induction false} BareAnswerIsAccepted(prose: Prose, cause: string, citation: string, analysis: Analysis)
    requires Strip(cause) != "" && citation != "" && Strip(citation) == citation && citation in SignalIds(analysis)
    requires !prose.contradicts(cause + " " + "", analysis) && !prose.invents(cause + " " + "", analysis)
    ensures Validate(prose, BareAnswer(cause, citation), analysis).Valid()
    ensures Selected(prose, BareAnswer(cause, citation)).None?
    ensures Cited(prose, BareAnswer(cause, citation), analysis) == [citation]
  {
    hide Cited, RejectedCitations, Selected, Strip, SignalIds, BareAnswer, Get, FindHypothesis;
    BareAnswerFields(cause, citation);
    BareAnswerCites(prose, cause, citation, analysis);
    BareAnswerNamesNothing(prose, cause, citation);
  }

  lemma {:induction false} BareAnswerCites(prose: Prose, cause: string, citation: string, analysis: Analysis)
    requires citation != "" && Strip(citation) == citation && citation in SignalIds(analysis)
    ensures Cited(prose, BareAnswer(cause, citation), analysis) == [citation]
    ensures RejectedCitations(prose, BareAnswer(cause, citation), analysis) == []
  {
    hide Claims, Sift, Distinct, Strip, SignalIds, BareAnswer, Get;
    BareAnswerFields(cause, citation);
    OneCitation(prose, citation, SignalIds(analysis));
  }

  lemma {:induction false} BareAnswerNamesNothing(prose: Prose, cause: string, citation: string)
    ensures Selected(prose, BareAnswer(cause, citation)).None?
  {
    hide BareAnswer, Get, Strip;
    BareAnswerFields(cause, citation);
  }

  lemma {:induction false} BareAnswerFields(cause: string, citation: string)
    ensures Get(BareAnswer(cause, citation), "root_cause", Null) == Json.Text(cause)
    ensures Get(BareAnswer(cause, citation), "cited_signals", List([])) == Json.Text(citation)
    ensures Get(BareAnswer(cause, citation), "selected_hypothesis", Null) == Null
    ensures Get(BareAnswer(cause, citation), "explanation", Null) == Null
  {
    assert |"root_cause"| == 10 && |"cited_signals"| == 13 && |"selected_hypothesis"| == 19 && |"explanation"| == 11;
  }

  lemma {:induction false} OneCitation(prose: Prose, citation: string, known: set<string>)
    requires citation != "" && Strip(citation) == citation && citation in known
    ensures Distinct(Sift(Claims(prose, [Json.Text(citation)]), known, true)) == [citation]
    ensures Distinct(Sift(Claims(prose, [Json.Text(citation)]), known, false)) == []
  {
    var items := [Json.Text(citation)];
    assert items[..0] == [];
    assert Claims(prose, items) == [citation] by {
      assert Claims(prose, items[..0]) == [];
      hide Strip;
    }
    SiftAppend([], citation, known, true);
    SiftAppend([], citation, known, false);
    assert [] + [citation] == [citation];
  }

  /** An analysis of two findings, by one rule that fires on the first. */
  function TwoFindings(rule: PatternRule, a: Signal, b: Signal): Analysis {
    Analyze([Produced([a, b])], FromPatterns([rule]), Scope("", ""))
  }

  /** There are such analyses: any rule that fires on one finding and has nothing to do with another. */
  lemma {:induction false} UnrelatedFinding(rule: PatternRule, a: Signal, b: Signal)
    requires a.id != b.id && a.signalType in rule.triggers
    requires b.signalType !in rule.triggers && b.signalType !in rule.supporting
    ensures
      var analysis := TwoFindings(rule, a, b);
      && b.id in SignalIds(analysis) && analysis.hypotheses != []
      && analysis.hypotheses[0].supporting != [] && b.id !in analysis.hypotheses[0].supporting
  {
    var analysis := TwoFindings(rule, a, b);
    var signals := analysis.signals;
    TwoSignals(a, b);
    assert signals == ExtractedSignals([Produced([a, b])]);
    assert a in signals && b in signals;
    OneRule(rule, signals);
    RuleProofs.TriggeringIs(rule, signals, a);
    assert Evaluation(rule, signals).Some?;
    var h := Evaluation(rule, signals).value;
    assert analysis.hypotheses == [h];
    CitesNotTheOther(rule, signals, b);
    hide Analyze, Evaluation, ExtractedSignals, FromPatterns;
  }

  lemma {:induction false} TwoSignals(a: Signal, b: Signal)
    requires a.id != b.id
    ensures forall s :: s in ExtractedSignals([Produced([a, b])]) <==> s == a || s == b
  {
    var extractions := [Produced([a, b])];
    EngineProofs.SignalLeIsPreorder();
    forall s
      ensures EngineProofs.Observed(extractions, s) <==> s == a || s == b
    {
      assert extractions[0].Produced?;
    }
    forall s
      ensures s in ExtractedSignals(extractions) <==> s == a || s == b
    {
      Ordering.SortMember(SignalLe, Collected(extractions), s);
      EngineProofs.CollectedIsObserved(extractions, s);
    }
    hide Collected, SignalLe;
  }

  /** One rule proposes one hypothesis, or none. */
  lemma {:induction false} OneRule(rule: PatternRule, signals: seq<Signal>)
    ensures Built(FromPatterns([rule]), signals)
            == if Evaluation(rule, signals).Some? then [Evaluation(rule, signals).value] else []
  {
    hide Evaluation, Rank, Proposals, FromPatterns;
    OneProposal(rule, signals);
    RankOfAtMostOne(Proposals(FromPatterns([rule]), signals));
  }

  lemma {:induction false} OneProposal(rule: PatternRule, signals: seq<Signal>)
    ensures Proposals(FromPatterns([rule]), signals)
            == if Evaluation(rule, signals).Some? then [Evaluation(rule, signals).value] else []
  {
    hide Evaluation;
    var rules := FromPatterns([rule]);
    assert rules == [FromPattern(rule)] by {
      assert [rule][1..] == [] && FromPatterns([]) == [];
    }
    assert rules[..0] == [] && Proposals([], signals) == [];
  }

  lemma {:induction false} RankOfAtMostOne(proposals: seq<Hypothesis>)
    requires |proposals| <= 1
    ensures Rank(proposals) == proposals
  {
    hide Rank;
    EngineProofs.RankOrders(proposals);
    assert |Rank(proposals)| == |multiset(Rank(proposals))| == |proposals|;
    if proposals != [] {
      assert Rank(proposals)[0] in multiset(proposals);
    }
  }

  /** A hypothesis rests only on signals its rule looks for. */
  lemma {:induction false} CitesNotTheOther(rule: PatternRule, signals: seq<Signal>, b: Signal)
    requires Evaluation(rule, signals).Some?
    requires b.signalType !in rule.triggers && b.signalType !in rule.supporting
    requires forall s :: s in signals && s.id == b.id ==> s == b
    ensures Evaluation(rule, signals).value.supporting != []
    ensures b.id !in Evaluation(rule, signals).value.supporting
  {
    var cited, support := RuleProofs.CitesOneInstance(rule, signals);
    hide Evaluation, Named, About, RuleProofs.Refuted, InstanceOf;
    RuleProofs.IdsAreEmpty(cited + support);
    RuleProofs.IdsAreCarried(cited + support, cited + support);
    forall t: Signal | t in cited + support
      ensures t.id != b.id
    {
    }
  }
}
