/** The plan for a hypothesis, what is recommended with it, and the shape older readers see. */
module Remediation {
  import opened Prelude
  import opened Text
  import opened CommandPolicy
  import opened Signals

  /** A step without a command, or marked manual, is for a human to carry out. */
  datatype Step = Step(description: string, command: Option<string>, manual: bool)

  datatype Risk = Risk(
    level: string,
    changeKind: string,
    restartRequired: bool,
    estimatedDowntime: string,
    blastRadius: string,
    reversible: bool,
    notes: seq<string>)

  datatype Plan = Plan(
    id: string,
    hypothesisId: string,
    title: string,
    summary: string,
    target: ResourceRef,
    risk: Risk,
    requiresApproval: bool,
    preconditions: seq<Step>,
    remediation: seq<Step>,
    verification: seq<Step>,
    rollback: seq<Step>,
    patches: seq<string>,
    caveats: seq<string>)

  /** What the rule registered for a hypothesis, if there is one, did with it. */
  datatype RuleOutcome = NoRule | RuleRaised | Builds(plan: Plan)

  datatype LegacyRisk = LegacyRisk(level: string, impact: seq<string>)

  datatype LegacyPlan = LegacyPlan(
    requiresApproval: bool,
    preChecks: seq<string>,
    reviewCommands: seq<string>,
    rollbackCommands: seq<string>)

  datatype Recommendation = Recommendation(
    fix: string,
    commands: seq<string>,
    prevention: string,
    nextSteps: seq<string>)

  /** The prose around the commands; what it says plays no part in what follows. */
  datatype Wording = Wording(
    prevention: Option<string> -> string,        // of a category, or of none
    fix: bool -> string,                         // with nothing diagnosed, healthy or not
    watch: bool -> seq<string>,                  // likewise
    confirm: ResourceRef -> seq<string>,         // the next steps about a resource
    preChecks: seq<string>,                      // with nothing diagnosed
    diagnostic: Hypothesis -> (string, string),  // title and summary of a diagnostic plan
    inspect: string,                             // its steps: look at the resource,
    establish: string -> string,                 // find out one missing piece of evidence,
    review: string,                              // or review what there is,
    rerun: string)                               // and investigate again

  function GenericCommands(): seq<string> {
    [ Kubectl(["get", "pods", "-A"]),
      Kubectl(["get", "events", "-A", "--sort-by=.lastTimestamp"]),
      Kubectl(["get", "deployments", "-A"]) ]
  }

  function RollbackHistory(): string {
    Kubectl(["rollout", "history", "deployment", "<deployment-name>", "-n", "<namespace>"])
  }

  // ------------------------------------------------------------------- a plan

  /** The commands of those steps that have one. */
  function CommandsOf(steps: seq<Step>): seq<string> {
    if steps == [] then []
    else
      var rest := CommandsOf(steps[1..]);
      if steps[0].command.Some? && steps[0].command.value != "" then [steps[0].command.value] + rest else rest
  }

  function Descriptions(steps: seq<Step>): seq<string> {
    if steps == [] then [] else [steps[0].description] + Descriptions(steps[1..])
  }

  function FirstThree(commands: seq<string>): seq<string> {
    if |commands| <= 3 then commands else commands[..3]
  }

  function PlanCommands(plan: Plan): seq<string> {
    CommandsOf(plan.preconditions + plan.remediation + plan.verification)
  }

  function ToLegacyRisk(risk: Risk): LegacyRisk {
    LegacyRisk(risk.level,
               [ if risk.restartRequired then "Restart Required" else "No Restart Required",
                 risk.estimatedDowntime,
                 if risk.reversible then "Rollback Available" else "Rollback Not Automatic" ])
  }

  function ToLegacyPlan(plan: Plan): LegacyPlan {
    var rollback := CommandsOf(plan.rollback);
    LegacyPlan(plan.requiresApproval, Descriptions(plan.preconditions), FirstThree(CommandsOf(plan.remediation)),
               if rollback != [] then rollback else [RollbackHistory()])
  }

  function NamespaceFlag(target: ResourceRef): string {
    if target.HasNamespace() then " -n " + target.namespace.value else ""
  }

  function Manual(w: Wording, items: seq<string>): seq<Step> {
    if items == [] then [] else [Step(w.establish(items[0]), None, true)] + Manual(w, items[1..])
  }

  function Investigate(w: Wording, outstanding: seq<string>): seq<Step> {
    if outstanding != [] then Manual(w, outstanding) else [Step(w.review, None, true)]
  }

  /** Read-only next steps when no specific remediation is known. */
  function DiagnosticPlan(w: Wording, h: Hypothesis, outstanding: seq<string>): Plan {
    var (title, summary) := w.diagnostic(h);
    Plan(
      "diagnostic-only", h.id, title, summary, h.target,
      Risk("Low", "none", false, "None; no change is proposed", "None", true, []),
      false,
      [Step(w.inspect,
            Some("kubectl describe " + Lower(h.target.kind) + " " + h.target.name + NamespaceFlag(h.target)), false)],
      Investigate(w, outstanding),
      [Step(w.rerun, None, true)],
      [],
      [],
      if h.remediationHint != "" then [h.remediationHint] else [])
  }

  /** QuotaExhaustedRule.build, given the quota its signal names and what is exhausted. */
  function QuotaPlan(h: Hypothesis, quota: string, exhausted: string): Plan {
    var namespace := h.target.NamespaceOr("<namespace>");
    Plan(
      "raise-resource-quota", "scheduling.quota_exhausted", "Raise or free the " + quota + " quota",
      QuotaSummary(quota, namespace, exhausted),
      ResourceRef("ResourceQuota", quota, h.target.namespace),
      QuotaRisk(namespace),
      true,
      QuotaChecks(quota, namespace, if h.target.HasNamespace() then ["-n", namespace] else []),
      QuotaChange(quota, namespace),
      QuotaVerification(quota, namespace),
      QuotaRollback(quota),
      [], [])
  }

  function QuotaSummary(quota: string, namespace: string, exhausted: string): string {
    "ResourceQuota " + namespace + "/" + quota + " is fully consumed for " + exhausted
    + ", so new pods are rejected before scheduling. "
    + "Either raise the quota or reduce what the namespace already requests."
  }

  function QuotaRisk(namespace: string): Risk {
    Risk("Medium", "quota", false, "None", "Every workload in namespace " + namespace, true,
         ["Raising a quota permits more cluster resource consumption; confirm capacity exists before increasing it."])
  }

  function CaptureWords(quota: string, scoped: seq<string>): seq<string> {
    ["get", "resourcequota", quota] + scoped + ["-o", "yaml", ">", quota + "-before.yaml"]
  }

  const CONSUMER_COLUMNS :=
    "custom-columns=NAME:.metadata.name,CPU:.spec.containers[*].resources.requests.cpu,"
    + "MEM:.spec.containers[*].resources.requests.memory"

  function ConsumerWords(namespace: string): seq<string> {
    ["get", "pods", "-n", namespace, "-o", CONSUMER_COLUMNS]
  }

  function QuotaChecks(quota: string, namespace: string, scoped: seq<string>): seq<Step> {
    [ Step("Capture the current manifest so the change can be reverted exactly.",
           Some(Kubectl(CaptureWords(quota, scoped))), false),
      Step("Review current quota usage against its limits.",
           Some(Kubectl(["describe", "resourcequota", quota, "-n", namespace])), false),
      Step("Identify which workloads consume the quota.",
           Some(Kubectl(ConsumerWords(namespace))), false),
      Step("Decide whether the quota or the requests should change.", None, true) ]
  }

  function QuotaVerification(quota: string, namespace: string): seq<Step> {
    [ Step("Confirm headroom now exists.", Some(Kubectl(["describe", "resourcequota", quota, "-n", namespace])), false),
      Step("Confirm the pending pods schedule.",
           Some(Kubectl(["get", "pods", "-n", namespace, "--field-selector=status.phase=Pending"])), false) ]
  }

  function QuotaChange(quota: string, namespace: string): seq<Step> {
    [Step("Raise the exhausted quota values.", Some(Kubectl(["edit", "resourcequota", quota, "-n", namespace])), false)]
  }

  function QuotaRollback(quota: string): seq<Step> {
    [Step("Restore the previous quota values from the captured manifest.",
          Some(Kubectl(["apply", "-f", quota + "-before.yaml"])), false)]
  }

  /** RemediationPlanner.plan, for the hypothesis it plans for. */
  function PlanFor(w: Wording, outcome: RuleOutcome, h: Hypothesis, outstanding: seq<string>): Plan {
    if outcome.Builds? then outcome.plan else DiagnosticPlan(w, h, outstanding)
  }

  // ----------------------------------------------------------- recommendation

  /** What an operator is asked to confirm: the plan's target, unless the plan could not name it. */
  function ConfirmTarget(h: Hypothesis, plan: Option<Plan>): ResourceRef {
    if plan.Some? && !("<" <= plan.value.target.name) then plan.value.target else h.target
  }

  function Recommend(w: Wording, healthy: bool, hypothesis: Option<Hypothesis>, plan: Option<Plan>): Recommendation {
    match hypothesis
    case None => Recommendation(w.fix(healthy), GenericCommands(), w.prevention(None), w.watch(healthy))
    case Some(h) =>
      Recommendation(
        if h.remediationHint != "" then h.remediationHint else if plan.Some? then plan.value.summary else "",
        if plan.Some? then PlanCommands(plan.value) else GenericCommands(),
        w.prevention(Some(h.category)),
        w.confirm(ConfirmTarget(h, plan)))
  }

  /** The plan shown when there is no hypothesis to plan for. */
  function WithoutPlan(w: Wording, healthy: bool, commands: seq<string>): LegacyPlan {
    LegacyPlan(!healthy, w.preChecks, FirstThree(commands), [RollbackHistory()])
  }

  // ------------------------------------------------------------------- lemmas

  lemma {:induction false} CommandsOfAppend(a: seq<Step>, b: seq<Step>)
    ensures CommandsOf(a + b) == CommandsOf(a) + CommandsOf(b)
  {
    if a == [] {
      assert a + b == b;
    } else {
      assert (a + b)[1..] == a[1..] + b;
      CommandsOfAppend(a[1..], b);
    }
  }

  /** The commands of some steps, in order, without the steps that have none. */
  lemma {:induction false} StepsInOrder(a: seq<Step>, step: Step, b: seq<Step>)
    ensures CommandsOf(a + [step] + b)
            == CommandsOf(a)
               + (if step.command in {None, Some("")} then [] else [step.command.value])
               + CommandsOf(b)
    ensures CommandsOf([]) == []
  {
    CommandsOfAppend(a + [step], b);
    CommandsOfAppend(a, [step]);
    assert [step][1..] == [];
  }

  /** What an older reader is shown: at most the first three commands of the change, and always a way back. */
  lemma {:induction false} LegacyPlanIs(plan: Plan)
    ensures
      var legacy := ToLegacyPlan(plan);
      var change, back := CommandsOf(plan.remediation), CommandsOf(plan.rollback);
      && legacy.requiresApproval == plan.requiresApproval
      && |legacy.preChecks| == |plan.preconditions|
      && (forall k :: 0 <= k < |plan.preconditions| ==> legacy.preChecks[k] == plan.preconditions[k].description)
      && legacy.reviewCommands <= change && |legacy.reviewCommands| == (if |change| < 3 then |change| else 3)
      && legacy.rollbackCommands != []
      && (back != [] ==> legacy.rollbackCommands == back)
      && (back == [] ==>
            legacy.rollbackCommands
            == [Kubectl(["rollout", "history", "deployment", "<deployment-name>", "-n", "<namespace>"])])
  {
    DescriptionsAre(plan.preconditions);
    hide CommandsOf, Descriptions, Kubectl;
  }

  lemma {:induction false} DescriptionsAre(steps: seq<Step>)
    ensures |Descriptions(steps)| == |steps|
    ensures forall k :: 0 <= k < |steps| ==> Descriptions(steps)[k] == steps[k].description
  {
    if steps != [] {
      DescriptionsAre(steps[1..]);
    }
  }

  /** A plan's risk as an older reader is shown it. */
  lemma {:induction false} LegacyRiskIs(risk: Risk)
    ensures
      var legacy := ToLegacyRisk(risk);
      && legacy.level == risk.level && |legacy.impact| == 3 && legacy.impact[1] == risk.estimatedDowntime
      && (legacy.impact[0] == "Restart Required" <==> risk.restartRequired)
      && (legacy.impact[0] == "No Restart Required" <==> !risk.restartRequired)
      && (legacy.impact[2] == "Rollback Available" <==> risk.reversible)
      && (legacy.impact[2] == "Rollback Not Automatic" <==> !risk.reversible)
  {
    assert |"Restart Required"| == 16 && |"No Restart Required"| == 19;
    assert |"Rollback Available"| == 18 && |"Rollback Not Automatic"| == 22;
  }

  /**
   What is recommended about a hypothesis: its own hint before the plan's
   summary, the plan's commands, and to confirm the plan's target, unless that is
   a placeholder; without a plan, the generic commands and its own target.
   */
  lemma {:induction false} RecommendationIs(w: Wording, healthy: bool, h: Hypothesis, plan: Option<Plan>)
    ensures
      var r := Recommend(w, healthy, Some(h), plan);
      && r.prevention == w.prevention(Some(h.category))
      && (h.remediationHint != "" ==> r.fix == h.remediationHint)
      && (h.remediationHint == "" && plan.Some? ==> r.fix == plan.value.summary)
      && (plan.Some? ==>
            r.commands == CommandsOf(plan.value.preconditions) + CommandsOf(plan.value.remediation)
                          + CommandsOf(plan.value.verification))
      && (plan.None? ==> r.commands == GenericCommands())
      && (plan.Some? && (plan.value.target.name == "" || plan.value.target.name[0] != '<') ==>
            r.nextSteps == w.confirm(plan.value.target))
      && (plan.Some? && plan.value.target.name != "" && plan.value.target.name[0] == '<' ==>
            r.nextSteps == w.confirm(h.target))
      && (plan.None? ==> r.nextSteps == w.confirm(h.target))
  {
    if plan.Some? {
      CommandsOfAppend(plan.value.preconditions + plan.value.remediation, plan.value.verification);
      CommandsOfAppend(plan.value.preconditions, plan.value.remediation);
    }
    hide CommandsOf, GenericCommands;
  }

  /** What is recommended, and shown for review, when nothing is diagnosed. */
  lemma {:induction false} NothingDiagnosed(w: Wording, healthy: bool, plan: Option<Plan>)
    ensures
      var r := Recommend(w, healthy, None, plan);
      && r.commands == GenericCommands() && r.fix == w.fix(healthy) && r.nextSteps == w.watch(healthy)
      && r.prevention == w.prevention(None)
    ensures
      var shown := WithoutPlan(w, healthy, GenericCommands());
      && (shown.requiresApproval <==> !healthy) && shown.reviewCommands == GenericCommands()
      && shown.preChecks == w.preChecks && shown.rollbackCommands == [RollbackHistory()]
  {
    hide Kubectl;
  }

  /** A diagnostic plan is about the hypothesis and its target, changes nothing, and passes its hint on as a caveat. */
  lemma {:induction false} DiagnosticPlanIs(w: Wording, h: Hypothesis, outstanding: seq<string>)
    ensures
      var plan := DiagnosticPlan(w, h, outstanding);
      && plan.hypothesisId == h.id && plan.target == h.target && !plan.requiresApproval
      && plan.risk.level == "Low" && !plan.risk.restartRequired && plan.risk.reversible
      && plan.patches == [] && plan.rollback == []
      && |plan.remediation| == (if |outstanding| > 0 then |outstanding| else 1)
      && (forall k :: 0 <= k < |outstanding| ==> plan.remediation[k] == Step(w.establish(outstanding[k]), None, true))
      && (forall c :: c in plan.caveats <==> c == h.remediationHint && c != "")
      && PlanCommands(plan) == CommandsOf(plan.preconditions)
      && |plan.preconditions| == 1 && plan.preconditions[0].command.Some?
      && plan.preconditions[0].command.value ==
           "kubectl describe " + Lower(h.target.kind) + " " + h.target.name
           + (if h.target.namespace in {None, Some("")} then "" else " -n " + h.target.namespace.value)
  {
    hide CommandsOf, Manual, Lower;
    ManualIs(w, outstanding);
    NothingToInvestigateWith(w, outstanding);
    OnlyInspects(w, h, outstanding);
    var hint := h.remediationHint;
    assert hint in [hint];
  }

  lemma {:induction false} OnlyInspects(w: Wording, h: Hypothesis, outstanding: seq<string>)
    ensures
      var plan := DiagnosticPlan(w, h, outstanding);
      PlanCommands(plan) == CommandsOf(plan.preconditions)
  {
    var plan := DiagnosticPlan(w, h, outstanding);
    NothingToInvestigateWith(w, outstanding);
    NoCommand(plan.verification);
    hide CommandsOf, Manual, Lower, Investigate;
    CommandsOfAppend(plan.preconditions + plan.remediation, plan.verification);
    CommandsOfAppend(plan.preconditions, plan.remediation);
    assert CommandsOf(plan.preconditions) + [] + [] == CommandsOf(plan.preconditions);
  }

  lemma {:induction false} NoCommand(steps: seq<Step>)
    requires |steps| == 1 && steps[0].command.None?
    ensures CommandsOf(steps) == []
  {
    assert steps[1..] == [];
  }

  lemma {:induction false} ManualIs(w: Wording, items: seq<string>)
    ensures |Manual(w, items)| == |items|
    ensures forall k :: 0 <= k < |items| ==> Manual(w, items)[k] == Step(w.establish(items[k]), None, true)
  {
    if items != [] {
      ManualIs(w, items[1..]);
    }
  }

  /** Whatever a plan remediates with is among the commands recommended with it. */
  lemma {:induction false} RemediationIsRecommended(plan: Plan, command: string)
    requires command in CommandsOf(plan.remediation)
    ensures command in PlanCommands(plan)
  {
    CommandsOfAppend(plan.preconditions + plan.remediation, plan.verification);
    CommandsOfAppend(plan.preconditions, plan.remediation);
    hide CommandsOf;
  }

  lemma {:induction false} ManualHasNoCommands(w: Wording, items: seq<string>)
    ensures CommandsOf(Manual(w, items)) == []
  {
    if items != [] {
      ManualHasNoCommands(w, items[1..]);
    }
  }

  /** A diagnostic plan proposes no command to review, and only the history to roll back. */
  lemma {:induction false} DiagnosticPlanChangesNothing(w: Wording, h: Hypothesis, outstanding: seq<string>)
    ensures ToLegacyPlan(DiagnosticPlan(w, h, outstanding)).reviewCommands == []
    ensures ToLegacyPlan(DiagnosticPlan(w, h, outstanding)).rollbackCommands == [RollbackHistory()]
  {
    hide RollbackHistory, Lower, NamespaceFlag, Investigate, CommandsOf;
    NothingToInvestigateWith(w, outstanding);
  }

  lemma {:induction false} NothingToInvestigateWith(w: Wording, outstanding: seq<string>)
    ensures CommandsOf(Investigate(w, outstanding)) == [] && CommandsOf([]) == []
  {
    ManualHasNoCommands(w, outstanding);
    assert outstanding == [] ==> Investigate(w, outstanding)[1..] == [];
  }

  lemma {:induction false} GetIsReadOnly(words: seq<string>)
    requires words != [] && AreWords(words) && words[0] == "get"
    ensures ClassifyCommand(Kubectl(words)) == ReadOnly
  {
    ClassifyWords(words);
    assert |"get"| == 3 && "get"[0] == 'g' && |"auth"| == 4 && |"config"| == 6 && |"rollout"| == 7;
  }

  lemma {:induction false} GenericWords()
    ensures AreWords(["get", "pods", "-A"]) && AreWords(["get", "deployments", "-A"])
  {
    assert Unspaced("get") && Unspaced("pods") && Unspaced("-A") && Unspaced("deployments");
    hide Unspaced;
  }

  lemma {:induction false} EventWords()
    ensures AreWords(["get", "events", "-A", "--sort-by=.lastTimestamp"])
  {
    assert Unspaced("get") && Unspaced("events") && Unspaced("-A") && Unspaced("--sort-by=.lastTimestamp");
    hide Unspaced;
  }

  lemma {:induction false} HistoryWords()
    ensures AreWords(["rollout", "history", "deployment", "<deployment-name>", "-n", "<namespace>"])
  {
    assert Unspaced("rollout") && Unspaced("history") && Unspaced("deployment") && Unspaced("<deployment-name>");
    assert Unspaced("-n") && Unspaced("<namespace>");
    hide Unspaced;
  }

  lemma {:induction false} HistoryIsReadOnly(words: seq<string>)
    requires |words| > 1 && AreWords(words) && words[0] == "rollout" && words[1] == "history"
    ensures ClassifyCommand(Kubectl(words)) == ReadOnly
  {
    ClassifyWords(words);
    assert "rollout"[0] == 'r' && "history"[0] == 'h' && "-"[0] == '-';
    hide ClassifyCommand, Kubectl;
    var args := Positional(words);
    assert args[0] == "rollout" && args[1] == "history";
    assert |"rollout"| == 7 && |"auth"| == 4 && |"config"| == 6;
  }

  /** The commands offered when nothing is diagnosed only read. */
  lemma {:induction false} GenericCommandsRead()
    ensures forall c :: c in GenericCommands() ==> ClassifyCommand(c) == ReadOnly
    ensures ClassifyCommand(RollbackHistory()) == ReadOnly
  {
    GenericWords();
    EventWords();
    HistoryWords();
    hide AreWords, ClassifyCommand, Kubectl;
    GetIsReadOnly(["get", "pods", "-A"]);
    GetIsReadOnly(["get", "events", "-A", "--sort-by=.lastTimestamp"]);
    GetIsReadOnly(["get", "deployments", "-A"]);
    HistoryIsReadOnly(["rollout", "history", "deployment", "<deployment-name>", "-n", "<namespace>"]);
  }

  /** The change a quota plan proposes, which is also the first command it asks to have reviewed. */
  lemma {:induction false} QuotaPlanMutates(h: Hypothesis, quota: string, exhausted: string)
    requires AreWords([quota]) && AreWords([h.target.NamespaceOr("<namespace>")])
    ensures
      var edit := Kubectl(["edit", "resourcequota", quota, "-n", h.target.NamespaceOr("<namespace>")]);
      var apply := Kubectl(["apply", "-f", quota + "-before.yaml"]);
      && CommandsOf(QuotaPlan(h, quota, exhausted).remediation) == [edit]
      && CommandsOf(QuotaPlan(h, quota, exhausted).rollback) == [apply]
      && ClassifyCommand(edit) == ClassifyCommand(apply) == Mutating
  {
    hide ClassifyCommand, Kubectl, AreWords, QuotaSummary, QuotaRisk, QuotaChecks, QuotaVerification, QuotaRollback,
      QuotaChange, CommandsOf, ResourceRef.NamespaceOr;
    QuotaCommands(quota, h.target.NamespaceOr("<namespace>"));
    EditMutates(quota, h.target.NamespaceOr("<namespace>"));
    ApplyMutates(quota);
  }

  lemma {:induction false} QuotaCommands(quota: string, namespace: string)
    ensures CommandsOf(QuotaChange(quota, namespace)) == [Kubectl(["edit", "resourcequota", quota, "-n", namespace])]
    ensures CommandsOf(QuotaRollback(quota)) == [Kubectl(["apply", "-f", quota + "-before.yaml"])]
  {
    KubectlIsSomething(["edit", "resourcequota", quota, "-n", namespace]);
    KubectlIsSomething(["apply", "-f", quota + "-before.yaml"]);
    hide Kubectl;
    hide CommandsOf;
    OneCommand(QuotaChange(quota, namespace));
    OneCommand(QuotaRollback(quota));
  }

  lemma {:induction false} OneCommand(steps: seq<Step>)
    requires |steps| == 1 && steps[0].command.Some? && steps[0].command.value != ""
    ensures CommandsOf(steps) == [steps[0].command.value]
  {
    assert steps[1..] == [] && CommandsOf([]) == [];
  }

  lemma {:induction false} ApplyMutates(quota: string)
    requires AreWords([quota])
    ensures ClassifyCommand(Kubectl(["apply", "-f", quota + "-before.yaml"])) == Mutating
  {
    var words := ["apply", "-f", quota + "-before.yaml"];
    assert Unspaced("apply") && Unspaced("-f") && Unspaced("-before.yaml");
    assert quota in [quota];
    assert AreWords(words);
    ClassifyWords(words);
    hide ClassifyCommand, Kubectl, AreWords;
    ApplyIsNoReadVerb();
    assert "apply"[0] == 'a';
    assert Positional(words)[0] == "apply";
  }

  lemma {:induction false} ApplyIsNoReadVerb()
    ensures "apply" !in READ_ONLY_VERBS
  {
    assert |"apply"| == 5;
  }

  lemma {:induction false} KubectlVerb(words: seq<string>)
    requires words != [] && words[0] != ""
    ensures |Kubectl(words)| > 8 && Kubectl(words)[8] == words[0][0]
  {
    var all := ["kubectl"] + words;
    assert all[1..] == words;
    assert |"kubectl"| == 7;
    assert Kubectl(words) == "kubectl" + " " + Join(words);
    assert Join(words)[0] == words[0][0];
  }

  /** A kubectl line that gets, describes or edits, by the first letter of its verb. */
  predicate GetsOrEdits(command: string) {
    |command| > 8 && (command[8] == 'g' || command[8] == 'd' || command[8] == 'e')
  }

  predicate AllGetOrEdit(steps: seq<Step>) {
    forall i :: 0 <= i < |steps| && steps[i].command.Some? ==> GetsOrEdits(steps[i].command.value)
  }

  lemma {:induction false} CommandsGetOrEdit(steps: seq<Step>, command: string)
    requires AllGetOrEdit(steps) && command in CommandsOf(steps)
    ensures GetsOrEdits(command)
  {
    hide GetsOrEdits;
    if command in CommandsOf(steps[1..]) {
      CommandsGetOrEdit(steps[1..], command);
    }
  }

  /** A quota plan recommends to get, describe and edit only. */
  lemma {:induction false} QuotaRecommends(h: Hypothesis, quota: string, exhausted: string, command: string)
    requires command in PlanCommands(QuotaPlan(h, quota, exhausted))
    ensures GetsOrEdits(command)
  {
    hide QuotaSummary, QuotaRisk, QuotaChecks, QuotaVerification, QuotaRollback, QuotaChange, CommandsOf, GetsOrEdits,
      ResourceRef.NamespaceOr, ResourceRef.HasNamespace;
    var plan := QuotaPlan(h, quota, exhausted);
    var namespace := h.target.NamespaceOr("<namespace>");
    QuotaChecksGet(quota, namespace, if h.target.HasNamespace() then ["-n", namespace] else []);
    QuotaChangeEdits(quota, namespace);
    QuotaVerificationGets(quota, namespace);
    CommandsGetOrEdit(plan.preconditions + plan.remediation + plan.verification, command);
  }

  lemma {:induction false} GetVerb(words: seq<string>)
    requires words != [] && (words[0] == "get" || words[0] == "describe" || words[0] == "edit")
    ensures GetsOrEdits(Kubectl(words))
  {
    KubectlVerb(words);
    assert "get"[0] == 'g' && "describe"[0] == 'd' && "edit"[0] == 'e';
    hide Kubectl;
  }

  lemma {:induction false} QuotaChecksGet(quota: string, namespace: string, scoped: seq<string>)
    ensures AllGetOrEdit(QuotaChecks(quota, namespace, scoped))
  {
    hide GetsOrEdits, Kubectl, CaptureWords, ConsumerWords;
    CheckVerbs(quota, namespace, scoped);
    GetVerb(CaptureWords(quota, scoped));
    GetVerb(["describe", "resourcequota", quota, "-n", namespace]);
    GetVerb(ConsumerWords(namespace));
  }

  lemma {:induction false} CheckVerbs(quota: string, namespace: string, scoped: seq<string>)
    ensures CaptureWords(quota, scoped) != [] && CaptureWords(quota, scoped)[0] == "get"
    ensures ConsumerWords(namespace) != [] && ConsumerWords(namespace)[0] == "get"
  {
    hide CONSUMER_COLUMNS;
  }

  lemma {:induction false} QuotaChangeEdits(quota: string, namespace: string)
    ensures AllGetOrEdit(QuotaChange(quota, namespace))
  {
    hide GetsOrEdits, Kubectl;
    GetVerb(["edit", "resourcequota", quota, "-n", namespace]);
  }

  lemma {:induction false} QuotaVerificationGets(quota: string, namespace: string)
    ensures AllGetOrEdit(QuotaVerification(quota, namespace))
  {
    hide GetsOrEdits, Kubectl;
    GetVerb(["describe", "resourcequota", quota, "-n", namespace]);
    GetVerb(["get", "pods", "-n", namespace, "--field-selector=status.phase=Pending"]);
  }

  lemma {:induction false} KubectlIsSomething(words: seq<string>)
    ensures Kubectl(words) != ""
  {
    assert |"kubectl"| == 7;
  }

  lemma {:induction false} EditMutates(quota: string, namespace: string)
    requires AreWords([quota]) && AreWords([namespace])
    ensures ClassifyCommand(Kubectl(["edit", "resourcequota", quota, "-n", namespace])) == Mutating
  {
    var words := ["edit", "resourcequota", quota, "-n", namespace];
    assert Unspaced("edit") && Unspaced("resourcequota") && Unspaced("-n");
    assert quota in [quota] && namespace in [namespace];
    assert AreWords(words);
    ClassifyWords(words);
    hide ClassifyCommand, Kubectl, AreWords;
    EditIsNoReadVerb();
    assert "edit"[0] == 'e';
    assert Positional(words)[0] == "edit";
  }

  lemma {:induction false} EditIsNoReadVerb()
    ensures "edit" !in READ_ONLY_VERBS
  {
    assert |"edit"| == 4 && "edit"[0] == 'e' && |"auth"| == 4 && |"logs"| == 4;
  }

  predicate AllRead(commands: seq<string>) {
    forall c :: c in commands ==> ClassifyCommand(c) == ReadOnly
  }

  /** Everything an older reader is shown of a plan to run. */
  function ShownForReview(plan: LegacyPlan): seq<string> {
    plan.reviewCommands + plan.rollbackCommands
  }

  lemma {:induction false} AllReadSplit(a: seq<string>, b: seq<string>)
    ensures AllRead(a + b) <==> AllRead(a) && AllRead(b)
  {
    hide ClassifyCommand;
    assert forall c :: c in a + b <==> c in a || c in b;
  }

  /** The default rollback only reads, so a plan's own commands decide. */
  lemma {:induction false} LegacyPlanReads(plan: Plan)
    ensures AllRead(ShownForReview(ToLegacyPlan(plan))) <==>
            AllRead(FirstThree(CommandsOf(plan.remediation))) && AllRead(CommandsOf(plan.rollback))
  {
    GenericCommandsRead();
    hide ClassifyCommand, CommandsOf, RollbackHistory, GenericCommands, FirstThree, Descriptions;
    var legacy := ToLegacyPlan(plan);
    AllReadSplit(legacy.reviewCommands, legacy.rollbackCommands);
  }

  /** Whatever is shown when there is no hypothesis only reads. */
  lemma {:induction false} WithoutPlanReads(w: Wording, healthy: bool)
    ensures AllRead(ShownForReview(WithoutPlan(w, healthy, GenericCommands())))
  {
    GenericCommandsRead();
    var commands := GenericCommands();
    hide ClassifyCommand, RollbackHistory, GenericCommands;
    AllReadSplit(FirstThree(commands), [RollbackHistory()]);
  }

  /** Whatever is shown of a diagnostic plan only reads. */
  lemma {:induction false} DiagnosticPlanReads(w: Wording, h: Hypothesis, outstanding: seq<string>)
    ensures AllRead(ShownForReview(ToLegacyPlan(DiagnosticPlan(w, h, outstanding))))
  {
    GenericCommandsRead();
    DiagnosticPlanChangesNothing(w, h, outstanding);
    hide ClassifyCommand, RollbackHistory, GenericCommands, DiagnosticPlan, ToLegacyPlan;
  }
}
