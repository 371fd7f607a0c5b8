# Verified models of the Kubernetes operations agent and its reasoning core

This project models, in Dafny, the parts of the platform whose correctness
other parts rely on, and proves properties of them for every input, every
interleaving and every history.

- **The stream protocol** (`StreamProtocol`, `StreamProofs`, `StreamTheorems`,
  `StreamSteps`). Every `serve` call, the receive loop and the write lock they
  share, as a labelled transition system over goroutine program counters, one
  step per indivisible action. The semaphore is per request; `emitted` counts records
  handed to `send`; deferred calls run last in, first out.
- **Certificate renewal** (`Identity`, `Renewal`) and **the identity store**
  (`IdentityStore`). The renewal scheduler over any sequence of clock readings
  and answers, and the three stored files over any history of failures and
  crashes. Times are integer nanoseconds.
- **The reconnect loop** (`Reconnect`).
- **The soak arithmetic** (`SoakTrend`, `SoakTimeline`): the least-squares trend
  and the continuity guard, over reals.
- **The reasoning core** (`Signals`, `Names`, `Ordering`, `HypothesisRules`,
  `RuleProofs`, `ScoreProofs`, `SupportProofs`, `ChurnProofs`, `AnalysisEngine`,
  `EngineProofs`). How a rule scores one workload on its own evidence, how
  hypotheses rank, and how a scope reorders them.
- **What a model may influence** (`Grounding`, `AcceptanceProofs`, `RootCause`,
  `DiagnosisProofs`), with the planner and the command policy its diagnoses draw
  on (`Remediation`, `CommandPolicy`).
- **The agent's reads** (`Escaping`, `PolicyKinds`, `TableFacts`, `PolicyProofs`,
  `PathCleaning`, `Collector`, `CollectorProofs`, `RecordIds`). Which
  reads are served, the path each becomes, and the record made of the answers.
- **Commands printed and parsed** (`Text`, `SemanticFlags`, `CommandOptions`,
  `PrintParse`, `RecordedCommands`).

Objects the source updates in place are classes (`Holder`, `FileStore`,
`Collector`, `EvidenceRecord`, `StringMap`), and its loops are loops; each is
proved against a specification function, and the promises are lemmas about that
function. Where the source calls a foreign library or another component, the
model takes a parameter: a read is an oracle from the number of the read and the
request to a reply, certificates are a pairing predicate and a parser.

Where the code and its documentation disagree, the model follows the code:

- The replace-by-rename in the store keeps each file whole, but not the pair: a
  renewal that stops, by a crash or a mere write error, after replacing the key
  and before replacing the certificate leaves files `Load` refuses, and the agent
  does not come back from its next restart (`IdentityStore.LoadsAfterRenewal`
  gives the exact condition, `IdentityStore.StrandingHappens` and
  `IdentityStore.FailureStrandsToo` the histories).
- The vetting of commands promises that no unrecognised command, and no mutating
  one without its mark, reaches an operator. The commands of the plan shown for
  review do not pass through it (`RootCause.ReviewedAreNotVetted`,
  `RootCause.MarkedIffRecommended`, `RootCause.QuotaPlanIsBare`).
- Citations are checked against the hypothesis a model names; when it names none,
  the leading hypothesis is reported unchecked (`RootCause.UnnamedIsSupportedIff`,
  `RootCause.UnnamedIsUnchecked`).
- Scoring per workload is said to stop churn on an unrelated pod moving the
  confidence of the one named. It does for pods and deployments
  (`ChurnProofs.NoSupportFromOutside`, `ChurnProofs.WorkloadsAreOnlyDisplaced`);
  triggers of other kinds are supported by pods of other workloads
  (`ChurnProofs.ChurnMovesConfidenceIff`, `ChurnProofs.PendingPodMovesNode`).
- A case about a Service is said to rest on that Service and what it selects. It
  does while the Service triggers once; when two signals about one Service
  trigger, every pod in reach counts (`SupportProofs.ServiceSupportIff`,
  `SupportProofs.OtherSupportIff`, `SupportProofs.TwiceIsUnscoped`).

To check the whole project: `dafny verify dfyconfig.toml`.

## Model

| member | source | states |
|---|---|---|
| StreamProofs.StepKeepsInv | agent/internal/transport/client.go:94-247 | Every single step of any goroutine (receive loop, serve, or a spec's worker) keeps the invariant: counters agree with the goroutines counted, the lock is held by exactly the goroutine inside send, and each request's log agrees with its progress |
| StreamTheorems.RequestShape | agent/internal/transport/client.go:162-247 | In every reachable state the send attempts of one request are evidence, at most one per spec; once Done is sent they are exactly one per spec and then that one Done, both of whose counts are the number of specs, or the int32 that agrees with it modulo 2^32; the refusal path has the same shape |
| StreamTheorems.EvidencesOnceEach | agent/internal/transport/client.go:215-235 | The evidence a finished request has sent holds each of its specs once and nothing else |
| StreamTheorems.ReadsAreBounded | agent/internal/transport/client.go:46-51 | The goroutines of one request between acquiring and releasing a slot never exceed MaxConcurrent, or 8 where that is not positive |
| StreamProtocol.EffectiveLimit | agent/internal/transport/client.go:46-51 | The effective limit is always positive, so the semaphore can never block everyone |
| StreamTheorems.OneSenderAtATime | agent/internal/transport/client.go:94-103 | At most one goroutine of the client, of the receive loop, every serve and every worker, is inside send |
| StreamTheorems.NeverStuck | agent/internal/transport/client.go:162-247 | While any request has not ended, the agent itself has an enabled step: no interleaving deadlocks |
| StreamTheorems.InternalStepsDescend | agent/internal/transport/client.go:162-247 | Every step the agent takes by itself lowers a natural-number rank |
| StreamTheorems.RunsAreBudgeted | agent/internal/transport/client.go:105-247 | Over any run, with any requests and heartbeats arriving in between, the steps the agent takes by itself are paid for by the work at the start plus 15 per spec and 6 per request and 3 per heartbeat that arrived |
| StreamTheorems.InternalRunsAreShort | agent/internal/transport/client.go:162-247 | A run of n internal steps spends at least n of the starting rank, so the fan-out terminates |
| StreamTheorems.QuietMeansAnswered | agent/internal/transport/client.go:237-246 | When the agent has no step of its own left, every request has ended with its evidence and its Done sent, with both counts |
| StreamTheorems.OthersDoNotInterfere | agent/internal/transport/client.go:105-127 | A step of another request or of the heartbeat changes neither a request's state nor its messages |
| StreamTheorems.DoneIsFinal | agent/internal/transport/client.go:237-246 | After Done nothing more is ever sent for that request, in any continuation of the run |
| StreamSteps.ReaderTakesAnything | agent/internal/transport/client.go:105-127 | Between messages the receive loop takes any new request, a heartbeat, anything else or the end, and only then |
| StreamSteps.ArrivesAsSent | agent/internal/transport/client.go:105-127 | A request that arrives is added under the terms it came with, with nothing done for it yet |
| StreamSteps.TermsStay | agent/internal/transport/client.go:162-247 | The id, the specs and the refusal of a request never change |
| StreamSteps.ReaderWaitsOnlyFor | agent/internal/transport/client.go:94-127 | Answering a heartbeat, the receive loop waits only for the write lock |
| StreamSteps.ServerWaitsOnlyFor | agent/internal/transport/client.go:162-247 | In every reachable state a serve call that has not ended is held up exactly by the write lock where it is about to send, or by a worker of its own where it waits for them |
| StreamSteps.WorkerWaitsOnlyFor | agent/internal/transport/client.go:205-236 | In every reachable state a started worker is held up exactly by its request having every slot taken, by the write lock where it is about to send, or by another worker in the counter |
| StreamSteps.LogGrowsBy | agent/internal/transport/client.go:94-103 | Each step puts its own message on the stream in the middle of a send, and nothing anywhere else |
| StreamSteps.DeliveryChangesNothing | agent/internal/transport/client.go:94-103 | Whether a message was delivered changes nothing but the account of it |
| StreamSteps.HeartbeatsAreAnswered | agent/internal/transport/client.go:105-127 | In every run the heartbeats received are the answers sent and the one still due |
| Identity.Holder.Replace | agent/internal/identity/store.go:161-165 | Replace leaves exactly the given identity in the holder |
| Identity.DueAtIssue | agent/internal/identity/identity.go:116-124 | A certificate is due the moment it is issued if and only if twice its remaining life is at most its backdate plus two nanoseconds |
| Identity.ThrottleNeverDelays | agent/internal/identity/identity.go:126-158 | The throttle fixed at issue never delays a due renewal if and only if the backdate is at most the remaining life (plus the rounding term); the comment's claim that it never binds at a healthy lifetime |
| Identity.RoomBeforeExpiry | agent/internal/identity/identity.go:111-158 | Both the renewal point and the throttle leave a third of the remaining life before expiry |
| Renewal.KeepFresh | agent/internal/transport/enrol.go:185-245 | The ticker loop makes exactly the attempts, and leaves exactly the identity, that the schedule over its ticks says |
| Renewal.TickIsAttemptIff | agent/internal/transport/enrol.go:222-243 | Exactly when a tick is an attempt and what it leaves: a certificate is held, two thirds of its validity are over, and so is a third of what the latest attempt left; an answer is then held and a failure changes nothing |
| Renewal.AttemptsWait | agent/internal/identity/identity.go:111-124 | No attempt comes before two thirds of the validity of the certificate then held are over, and none without a certificate |
| Renewal.Spacing | agent/internal/transport/enrol.go:228-243 | Two attempts in a row are at least the interval fixed at the first of them apart |
| Renewal.RateBound | agent/internal/transport/enrol.go:196-219 | n attempts that each leave at least L of certificate life span at least (n-1)*floor(L/3) |
| Renewal.FailuresAreLogarithmic | agent/internal/transport/enrol.go:196-243 | While renewals fail and life remains, 3^n*(r_n-2) <= 2^n*(r_0-2): attempts before a given remaining life are logarithmic |
| Renewal.LoadedCertificateRenewsInTime | agent/internal/transport/enrol.go:193-245 | An agent running by the renewal point, with ticks no further apart than a third of the life left at issue, makes an attempt no later than NotAfter |
| Renewal.NextAttemptInTime | agent/internal/transport/enrol.go:193-245 | After any attempt that leaves a live certificate, the next attempt comes no later than that certificate's NotAfter, if ticks are close enough |
| Renewal.ExpiredAsksEveryTick | agent/internal/identity/identity.go:149-156 | Once the certificate has expired the throttle is gone and, while renewals fail, every tick asks |
| IdentityStore.FileStore.WriteFile | agent/internal/identity/store.go:125-136 | A file is replaced only by a completed temporary file; a failure or crash leaves the old one |
| IdentityStore.FileStore.Save | agent/internal/identity/store.go:72-83 | Save writes key, certificate and CA bundle in that order and stops at the first failure or crash |
| IdentityStore.SaveIsPrefix | agent/internal/identity/store.go:67-83 | Wherever a save stops, each stored file is wholly old or wholly new, the new ones being a prefix of key, certificate, CA bundle; it succeeds only when all three are new |
| IdentityStore.Renew | agent/internal/transport/enrol.go:141-148 | Renew validates, saves, and swaps the holder only after the save has succeeded |
| IdentityStore.RunKeepsInv | agent/internal/identity/store.go:72-136 | Over any history of enrolments, renewals, failures, crashes and restarts, the key on disk is never older than the certificate, nor that than the CA bundle, and the running identity is validated |
| IdentityStore.LoadIs | agent/internal/identity/store.go:86-114 | Load yields the stored identity exactly when all three files are whole, the pair matches and the certificate parses, and otherwise says what is wrong, the certificate first |
| IdentityStore.EnrolsIffSaved | agent/internal/transport/enrol.go:40-93 | An agent that enrols runs, with what was issued, exactly when the answer was sound and all three files were saved |
| IdentityStore.NothingTwice | agent/cmd/agent/main.go:245-270 | A running agent neither loads nor enrols again, one whose files exist does not enrol, and one that is down renews nothing |
| IdentityStore.LoadAfterAnyHistory | agent/internal/identity/store.go:86-114 | After any history, Load on a complete directory succeeds exactly when key and certificate come from the same issue, and then returns that pair; never a mismatched one |
| IdentityStore.SwapsOnlyWhatWasSaved | agent/internal/transport/enrol.go:141-148 | The held identity changes only to a validated pair whose three files are all on disk |
| IdentityStore.LoadsAfterRenewal | agent/internal/identity/store.go:72-114 | Whatever a renewal makes of a complete directory, by success, failure or crash, Load then succeeds if and only if the certificate was replaced too, or nothing was replaced and Load succeeded before; and what it then returns |
| IdentityStore.RestartsIffLoads | agent/internal/identity/store.go:86-114 | A process that dies over a complete directory comes back if and only if Load succeeds, with the identity Load returns |
| IdentityStore.ExistingIsComplete | agent/internal/identity/store.go:58-65 | In any history, a directory in which the three files exist holds three whole files |
| IdentityStore.StrandedStaysDown | agent/internal/identity/store.go:86-114 | An agent that is down with files it cannot pair stays down whatever happens next |
| IdentityStore.StrandingHappens | agent/internal/identity/store.go:72-83 | That state is reachable: one enrolment and one crash between the two renames |
| IdentityStore.FailureStrandsToo | agent/internal/identity/store.go:76-81 | No crash is needed: if writing the certificate merely fails, the agent runs on and does not come back from its next restart |
| Reconnect.ReconnectLoop | agent/cmd/agent/main.go:168-193 | The loop dials at exactly the times the backoff says, pass by pass |
| Reconnect.BackoffIsCappedDoubling | agent/cmd/agent/main.go:64-73 | After k consecutive short streams the base delay is min(3*2^k, 60) seconds |
| Reconnect.HealthyStreamResets | agent/cmd/agent/main.go:178-191 | After a stream that lasted and k short ones the base delay is min(3*2^(k+1), 60) seconds, whatever came before |
| Reconnect.DialsApart | agent/cmd/agent/main.go:168-193 | Between two dials lie the stream and a sleep spread over the delay then in force |
| Reconnect.DelaysAreRungs | agent/cmd/agent/main.go:178-191 | Whatever the streams do, the delay is one of 3, 6, 12, 24, 48 and 60 seconds |
| Reconnect.JitterStaysClose | agent/cmd/agent/main.go:195-201 | Every sleep is the delay times 0.8 + 0.4 * draw, to the nanosecond, so within a fifth of it |
| Reconnect.ReconnectsAreBounded | agent/cmd/agent/main.go:168-193 | Any n consecutive reconnects taking T seconds satisfy 78*n <= 150 + 5*T, however streams come and go: no more than one every 15.6 seconds in the long run |
| Reconnect.BoundIsAttained | agent/cmd/agent/main.go:168-193 | That bound is exact: runs of any length, of streams that last just long enough after every two that fail at once, meet it with equality |
| SoakTrend.TrendIsLeastSquares | scripts/soak_bench.py:562-573 | The trend over 3600 is the least-squares slope: no other line has a smaller sum of squares, and any line as good is that line |
| SoakTrend.MisfitGap | scripts/soak_bench.py:566-573 | How much worse any other line is, exactly: spread times squared slope difference plus n times squared height difference |
| SoakTrend.DegenerateTrendIsZero | scripts/soak_bench.py:564-571 | Fewer than three points, or points that share one x, give a trend of zero |
| SoakTrend.TrendIgnoresShifts | scripts/soak_bench.py:562-573 | Shifting all x or all y leaves the trend unchanged |
| SoakTimeline.LongWindowsHoldAFinish | scripts/soak_bench.py:857-869 | Any window inside the soak longer than longest_gap contains the finish of a usable run |
| SoakTimeline.GapsCoverTheSoak | scripts/soak_bench.py:857-869 | longest_gap times (count + 1) covers the elapsed time |
| SoakTimeline.TimelineIs | scripts/soak_bench.py:840-869 | The timeline counts exactly the runs that succeeded with usable evidence, gives the offsets of the first and the last of them, and without any the whole run as its gap |
| SoakTimeline.SomeStretchIsThatQuiet | scripts/soak_bench.py:857-869 | Some stretch of exactly longest_gap holds no usable finish, inside the soak when the finishes are |
| SoakTimeline.Refusals | scripts/soak_bench.py:919-954 | summarise refuses for volume, share and continuity exactly when the runs that succeeded with usable evidence are too few, too small a share, or more than five minutes and a tenth of the run apart |
| SoakTimeline.GuardIsContinuity | scripts/soak_bench.py:922-954 | The continuity guard passes if and only if every window longer than five minutes and than a tenth of the run holds a usable finish |
| Names.OwnerCharacterised | backend/app/analysis/hypothesis_rules.py:163-193 | The greedy pattern finds an owner if and only if the name is that owner followed by a suffix of the pattern |
| Names.MatchesNamedAfter | backend/app/analysis/engine.py:130-134 | The escaped pattern matches exactly the names made of the deployment, a hash of 1 to 10 lower-case letters and digits and a tail of 5, with or without a final newline |
| Names.OwnerIs | backend/app/analysis/hypothesis_rules.py:163-173 | The owner found by either pattern is the one the name is made of, and none is found exactly when there is none |
| Names.OwnershipAgrees | backend/app/analysis/hypothesis_rules.py:163-168 | _owned_by and the escaped pattern of _about and the scope agree on every pair of names except an empty deployment name or one with a newline |
| Names.OneOwner | backend/app/analysis/engine.py:130-134 | No pod matches the replica pattern of two deployments |
| Signals.KeyIsInjective | backend/app/evidence/models.py:104-107 | For well-formed names a key determines kind (up to case), namespace and name |
| Ordering.SortCorrect | backend/app/analysis/hypothesis_rules.py:858-870 | The sort returns a sorted permutation and leaves members that tie in the order they came in |
| Ordering.SortForgetsOrder | backend/app/analysis/engine.py:96 | Where the comparison decides, sorting forgets the input's order |
| Ordering.StringLeIs | backend/app/analysis/hypothesis_rules.py:858-870 | Strings are ordered by their first difference, a prefix first |
| HypothesisRules.GroupByInstance | backend/app/analysis/hypothesis_rules.py:82-84 | The dictionary holds each instance in first-seen order with exactly its triggers, in order |
| HypothesisRules.ScoreGroup | backend/app/analysis/hypothesis_rules.py:113-160 | The imperative _score computes the score of one workload on its own evidence |
| HypothesisRules.FirstBest | backend/app/analysis/hypothesis_rules.py:86-95 | max keeps the first best-scored instance |
| HypothesisRules.Evaluate | backend/app/analysis/hypothesis_rules.py:65-111 | evaluate groups, scores each group and concludes about the first best |
| ScoreProofs.EvaluationReports | backend/app/analysis/hypothesis_rules.py:66-111 | A rule fires exactly when some signal is of a triggering type, and then reports its own texts, the first of the most severe signals it rests on, and the ids of those, of their support and of their refutation, each in order |
| ScoreProofs.NamedIsBest | backend/app/analysis/hypothesis_rules.py:85-95 | The instance named is the unrefuted before the refuted, then the surer, the more severe, the one with more signals, and of equals the one that triggered first |
| ScoreProofs.ScoreRestsOn | backend/app/analysis/hypothesis_rules.py:113-130 | A score rests on the triggers nothing refutes, in order; or, when each is refuted, on all of them, against every refuting signal about their resources |
| ScoreProofs.ScoreIsSure | backend/app/analysis/hypothesis_rules.py:139-153 | The confidence is the base, ten more for every type of support, twenty less for every type of refutation, fifteen less for a lone unsupported trigger, within 5 and 92 |
| ScoreProofs.PrimaryIsMostSevere | backend/app/analysis/hypothesis_rules.py:152 | The primary signal is the first of the most severe |
| ScoreProofs.SeveritiesDescend | backend/app/analysis/models.py:20-26 | Critical outweighs high, high medium, medium low, and low info |
| ScoreProofs.PodJoinsOwnerIff | backend/app/analysis/hypothesis_rules.py:176-193 | A pod is grouped with a deployment or stateful set exactly when it is named after it, in the same namespace or both in none |
| ScoreProofs.OthersJoinIff | backend/app/analysis/hypothesis_rules.py:176-193 | Resources of other kinds are grouped only with themselves |
| SupportProofs.WorkloadSupportIff | backend/app/analysis/hypothesis_rules.py:196-279 | What supports a case about pods and deployments: of those, exactly the triggering resources, the deployments that own a triggering pod and the pods a triggering deployment owns; of everything else, whatever is not an event |
| SupportProofs.ServiceSupportIff | backend/app/analysis/hypothesis_rules.py:210-256 | What supports a case about Services, each triggering once: those Services; of pods and deployments in their namespaces, the ones they name, or any when they name none and not all are known to select nothing; of everything else, what is in reach |
| SupportProofs.OtherSupportIff | backend/app/analysis/hypothesis_rules.py:210-262 | What supports any other case, a Service that triggers more than once among them: whatever is in reach, except pods and deployments when every triggering Service is known to select nothing |
| SupportProofs.TwiceIsUnscoped | backend/app/analysis/hypothesis_rules.py:217-245 | A pod a Service does not name does not support a case about it while the Service triggers once, and does when it triggers twice |
| RuleProofs.BestIsFirstMaximum | backend/app/analysis/hypothesis_rules.py:86-95 | The chosen instance is strictly better than every earlier one and no later one is better |
| RuleProofs.RefutedIffEveryTriggerIs | backend/app/analysis/hypothesis_rules.py:120-132 | A hypothesis carries refuting ids if and only if every triggering signal is refuted on its own target |
| RuleProofs.CitesOneInstance | backend/app/analysis/hypothesis_rules.py:97-111 | What it cites is triggers of the one instance it names, then signals about it; unless all are refuted, exactly the unrefuted triggers |
| RuleProofs.CitesOnlyGiven | backend/app/analysis/hypothesis_rules.py:97-111 | A hypothesis is about a resource in the evidence and cites only ids carried by it |
| RuleProofs.ConfidenceMoves | backend/app/analysis/hypothesis_rules.py:143-150 | More kinds of support never lower a confidence, more kinds of refutation never raise it, and it stays between 5 and 92 |
| RuleProofs.ScoreIgnoresOthers | backend/app/analysis/hypothesis_rules.py:70-81 | Non-interference: evidence that agrees on what bears on a workload gives it the same confidence, severity, supporting and refuting signals |
| RuleProofs.EvaluationIgnoresOthers | backend/app/analysis/hypothesis_rules.py:65-111 | So two evaluations that name the same workload are identical |
| RuleProofs.ChurnIsNotKept | backend/app/analysis/hypothesis_rules.py:196-279 | A signal about another pod or deployment does not bear on a workload, wherever it stands |
| ChurnProofs.ChurnMovesIffItSupports | backend/app/analysis/hypothesis_rules.py:113-160 | Exactly when churn moves a score: one more signal about another pod or deployment, wherever it stands, changes the score of a group, of whatever kind, if and only if the rule counts it as support for that group |
| ChurnProofs.ChurnMovesConfidenceIff | backend/app/analysis/hypothesis_rules.py:139-153 | Exactly when churn moves a confidence, and to what: the signal supports the group, no support of the group had its type yet, and the bonus, with the penalty a lone trigger is then spared, is not absorbed by the bounds |
| ChurnProofs.NoSupportFromOutside | backend/app/analysis/hypothesis_rules.py:133-136 | A group of pods and deployments is never supported by a signal about another pod or deployment, so its score does not move |
| ChurnProofs.ChurnDisplacesOnlyItself | backend/app/analysis/hypothesis_rules.py:78-95 | One more signal about another workload leaves what a rule concludes as it was, or makes it name that workload, or supports the instance it named before or names now; for any rule |
| ChurnProofs.WorkloadsAreOnlyDisplaced | backend/app/analysis/hypothesis_rules.py:78-136 | When the instances a rule named before and names now are made of pods and deployments, one more signal about another workload leaves its conclusion as it was or makes it name that workload |
| ChurnProofs.PendingPodMovesNode | backend/app/analysis/hypothesis_rules.py:486-518 | The rule about unhealthy nodes takes a pending pod of any namespace as support: one such signal moves its confidence from 45 to 70 |
| EngineProofs.RankOrders | backend/app/analysis/hypothesis_rules.py:818-870 | rank keeps every hypothesis, orders them by its key and never puts a refuted one ahead of an unrefuted one |
| EngineProofs.RankedByKey | backend/app/analysis/hypothesis_rules.py:858-870 | Spelled out: the unrefuted first, then the surer, the more severe, the one with more support, and of equals the greater id |
| AnalysisEngine.ExtractSignals | backend/app/analysis/engine.py:81-96 | The dictionary loop returns the first observation of each id, sorted, skipping rules that raise |
| EngineProofs.ExtractedByKey | backend/app/analysis/engine.py:96 | The extracted signals come the most severe first, and of equals the smaller id first |
| EngineProofs.FirstObservationWins | backend/app/analysis/engine.py:81-96 | Of each id exactly the first observation is extracted, once |
| AnalysisEngine.BuildHypotheses | backend/app/analysis/engine.py:98-111 | The loop returns the ranked proposals, skipping rules that raise or stay silent |
| EngineProofs.ExtractionIsOfASet | backend/app/analysis/engine.py:81-96 | The extracted signals depend only on the set of observations: not on rule order, repetition or raising rules |
| EngineProofs.RaisingIsLeavingOut | backend/app/analysis/engine.py:101-106 | A hypothesis rule that raises has the effect of a rule left out |
| EngineProofs.AnalysisForgetsOrder | backend/app/analysis/engine.py:39-111 | The whole analysis is unchanged by permuting either list of rules or repeating observations |
| EngineProofs.BuiltFromPatterns | backend/app/analysis/engine.py:98-111 | The hypotheses built are exactly the evaluations of the pattern rules |
| EngineProofs.ScopeOnlyReorders | backend/app/analysis/engine.py:48-63 | A scoped analysis has exactly the hypothesis ids of the unscoped one, each once, over the same signals |
| EngineProofs.ScopedIff | backend/app/analysis/engine.py:39-77 | An analysis is scoped exactly when a named pod or deployment was asked for, in whatever case, and says which; otherwise it ranks all the evidence |
| EngineProofs.WithinConcerns | backend/app/analysis/engine.py:114-134 | A scope keeps exactly the signals about the named pod, or about the named deployment and the pods named after it |
| EngineProofs.ScopedLead | backend/app/analysis/engine.py:60-78 | The first scoped_hypotheses entries are what the evidence about that resource yields alone: about it, and citing only signals about it; the others are what all the evidence yields; both segments are ranked |
| Grounding.PartitionCitations | backend/app/analysis/grounding.py:264-287 | The one-pass loop fills the two lists with the distinct known and the distinct unknown citations |
| Grounding.PartitionIsSound | backend/app/analysis/grounding.py:264-287 | The two lists are disjoint, free of repeats, keep the order of citation, and together hold every non-blank citation |
| Grounding.ClaimsAre | backend/app/analysis/grounding.py:275-282 | The citations are exactly the non-blank stripped items |
| Grounding.AcceptedIff | backend/app/analysis/grounding.py:121-185 | An answer is accepted if and only if it states a cause, names nothing or a real hypothesis, cites a real signal when there are any and one supporting the hypothesis it names, and passes both prose checks |
| Grounding.FoundIsFirst | backend/app/analysis/models.py:245-246 | The hypothesis found under an id is the first that has it |
| AcceptanceProofs.RejectedForTheFirst | backend/app/analysis/grounding.py:121-185 | Read off the payload: an answer is rejected for the first of six questions it fails, each with its own reason, and accepted when it fails none |
| Text.StripIs | backend/app/analysis/grounding.py:122 | Stripping a text removes exactly the space at its ends |
| Text.SpacesAre | backend/app/analysis/grounding.py:122 | What counts as space, character by character |
| Grounding.AcceptedIsGrounded | backend/app/analysis/grounding.py:121-185 | An accepted answer cites only real signals, cites some when there are any, and names either nothing or a real hypothesis some citation supports |
| RootCause.VettedCommands | backend/app/ai/root_cause_analyzer.py:299-321 | The loop drops unrecognised commands and marks mutating ones |
| RootCause.VettedAreRecognised | backend/app/ai/root_cause_analyzer.py:299-321 | Exactly the recognised commands are offered, each as it may be shown, in order |
| RootCause.EvidenceIdsFor | backend/app/analysis/models.py:251-261 | The nested loops return the evidence of the signals found, in order, each once |
| RootCause.EvidenceOfTheFirst | backend/app/analysis/models.py:242-261 | The evidence of an id is that of the first signal that has it |
| RootCause.RemedyIsForReported | backend/app/ai/root_cause_analyzer.py:116-184 | On every path a diagnosis reports a hypothesis whenever there is one, and its commands, risk, plan, remediation, patches, signals and hypotheses are those built for that hypothesis |
| RootCause.SameSelectionSameRemedy | backend/app/ai/root_cause_analyzer.py:63-100 | Any two model answers, accepted or rejected, that lead to the same reported selection lead to identical commands, remediation, risk, plan and patches |
| DiagnosisProofs.ModelSuppliesWords | backend/app/ai/root_cause_analyzer.py:116-184 | An accepted answer supplies its root cause, and its explanation, fix, prevention, gaps, steps and reasons where it gives any; the rest is what the platform says of the same hypothesis |
| DiagnosisProofs.WithoutAnswer | backend/app/ai/root_cause_analyzer.py:63-101 | Without an accepted answer the diagnosis is the platform's own about the leading hypothesis, with only the client's error added to the explanation |
| DiagnosisProofs.PlainWords | backend/app/ai/root_cause_analyzer.py:186-288 | What the platform says by itself of a hypothesis: its hint or else the recommended fix, its own support, and, whichever it is, the rationale and the reasons of the leading one |
| DiagnosisProofs.PlainWordsOfNothing | backend/app/ai/root_cause_analyzer.py:186-288 | What it says when no pattern matched |
| CommandPolicy.ClassifyWords | backend/app/kubernetes/command_policy.py:54-107 | A kubectl line made of words is classified by its words that are not flags: read-only verbs and their allowed sub-commands, anything else mutating |
| CommandPolicy.OnlyTheseRead | backend/app/kubernetes/command_policy.py:15-107 | Which kubectl lines only read: those whose first word that is no flag is one of ten verbs, or auth, config or rollout with one of their reading sub-commands; lines of flags alone are unrecognised |
| CommandPolicy.PositionalIs | backend/app/kubernetes/command_policy.py:70 | The arguments are the words that do not start with a hyphen, in order |
| CommandPolicy.OthersAreUnrecognised | backend/app/kubernetes/command_policy.py:66-68 | What does not start as a kubectl command is unrecognised |
| CommandPolicy.LineBreaksAre | backend/app/kubernetes/command_policy.py:66 | What ends a line, character by character |
| Remediation.DiagnosticPlanChangesNothing | backend/app/remediation/planner.py:55-112 | A diagnostic plan shows no command for review, and only the rollout history to roll back |
| Remediation.GenericCommandsRead | backend/app/ai/fix_recommendation_engine.py:69-75 | The commands offered when nothing is diagnosed only read |
| Remediation.StepsInOrder | backend/app/remediation/models.py:187-193 | The commands of a plan are those of its steps, in order, without the steps that have none |
| Remediation.LegacyPlanIs | backend/app/remediation/models.py:215-224 | The older shape shows the descriptions to check first, at most the first three commands of the change, and always a way back |
| Remediation.LegacyRiskIs | backend/app/remediation/models.py:154-163 | The older shape says restart and rollback exactly as the risk has them |
| Remediation.RecommendationIs | backend/app/ai/fix_recommendation_engine.py:102-124 | About a hypothesis: its hint before the plan's summary, the plan's commands in order, and to confirm the plan's target unless that is a placeholder |
| Remediation.NothingDiagnosed | backend/app/ai/fix_recommendation_engine.py:81-100 | With nothing diagnosed: the generic commands, and approval asked for exactly when the cluster is not healthy |
| Remediation.DiagnosticPlanIs | backend/app/remediation/planner.py:55-112 | A diagnostic plan is about the hypothesis and its target, looks at that resource, lists what is outstanding, and passes the hint on as a caveat |
| RootCause.ReportedIsChosen | backend/app/ai/root_cause_analyzer.py:116-184 | What a diagnosis reports is settled beforehand: the hypothesis an accepted answer names, or else the leading one |
| CommandPolicy.RemarkedStillMutates | backend/app/kubernetes/command_policy.py:54-107 | A remark at the end of a command that changes state does not make it classify as one that only reads |
| RootCause.MarkedIffGiven | backend/app/ai/root_cause_analyzer.py:299-321 | The vetting shows a mutating command marked if and only if it is among the commands it is given |
| RootCause.ReviewedAreNotVetted | backend/app/remediation/models.py:215-224 | The plan shown for review escapes the vetting: all it shows only reads if and only if no rule builds a plan for the hypothesis the answer chooses, or that plan only reads in the first three commands it remediates with and in all it rolls back with |
| RootCause.MarkedIffRecommended | backend/app/ai/root_cause_analyzer.py:299-321 | Of the mutating commands shown for review, to change or to roll back, one is marked in the same diagnosis if and only if the plan prepares, remediates or verifies with it; every command to change is, a command of the rollback alone is not |
| RootCause.QuotaPlanIsBare | backend/app/remediation/rules.py:545-625 | The plan for any exhausted quota shows its edit for review unmarked, and a mutating rollback that is marked nowhere |
| RootCause.AnalysesAreHonest | backend/app/analysis/engine.py:39-79 | Every hypothesis the pattern rules produce, scoped or not, rests on signals the analysis holds |
| RootCause.CitationsAreReal | backend/app/ai/root_cause_analyzer.py:156-181 | Whichever path a diagnosis took it cites only real signals, and shows exactly the evidence of the signals found under the cited ids, each once |
| RootCause.NamedIsSupported | backend/app/analysis/grounding.py:208-231 | A hypothesis the model itself names, and that has support, has a citation that supports it |
| RootCause.UnnamedReportsTop | backend/app/ai/root_cause_analyzer.py:156-180 | When the model names nothing, the leading hypothesis is reported, with the model's real citations, or with its own support if there are none |
| RootCause.UnnamedIsSupportedIff | backend/app/analysis/grounding.py:208-231 | For every accepted answer that names nothing: a citation supports the reported hypothesis if and only if the answer cites a real signal it rests on, or cites no real signal and the hypothesis has support |
| RootCause.UnnamedIsUnchecked | backend/app/analysis/grounding.py:219-224 | On every analysis holding a signal its leading hypothesis does not rest on, an answer that names nothing and cites that signal alone is accepted, and nothing cited supports what is reported |
| RootCause.UnrelatedFinding | backend/app/analysis/engine.py:39-79 | The engine produces such analyses: any pattern rule that fires on one finding and has nothing to do with another |
| Escaping.SegmentRoundTrip | agent/internal/policy/kinds.go:141-152 | Every value can be read back from the segment url.PathEscape makes of it |
| Escaping.EscapedIsOneSegment | agent/internal/policy/kinds.go:122-126 | An escaped value is one segment of section 3.3 of RFC 3986: no separator, empty only for the empty value |
| Escaping.EscapesOnly | agent/internal/policy/kinds.go:141-152 | Letters, digits and -_.~$&+=:@ stand for themselves; every other byte is a percent sign and two upper-case digits |
| Escaping.EscapedInOrder | agent/internal/policy/kinds.go:141-152 | A segment is its bytes escaped one after the other |
| PolicyKinds.Resolve | agent/internal/policy/kinds.go:127-171 | Resolve grows the path, query and command of the table entry, or refuses the kind |
| PolicyKinds.PathAndScope | agent/internal/policy/kinds.go:137-152 | The path is the group, the effective namespace, the plural and the name, each one segment |
| PolicyKinds.QueryFrom | agent/internal/policy/kinds.go:154-163 | The query holds exactly the selectors and limit that are set |
| PolicyKinds.LogOptions | agent/internal/policy/kinds.go:179-200 | The log query and flags are those of the parameters; all_containers is recorded and never queried |
| PolicyKinds.ResolveLogs | agent/internal/policy/kinds.go:173-214 | A log read needs a namespace and a pod name, and reads the log endpoint |
| PolicyKinds.Command | agent/internal/policy/kinds.go:233-258 | The command is its parts in order, -o json only for get |
| PolicyProofs.TableIsFaithful | agent/internal/policy/kinds.go:58-100 | No two of the 24 kinds share an API group and plural |
| PolicyProofs.PathReadsBack | agent/internal/policy/kinds.go:127-214 | Every path Resolve produces reads back as exactly its kind, effective namespace and name, across the table and the log endpoint |
| PathCleaning.PathIsCleanIff | agent/internal/collectors/collector.go:109-122 | Cleaning, as AbsPath does it, leaves a resolved path alone if and only if neither the effective namespace nor the name is "." or ".." |
| PolicyProofs.OnePathOneTarget | agent/internal/policy/kinds.go:127-214 | Two reads of the same path are reads of the same thing |
| PolicyProofs.ServedIff | agent/internal/policy/kinds.go:113-135 | A read is served if and only if its kind is supported and, for logs, a namespace and name are given |
| PolicyProofs.QueryIsExact | agent/internal/policy/kinds.go:154-163 | The query of a table read asks for the selectors and limit that are set, and for nothing else |
| PolicyProofs.LogQueryIsExact | agent/internal/policy/kinds.go:179-200 | The query of a log read asks for the container, tail and previous run that are set, and never for all containers |
| SemanticFlags.Parse | scripts/provider_diff.py:222-255 | The index loop returns the folded flags of the tokens, or nothing for an empty command |
| CommandOptions.FlagsAreInjective | scripts/provider_diff.py:246-254 | Flag texts say exactly which settings they were made from, whichever form they were written in |
| CommandOptions.SettingsAreInjective | scripts/provider_diff.py:222-231 | Settings say exactly which options they stand for, the groups as a set |
| PrintParse.PrintThenParse | agent/internal/policy/kinds.go:173-258 | Out of the command recorded for any served read, with readable values, come exactly its namespace, selectors, container, tail, switches and identity |
| PrintParse.CommandsAgreeIff | scripts/provider_diff.py:222-255 | Two commands compare equal if and only if their options agree, the groups as a set |
| PrintParse.CommandTellsRead | agent/internal/policy/kinds.go:22-27 | A command tells which read it records: of one kind, name and limit, two reads whose commands compare equal ask the same path with the same query |
| RecordedCommands.RecordedOnlyRead | backend/app/kubernetes/command_policy.py:54-107 | Every command the agent records, whatever it reads and as whomever, is one the platform classifies as only reading |
| PrintParse.SpacedReadsBackIff | scripts/provider_diff.py:233-254 | An option and its value, a space between them, are read back if and only if the value is one word that is not a flag; the rest of a set-based selector is lost |
| PrintParse.AttachedReadsBackIff | scripts/provider_diff.py:240-254 | A value attached to its flag is read back if and only if it is one word |
| CollectorProofs.StatusIs | agent/internal/collectors/collector.go:376-389 | Which status each failure of a single read gets; a missing answer is empty exactly when one object was named, unavailable when none was |
| CollectorProofs.PayloadIs | agent/internal/collectors/collector.go:76-97 | A single read leaves the answer as it came, or a log as text, and no detail; a failed one no payload and the reason |
| RecordIds.EvidenceIdIs | agent/internal/collectors/collector.go:472-487 | A record's id is the kind of evidence and the kind, namespace and name it is about, or the cluster |
| RecordIds.EvidenceIdTells | agent/internal/collectors/collector.go:472-487 | Records with one id are of one kind and about one thing, when no part holds a separator |
| Collectors.Copy | agent/internal/collectors/collector.go:183-194 | A copy of the parameters is a fresh map with the same entries |
| Collectors.ContainerNamesOf | agent/internal/collectors/collector.go:240-272 | The nested loop lists the non-empty names of init, regular and ephemeral containers, or refuses |
| Collectors.Collector.Perform | agent/internal/collectors/collector.go:109-121 | One request is sent, for the read's path and query, in the actor's name if and only if the agent impersonates and the actor has a name |
| Collectors.GroupsFollow | agent/internal/collectors/collector.go:330-334 | The groups follow in their order, each behind its own flag |
| Collectors.Collector.ImpersonationSuffix | agent/internal/collectors/collector.go:322-334 | The suffix records that same identity, and nothing when there is none |
| Collectors.Collector.ReadContainer | agent/internal/collectors/collector.go:188-204 | One container's log read is resolved from a copy of the parameters and sent; the refusal branch is unreachable |
| Collectors.Collector.ReadContainers | agent/internal/collectors/collector.go:188-212 | Containers are read in order until one fails; the bodies before it are concatenated |
| Collectors.Collector.CollectEveryContainer | agent/internal/collectors/collector.go:147-218 | The record filled in place and the requests issued are those of the specification; the later refusal branches are unreachable |
| Collectors.Collector.Collect | agent/internal/collectors/collector.go:51-97 | One fresh record whatever happens, with its id, command and finding; every request issued is in the actor's name, and the command says so with its groups, if and only if the agent impersonates and the actor has a name; the caller's parameters unchanged |
| CollectorProofs.GoodIffEverythingRead | agent/internal/collectors/collector.go:147-218 | An all-containers record is OK if and only if the pod, the container listing and every container were read; then it wraps the concatenation, otherwise it has no payload and carries the first failure |
| CollectorProofs.ContainersInOrder | agent/internal/collectors/collector.go:258-271 | The containers read are exactly the named ones, init, then regular, then ephemeral |
| CollectorProofs.PlanNamesContainers | agent/internal/collectors/collector.go:194-196 | Each container's read asks for that container of that pod |
| CollectorProofs.OnlyResolvedReads | agent/internal/collectors/collector.go:131-137 | Every request issued is an output of Resolve for the spec's own target and parameters, or for the pod or one container of an all-containers read, under the given identity, and its path reads back to that target |
| CollectorProofs.RefusedIff | agent/internal/collectors/collector.go:68-76 | A record is not-applicable if and only if the spec is refused, and a refused spec issues no request |
| CollectorProofs.RefusalSays | agent/internal/policy/kinds.go:127-214 | A refused spec leaves no payload and says whether the kind is unknown or a log read lacks its pod |

## Left out

- gRPC, TLS, x509, key generation, the Kubernetes client and JSON encoding: foreign libraries, taken as parameters.
- What client-go does with a path after Resolve beyond cleaning it, and with query parameters; the cleaning is Go's documented path.Clean.
- PolicyProofs.PathReadsBack: about the path Resolve makes; PathCleaning.PathIsCleanIff says when that is the path requested.
- Floating point: the renewal fraction 2/3 and the jitter are exact with truncation to nanoseconds, the soak arithmetic is over reals; rounding of the binary fractions is not part of the model.
- The budget deadline of a request: it only makes reads fail, and a read may already fail in any way.
- Panics in a collector, and what happens to a request when the stream closes under it beyond failed sends.
- Power loss: a rename that succeeded is taken to be durable. The Secret-backed store is not modelled.
- Renewal.LoadedCertificateRenewsInTime: takes ticks as given clock readings; that a Go ticker keeps its period is an assumption on them.
- IdentityStore.LoadAfterAnyHistory: assumes every renewal makes a fresh key, so that only a certificate and a key of the same issue pair up; IdentityStore.LoadsAfterRenewal assumes it of the one renewal.
- Reconnect.ReconnectsAreBounded: stated in whole passes of the loop; the end of the process and the `--once` flag only cut a run short.
- The bodies of the signal rules, the default rule table, the evidence gaps and the incident grouping: mostly one-branch facts or joins.
- Names.OwnerCharacterised: `\d` is the ASCII digits; Python also accepts other Unicode decimal digits.
- Signals.KeyIsInjective: for names without a slash in kind or namespace and a kind spelt as Kubernetes spells it; lower-casing is ASCII only, and the uid is not modelled.
- RuleProofs.ScoreIgnoresOthers: stated for workloads whose triggers are all pods and deployments; ChurnProofs.ChurnMovesIffItSupports says for every group when it holds.
- The composite confidence scorer: its result depends on float rounding, so it is a parameter; so are the prose checks of the grounding and the remediation rules, of which only the quota rule is written out.
- The wording of plans and recommendations, which is a parameter; the permissions, signal ids and evidence ids a plan also carries; the incidents and the risk of a diagnosis without a plan, the durations and collection times of a record, and log lines and metrics.
- CollectorProofs.StatusIs: the error classes of client-go are three booleans.
- PrintParse.PrintThenParse: for values that are one word and do not start with a hyphen, the only ones that survive: PrintParse.SpacedReadsBackIff and PrintParse.AttachedReadsBackIff are exact.
- PolicyKinds.Resolve: the text of a refusal is a constructor, and a Go map with missing keys read as empty strings.
- The structural comparison around the command flags in provider_diff, the advertised list of kinds, and the labels given to rejections.
- Job leases, presence, caches, the console, deployment and benchmark scripts: I/O or glue.
