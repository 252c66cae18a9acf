# A model of ProofLoop's kernel

ProofLoop's kernel decides when an agent run may stop, be retried, be escalated, or be called `PROVEN`. This project
models that kernel in Dafny and proves what its decisions are worth. Language models, hosts, git and the processes that
run checks are nondeterministic: whatever they may answer is a parameter, and the theorems hold for every answer.

- **Repair** (`Repair`, `ExternalLoop`, `TaskExecutor`): the rule table and the two loops that drive it, against an
  adversarial environment, with replans that may change the budgets.
- **Obligations** (`EvidencePolicy`, `ProofGraph`, `ObligationLifecycle`, `ObligationTheorems`, `ObligationClosure`,
  `Orchestrator`): the proof graph as a heap of mutable objects, each method proved against a step on values; runs are
  lists of steps.
- **Evidence and verdict** (`VerificationPlan`, `Documents`, `LiveEvidence`, `SealTheorems`, `Assurance`, `Truth`,
  `TruthGate`, `FinalChecks`, `FinalReview`, `Kernel`): the frozen plan, the sealed bundle, the claim ledger, the truth gate and the
  whole run. A run directory is a map from path to contents, and a digest is a free constructor of what it digests.
- **Traceability** (`Clauses`, `Intent`, `JsonPointer`, `ExecutionBrief`, `Reconciler`, `Blueprint`, `Preparation`,
  `Traceability`): from the raw request to criteria, brief, plan and tasks, and back from a `PROVEN` verdict to the
  lines of the request. `WitnessRequest` and `Witness` hold two concrete runs.
- **Logs and ledgers** (`EventRecord`, `EventLog`, `Usage`), **policies** (`PromptAlgebra`, `RunPolicy`) and the
  **diff guard** (`DiffGuard`).

Methods that change state are proved equal to a function on values (`old` state to new state); the theorems are about
those functions.

## What does not hold

Each of these is stated exactly; most with an input that shows it.

- A fast-lane run can end `PROVEN`: the truth gate skips the obligations when the intent contract is not in the run
  directory. `Kernel.FastLaneExactly` says exactly when, and `Witness.FastLaneWitness` is such a run.
- A criterion that no task naming it checks by a command of the catalogue keeps the run from `PROVEN`, whatever passed
  (`Traceability.RequestProvenExactly`); nothing refuses such a plan beforehand.
- A run whose frozen plan has evaluator inputs never ends `PROVEN` while its manifest stands, because the final report
  carries no repository (`Kernel.EvaluatorInputsNeverProven`, for every such run).
- Tasks that pass their own guards do not make the aggregate pass. Permissions for new files are not carried over, and
  the old name of a renaming is seen by no task's guard: `DiffGuard.AggregatePassesIff`, `DiffGuard.PermittedFileFails`,
  `DiffGuard.RenamedThenDeletedFails`, `DiffGuard.RenamedFilePasses`.
- A new file that a task does not put into the index is listed as deleted and as added by every later guard, though
  nothing changes it: `DiffGuard.UntouchedFilesIff`, `DiffGuard.EarlierTestFails`.
- A log whose messages contain U+0085, U+2028 or U+2029 cannot be read back (`EventLog.ReadableIffPlain`,
  `EventLog.LineSeparatorFails`).
- A policy with an empty version does not survive its dictionary form (`PromptAlgebra.DictRoundTrip`,
  `PromptAlgebra.EmptyVersionIsLost`).
- Merging an empty group of templates fails where merging everything at once may not (`PromptAlgebra.EmptyGroupFails`).
- The failure code `FINAL_REVIEW_LOOP_EXHAUSTED` (`proofloop_core/engine/orchestrator.py:1725`) is never reached: a second
  review cycle never asks for another repair (the contract of `FinalReview.ReviewOnce`).
- `record` never reopens a closed obligation (`ProofGraph.ClosedIff`); only recovery does.

## Model

| member | source | states |
|---|---|---|
| Repair.ActionMeaning | proofloop_core/engine/repair.py:122-213 | The first-match table decides exactly when both budgets are explicit, and its action and rule are those the attempt history alone entitles the task to: success, owner decision, granted role, or the one reason it is blocked; with no history the fast role runs |
| Repair.Decide | proofloop_core/engine/repair.py:199-209 | The decision taken on a history fits the history, however the state was counted from it |
| Repair.EvidenceDeltaExactly | proofloop_core/engine/repair.py:59-73 | There is new evidence unless nothing but the role tells the last two attempts apart |
| Repair.StuckExactly | proofloop_core/engine/repair.py:122-134 | A task is stuck exactly when its last two attempts are alike in everything and bear a fingerprint |
| ExternalLoop.RunExternalLoop | proofloop_core/engine/external_loop.py:97-159 | Every attempt ran in the role the attempts before it granted, with a command for it, and records what the environment showed; the loop ends ready for review exactly on a passing attempt, and otherwise for the one reason the history leaves |
| ExternalLoop.OneEnding | proofloop_core/engine/external_loop.py:97-159 | Budgets, commands and environment settle the loop: two results allowed by the contract are the same |
| ExternalLoop.ShapeOfHistory | proofloop_core/engine/external_loop.py:97-159 | Every legal history is fast attempts then recovery attempts, within each budget, and starts with a fast one |
| ExternalLoop.NoThirdIdenticalAttempt | proofloop_core/engine/repair.py:122-189 | Two consecutive attempts of one role with an equal fingerprint and no change in evidence are never followed by a third in that role |
| ExternalLoop.PassEndsHistory | proofloop_core/engine/external_loop.py:139-143 | No attempt follows a passing one |
| ExternalLoop.AttemptsWithinBudget | proofloop_core/engine/external_loop.py:97-159 | No run of the loop exceeds the sum of both budgets |
| TaskExecutor.ExecuteTask | proofloop_core/engine/task_executor.py:116-423 | Terminates against any environment. A task begins exactly when its declared baseline and red proofs met their expectations, or a direct bootstrap declared none, and otherwise makes no attempt and fails for the one reason; once begun its trace is legal, observed, made of invocations that came to their end, and within the goal cycles, and it ends for the one reason the trace leaves. The steps of the run are exactly those of the attempts: recovery activated before each recovery attempt, a prompt compiled for each but a bootstrap's |
| TaskExecutor.OneOutcome | proofloop_core/engine/task_executor.py:116-423 | The brief, the world and the goal cycles left settle a task: two outcomes allowed by the contract are one outcome with one trace |
| TaskExecutor.TraceBounds | proofloop_core/engine/task_executor.py:156-423 | Over any replans with any budgets, fast attempts are at most the largest fast budget plus one per replan and recovery attempts at most the largest recovery budget |
| TaskExecutor.BoundIsMet | proofloop_core/engine/task_executor.py:156-423 | The bound on fast attempts is reached, for every budget and number of replans |
| TaskExecutor.Judge | proofloop_core/engine/task_executor.py:300-423 | What the loop does after an attempt is the one thing that fits its history, budgets and replans |
| TaskExecutor.OneNext | proofloop_core/engine/task_executor.py:300-423 | Two continuations that fit one history are the same, so that what the loop does is determined by it |
| TaskExecutor.OwnerIsAsked | proofloop_core/engine/task_executor.py:372-396 | Of the failures that are an owner's to decide, exactly those of design, repository facts and hypothesis go back to the planner |
| TaskExecutor.Preimplementation | proofloop_core/engine/orchestrator.py:1370-1397 | No failure exactly when the task may begin; otherwise the one failure that fits, the baseline before the red checks |
| EvidencePolicy.AuthoritySeparation | proofloop_core/contracts/evidence_policy.py:30-73 | Model-written output closes nothing; a semantic claim is closed by a parent's review alone and a review closes nothing else; product behaviour is closed by core checks alone |
| EvidencePolicy.AllowedExactly | proofloop_core/contracts/evidence_policy.py:30-73 | Told by origin, the two tables together allow exactly the listed authorities and claims |
| ProofGraph.ProofGraphStore.Record | proofloop_core/context/proof_graph.py:124-156 | On the heap: records one piece of evidence, or raises and changes nothing, exactly as the step on values does |
| ProofGraph.ProofGraphStore.AddObligation | proofloop_core/context/proof_graph.py:119-122 | Appends an obligation whose id is new and refuses any other, changing nothing |
| ProofGraph.ClosedIff | proofloop_core/context/proof_graph.py:124-156 | After any batch an obligation is closed exactly when it was before or some piece of the batch passes every test; nothing else about the obligations changes |
| ProofGraph.ClosedSetIgnoresOrder | proofloop_core/context/proof_graph.py:124-156 | The closed set does not depend on the order of the evidence or on repeats |
| ObligationLifecycle.RunInvariant | proofloop_core/engine/orchestrator.py:1334-1434 | Over every run: obligations are never dropped, renamed or lowered in revision; every closed one has a qualifying witness, and every witness comes from a step of the run |
| ObligationTheorems.ClosedExactlyWhenWitnessed | proofloop_core/context/proof_graph.py:124-156 | Over every run, recovery included, an obligation is closed exactly when the evidence recorded so far holds a piece that qualifies at its present revision |
| ObligationTheorems.VerificationCloses | proofloop_core/engine/orchestrator.py:1334-1368 | One verification closes exactly what it earned: semantic obligations by an independent approval, criteria by the plan's gate, the rest by passing checks or diff |
| ObligationTheorems.ActivationIsIdempotent | proofloop_core/engine/orchestrator.py:1399-1434 | Activating recovery again, whatever was recorded since, changes nothing |
| ObligationTheorems.RecoveryPresence | proofloop_core/engine/orchestrator.py:1399-1410 | The recovery obligation is present exactly when recovery was activated, or a criterion bears its name |
| ObligationTheorems.AllClosedMeans | proofloop_core/engine/orchestrator.py:1334-1434 | A run that ends with everything closed earned the intent and the simplicity at their final revisions by an independent review, every criterion by the gate, and passed its checks after any recovery |
| ObligationTheorems.FastLaneLeavesIntentOpen | proofloop_core/engine/orchestrator.py:1360-1368 | A run with only fast-lane reviews always leaves the intent obligation open |
| ObligationClosure.ClosesExactly | proofloop_core/engine/orchestrator.py:1334-1368 | A concluded run leaves nothing open exactly when an independent review concluded it and every criterion was passed by the gate of one of its verifications |
| Orchestrator.Orchestrator.RecordVerificationProof | proofloop_core/engine/orchestrator.py:1334-1368 | On the heap: the graph after a verification is that of the run with one verification step more, or the call raises; the written graph file agrees |
| Orchestrator.Orchestrator.ActivateRecoveryProtocol | proofloop_core/engine/orchestrator.py:1399-1434 | On the heap: opens the recovery obligation once, raises a light tier, and reopens the semantic obligations under a model review at a new revision |
| ObligationTheorems.EscalationReopens | proofloop_core/engine/orchestrator.py:1399-1434 | On a light tier activation hands both semantic obligations to a model review, open again at the next revision if a guard was to close them, and asks for a reviewer; on the others it reopens nothing; no other obligation changes |
| Orchestrator.Orchestrator.RecordPromptContractProof | proofloop_core/contracts/prompt_contract.py:170-200 | On the heap: adds the prompt obligation if it is absent and closes it unless it is closed; the graph on file stays the graph as it is, and no other file changes |
| VerificationPlan.CompileVerificationPlan | proofloop_core/contracts/verification_plan.py:40-112 | The plan keeps the frozen authority, links a check to exactly the criteria of tasks that themselves require its command, and gives a candidate deterministic authority exactly when the frozen plan holds its command |
| VerificationPlan.FrozenAuthority | proofloop_core/contracts/verification_plan.py:50-100 | Whatever tasks the planner proposes and whatever the repository shows by then, the second plan has the first one's mandatory commands, digests, evaluator inputs and baseline |
| VerificationPlan.WithMandatoryChecks | proofloop_core/contracts/verification_plan.py:151-165 | Adds each mandatory command the task does not already require, once, and changes nothing else |
| VerificationPlan.GatesAgree | proofloop_core/assurance/live_evidence.py:606-621 | The plan's gate and the evidence's gate agree on every report: all linked criteria when the evidence accepts, none when it refuses, an error only on a passing result without a command |
| VerificationPlan.DigestsAgree | proofloop_core/assurance/live_evidence.py:649-658 | The two command digests are one function on every command that has a digest |
| VerificationPlan.DigestForgetsOnlyThePython | proofloop_core/contracts/verification_plan.py:18-30 | Two commands share a digest exactly when they differ in nothing but which Python runs them |
| VerificationPlan.PythonExactly | proofloop_core/contracts/verification_plan.py:18-30 | A Python executable is one whose name after its directories begins with "python" in letters of either case |
| VerificationPlan.ProvedCriterionHasTask | proofloop_core/contracts/verification_plan.py:168-193 | A criterion is proved only through a mandatory check that passed in this report and that a task naming the criterion required |
| VerificationPlan.PassingReportOpensGate | proofloop_core/contracts/verification_plan.py:151-193 | A report in which every required check ran and passed opens both gates |
| LiveEvidence.SealCoreEvidence | proofloop_core/assurance/live_evidence.py:146-227 | Seals exactly when the reports on file are those in memory and every log is a file of the run; otherwise nothing is written; the returned status is that of validating what was written |
| LiveEvidence.ValidateCoreEvidence | proofloop_core/assurance/live_evidence.py:230-271 | VALID exactly when manifest, bundle, documents, sources, plan hash, mandatory checks, evaluator files and verdicts all hold, and then it returns the bundle's documents |
| LiveEvidence.ValidatePaths | proofloop_core/assurance/live_evidence.py:329-390 | Accepts exactly the path lists that are safe one by one and differ in lower case |
| LiveEvidence.SafeExactly | proofloop_core/assurance/live_evidence.py:600-603 | A path is safe exactly when it is not empty, not rooted, on no drive, and none of its pieces between slashes steps up |
| LiveEvidence.InputsChangedExactly | proofloop_core/assurance/live_evidence.py:624-646 | The evaluator inputs fail to match exactly when there are some and the report names no repository, or one of them is unsafe or not there with its frozen fingerprint |
| SealTheorems.SealThenValidate | proofloop_core/assurance/live_evidence.py:146-271 | Sealing and then validating gives VALID exactly when the plan hash is its own, the mandatory checks passed, evaluator files are unchanged, verdicts are decided and the bundle is within limits |
| SealTheorems.SealedCaptures | proofloop_core/assurance/live_evidence.py:146-227 | Sealing captures both reports, the plan and both logs of every check, each under its own name, and leaves every other file of the run as it was |
| SealTheorems.ValidIffIntact | proofloop_core/assurance/live_evidence.py:230-271 | After any later writes that leave the manifest alone, VALID holds exactly when every bundle file and every captured source still has its sealed bytes and what was sealed deserved it; the documents are then the sealed ones |
| JsonPointer.EvaluatePointer | proofloop_core/assurance/assurance.py:13-29 | The evaluating loop computes the walk along the unescaped tokens, errors included |
| JsonPointer.PointerRoundTrip | proofloop_core/assurance/assurance.py:13-29 | Printing any path that exists in any tree as in section 3 of RFC 6901 and evaluating the pointer gives the node at that path |
| JsonPointer.PointerMisses | proofloop_core/assurance/assurance.py:13-29 | Printing any path that leads nowhere and evaluating the pointer fails, for what is missing first: a key, an index, or a container |
| JsonPointer.NegativeIndex | proofloop_core/assurance/assurance.py:20-21 | A negative index counts from the end of an array and fails beyond its start |
| Assurance.AuditClaims | proofloop_core/assurance/assurance.py:92-199 | The audit finds nothing exactly when every claim is backed by files that show it and every required category has a claim; it blocks exactly on a malformed claim, on one that a file it cites speaks against, or on an unusable ledger |
| Assurance.AuditEvidence | proofloop_core/assurance/assurance.py:49-89 | From the files alone: supported exactly when the cited file is there, has the quoted digest, and shows a node where it is pointed into, the expected one if one is expected; contradicted exactly on another digest or another node; missing exactly when there is no such file or no such node |
| Assurance.RequiredExactly | proofloop_core/assurance/assurance.py:9-10 | The ledger must speak of checks, change, review and simplicity, and of routing when it is claimed, and of nothing else |
| Assurance.AuditSimplicity | proofloop_core/assurance/assurance.py:202-248 | Simplicity is proven exactly when the diff shows no bloat and the review found the change minimal |
| Assurance.FieldClaimSupported | proofloop_core/assurance/assurance.py:49-89 | A claim about one field is supported exactly when the cited file shows the value, and blocks exactly when it does not |
| Truth.BuildTruthReport | proofloop_core/assurance/truth.py:35-142 | PROVEN and FAILED are issued exactly under their conditions on the files, the scope is that of the graph's claims, and an unreadable document crashes the gate |
| Truth.VerdictsExclude | proofloop_core/assurance/truth.py:112-117 | No directory meets the conditions of both PROVEN and FAILED |
| Truth.ProvenScope | proofloop_core/assurance/truth.py:22-32 | A PROVEN run never has an unproven scope, and without a host claim its scope is the local one |
| Truth.ScopeExactly | proofloop_core/assurance/truth.py:22-32 | For every verdict: the host is authenticated exactly when it is required and all such obligations are closed; without that the scope is unproven exactly when an obligation for prompt, product or scope is open |
| TruthGate.FinalizeTruth | proofloop_core/engine/orchestrator.py:1751-1821 | Writes trace and ledger, then issues the gate's verdict on the directory as it then is |
| TruthGate.LedgerProven | proofloop_core/engine/orchestrator.py:1513-1570 | The kernel's own claim ledger is proven exactly when the sealed reports, the review and the routing are |
| TruthGate.KernelVerdict | proofloop_core/engine/orchestrator.py:1751-1821 | On an accepted run PROVEN is issued exactly when the sealed evidence validates before and after the ledger is written, reports pass, routing is settled, nothing bloats, and, while the intent is there, the prompt is too and nothing is open |
| FinalChecks.FinalRequired | proofloop_core/engine/orchestrator.py:1574 | What is run for all tasks together holds every check of every task and every mandatory command of the plan; it fails exactly without tasks or on an empty command |
| FinalChecks.RunFinalChecks | proofloop_core/assurance/checks.py:25-150 | Runs the required commands in order and merges them with the proofs; the report passes exactly when everything in it passed |
| FinalChecks.PassingReportProves | proofloop_core/contracts/verification_plan.py:151-193 | A passing final report proves exactly the criteria the plan links, and every mandatory check passed in it |
| FinalReview.FinalVerificationAndReview | proofloop_core/engine/orchestrator.py:1572-1725 | At most two cycles, each running the checks of all tasks and of the frozen plan. The phase is accepted exactly when it converges: the first cycle opens and is approved or needs no reviewer, or its review sends it back, the repair succeeds, and the second opens and is approved. Otherwise it fails for the one reason that fits, also without tasks or on an empty command. An accepted run's seal is taken from the directory its cycle found, and exactly the steps of its cycles are recorded |
| FinalReview.VerifyAndSeal | proofloop_core/engine/orchestrator.py:1578-1640 | One cycle goes on exactly when its evidence can be captured and its checks, diff and gate passed, and otherwise stops for the one reason; a cycle that could be recorded was sealed and recorded before its verdicts were looked at |
| FinalReview.ReviewOnce | proofloop_core/engine/orchestrator.py:1640-1723 | A review is accepted exactly when the reviewer answered, approved a minimal change and, in goal mode, the goal is satisfied; the run goes to repair exactly when a first review asks for a fix, finds the change overbuilt or approves what misses the goal; otherwise it stops for the one reason |
| FinalReview.OneEnding | proofloop_core/engine/orchestrator.py:1572-1725 | Every final phase is accepted or fails, and for exactly one reason |
| Kernel.Run | proofloop_core/engine/orchestrator.py:798-832 | The whole run from the frozen plan on ends in a task that was not done, in a final phase that did not converge, at a gate that could not read the directory, or with the gate's verdict, each for the reason the environment gives; the final phase starts in the directory as the run found it but for the graph, after exactly the steps of the tasks, and the verdict is the gate's on the files as they then are |
| Kernel.GateReachedExactly | proofloop_core/engine/orchestrator.py:798-832 | A run reaches the gate exactly when it has tasks with commands to run, all of them were done, and its final phase converges |
| Kernel.OneRun | proofloop_core/engine/orchestrator.py:798-832 | Setup, environment, starting directory and the commands of the final cycles settle the run: two endings allowed by the contract are the same, down to the last file and step of a run that reaches the gate |
| Kernel.ProvenExactly | proofloop_core/engine/orchestrator.py:1572-1821 | A run that reached the gate ends PROVEN exactly when its reports hold and, while its intent contract is in place, so is the prompt compilation, the review is independent, and the frozen plan links every criterion to a mandatory check |
| Kernel.ProvenMeans | proofloop_core/engine/orchestrator.py:1334-1434 | A PROVEN run with its intent contract in place was approved by an independent review, passed every criterion through the gate in the accepted cycle's own report, and passed its checks after any recovery; its scope is the local one |
| Kernel.EveryPassedCycleProves | proofloop_core/engine/orchestrator.py:1574-1595 | Since the kernel runs everything mandatory, every cycle that passed proves the same criteria: exactly those the plan links |
| Kernel.PassedWhenAccepted | proofloop_core/engine/orchestrator.py:1572-1725 | What any cycle of a run passed, its accepted cycle passed too, and that is exactly what the plan can prove |
| Kernel.FastLaneExactly | proofloop_core/assurance/truth.py:88-117 | A fast-lane run ends PROVEN exactly when its intent contract is gone and its reports hold |
| Kernel.FastLaneNeverProven | proofloop_core/assurance/truth.py:88-117 | While its intent contract is in place a fast-lane run never ends PROVEN |
| Kernel.SealedVerdict | proofloop_core/assurance/live_evidence.py:230-271 | While the manifest is the sealed one, the gate reads the very reports of the accepted cycle, their mandatory checks passed, and no captured file has changed |
| Kernel.EvaluatorInputsNeverProven | proofloop_core/assurance/checks.py:262-276 | A run whose frozen plan has evaluator inputs never ends PROVEN while the manifest is the sealed one |
| Kernel.HonestRunIsProven | proofloop_core/engine/orchestrator.py:1572-1821 | If nobody but the kernel wrote after sealing, a run that reached the gate ends PROVEN exactly when its plan has authority and no evaluator inputs and, while its intent contract is in place, an independent review accepted it and the plan links every criterion |
| Kernel.CriterionReachesTask | proofloop_core/engine/orchestrator.py:1356-1359 | A criterion passed in a cycle goes back to a task that names it and requires a mandatory command that passed in that very cycle's report |
| Witness.WitnessRunIsProven | proofloop_core/engine/orchestrator.py:430-832 | One prepared request with a task, an attempt, sealed reports and an approval meets every hypothesis of the tracing theorem and ends PROVEN |
| Witness.FastLaneWitness | proofloop_core/assurance/truth.py:88-107 | The same request on the fast lane, with its intent contract lost, ends PROVEN with obligations open |
| Clauses.ClausesOf | proofloop_core/engine/intent.py:94-126 | Every clause is the exact span of the request it claims, clauses are ordered and disjoint, and they are the segments of the lines, line by line |
| Clauses.ClausesAre | proofloop_core/engine/intent.py:94-126 | A text is a clause of a line exactly when it is the whole text of a list item there, or a sentence of another line that is not white space |
| Clauses.LinesAreLines | proofloop_core/engine/intent.py:97 | The lines of a request end at their first separator, and no carriage return is cut off from its line feed |
| Clauses.MarkerExactly | proofloop_core/engine/intent.py:219-224 | A list item is exactly a dash, a star, or digits with a dot or parenthesis, then all the white space there is |
| Clauses.Relative | proofloop_core/engine/intent.py:107-114 | The leftmost search always succeeds, at or before the segment's true place, so the fallback is never taken |
| Clauses.SegmentsInOrder | proofloop_core/engine/intent.py:98-110 | For any sentence boundary rule the stripped segments of a line are exact, ordered and disjoint, and a list item is one segment |
| Intent.CompileIntent | proofloop_core/engine/intent.py:129-216 | Compiles exactly the requests that have a clause; objective, criteria, constraints and non-goals are those clauses the markers pick, without repeats |
| Intent.ListItemsBecomeCriteria | proofloop_core/engine/intent.py:141-166 | Every list item has a criterion with the same folded text, every criterion is an exact span of the request, and no two are alike in text or id |
| Intent.DedupeClauses | proofloop_core/engine/intent.py:227-235 | Keeps the first clause of each kind that does not fold away, in the order given, and no other |
| Intent.SourceRefs | proofloop_core/engine/intent.py:195-201 | Every item of the contract has its own key with its own clause, and every key, evaluated as a pointer in the written contract, reaches the item it labels |
| ExecutionBrief.ComposeExecutionBrief | proofloop_core/contracts/execution_brief.py:74-166 | Composes exactly from a valid intent of this very request with a baseline, and otherwise names the first thing wrong; the brief validates and says what the intent says, item by item: statement, provenance, and the references the intent keeps under the item's own pointer; every unknown is a blocking question, no path is approved and no fact added |
| Reconciler.ReconcileProposal | proofloop_core/engine/reconciler.py:11-86 | Accepts exactly the proposals that keep criteria, facts, unknowns, boundary and candidates, drop or soften no question, and approve only candidate paths |
| Reconciler.RefusedForBreaking | proofloop_core/engine/reconciler.py:11-86 | A refused proposal breaks the rule it is refused for |
| Reconciler.Transitive | proofloop_core/engine/reconciler.py:11-86 | Accepted refinements compose |
| Reconciler.ChainAccepts | proofloop_core/engine/reconciler.py:11-86 | However often a brief is refined, the last accepts as a refinement of the first |
| Reconciler.ConservativeIsAccepted | proofloop_core/engine/reconciler.py:89-106 | The conservative proposal of any valid brief is accepted, and re-hashing is needed and enough for it to validate |
| Blueprint.ValidateBlueprint | proofloop_core/contracts/blueprint.py:7-51 | Accepts exactly when tasks link all criteria, only criteria, at least one each, and have proof plans where required; a refusal names a task or criterion that lacks it |
| Blueprint.ProofExactly | proofloop_core/contracts/blueprint.py:30-51 | A proof plan counts when some stage after the implementation has a check |
| Preparation.CompiledIntentIsOk | proofloop_core/contracts/execution_brief.py:212-252 | A compiled intent passes the composer's validation exactly when it has a criterion |
| Preparation.Prepare | proofloop_core/engine/orchestrator.py:648-776 | On every tier a run is prepared exactly when the catalogue runs, an active brief can be composed, the plan's tasks can be materialised and run, and they link exactly the request's criteria, and is refused for what fails; it then holds the written intent, a validated active brief that says what it says and approves its targets alone, and two plans of one authority |
| Preparation.BriefSpans | proofloop_core/contracts/execution_brief.py:111-162 | Objective, criteria, constraints and non-goals of the active brief have the texts of the compiled clauses, each with its own span of the request, and its boundary is the given one |
| Traceability.RequestIsTraced | proofloop_core/engine/orchestrator.py:430-832 | Tasks name every criterion of the request and no other; if the run ends PROVEN with its intent contract in place, every list item of the raw request was proved in the accepted cycle through a frozen catalogue command that a task naming its criterion required and that passed with all mandatory checks |
| Traceability.BriefSaysTheRequest | proofloop_core/engine/orchestrator.py:648-672 | The same of every started run, whatever came between the request and its brief |
| Traceability.RequestProvenExactly | proofloop_core/engine/orchestrator.py:430-832 | A started run that reached the gate ends PROVEN exactly when its reports hold and, while its intent contract is in place, so is the prompt compilation, the review was independent, and every criterion is named by a task that itself requires a catalogue command |
| Traceability.HonestRequestIsProven | proofloop_core/engine/orchestrator.py:430-832 | In an honest environment that is so exactly when there is a catalogue without evaluator files, the review was independent and every criterion is checked by a task |
| Traceability.PlanProvesTasks | proofloop_core/contracts/verification_plan.py:73-100 | A prepared plan can prove exactly the criteria that a task names and checks by a catalogue command |
| Traceability.CriteriaApart | proofloop_core/engine/orchestrator.py:1193-1207 | Criterion ids never collide with the kernel's own obligations or with each other |
| Traceability.RunRequest | proofloop_core/engine/orchestrator.py:430-832 | The whole run from the raw request: it is refused before anything is written, or ends as the run of its setup ends; a PROVEN result with its intent contract in place proves every list item in the accepted cycle through a task of its own, and every criterion was checked by a task |
| DiffGuard.InspectDiff | proofloop_core/assurance/diff_guard.py:89-214 | Over the tracked changes and then the untracked files, the violations are exactly what the entries and the change as a whole are charged with, code by code; there is none exactly when every entry, the budgets and the patch are clean; the added files are counted |
| DiffGuard.MatchesExactly | proofloop_core/assurance/diff_guard.py:29-30 | A path matches a pattern by its glob, or by beginning with the pattern without its final stars and slashes |
| DiffGuard.CleanMeets | proofloop_core/assurance/diff_guard.py:101-179 | A clean listing, untracked files included, meets the contract as a change of trees exactly when the old names of renamings are in scope and the budgets have room for both names of each, files unknown to the index being counted too often |
| DiffGuard.AggregateTask | proofloop_core/engine/orchestrator.py:89-145 | The aggregate unites paths, checks and criteria, sums budgets and takes the largest attempts; it carries no permitted artifacts; it fails exactly without tasks |
| DiffGuard.ScopeComposes | proofloop_core/engine/orchestrator.py:101-145 | If each task's own change of trees meets its contract, the cumulative change meets the aggregate's paths and file budgets, for any number of tasks |
| DiffGuard.GuardsCompose | proofloop_core/engine/orchestrator.py:1574-1596 | Passing guards without renamings, whatever each task left out of the index and by briefs no wider than planned (replans included), make the cumulative change meet the aggregate contract |
| DiffGuard.AggregatePassesIff | proofloop_core/engine/orchestrator.py:1574-1596 | When every task's guard passed, the aggregate's passes exactly when no file is added, no dependency or protected file is touched, the cumulative patch is fine, and what renamings hid fits |
| DiffGuard.AggregatePassesIffUnrenamed | proofloop_core/engine/orchestrator.py:1574-1596 | Without renamings by the tasks, only what the aggregate itself asks is left |
| DiffGuard.UntouchedFilesIff | proofloop_core/assurance/diff_guard.py:89-106 | On an unchanged tree a guard passes exactly when every file its index does not know could have been deleted and added again, with room in the budgets |
| DiffGuard.EarlierTestFails | proofloop_core/assurance/diff_guard.py:101-141 | A permitted new test file that a task leaves out of the index passes that task and fails every later one on an unchanged tree |
| DiffGuard.PermittedFileFails | proofloop_core/engine/orchestrator.py:130-134 | A task that adds a file it was permitted to add passes, and the aggregate fails |
| DiffGuard.RenamedThenDeletedFails | proofloop_core/assurance/diff_guard.py:101-106 | Renaming a file into reach and deleting it passes both tasks' guards and fails the aggregate's scope |
| DiffGuard.RenamedFilePasses | proofloop_core/assurance/diff_guard.py:101-106 | A renaming makes a file new at the end without any guard counting it |
| EventRecord.DecodeEncoded | proofloop_core/context/events.py:320-342 | Reading a written record gives back its sequence number and message |
| EventRecord.PrefixFree | proofloop_core/context/events.py:359-366 | No proper prefix of a record is a complete object |
| EventLog.RecoverSequence | proofloop_core/context/events.py:354-394 | Recovery repairs the file, keeps cut-off text, and returns the scan of what is left |
| EventLog.ReadableIffPlain | proofloop_core/context/events.py:376-394 | A log reads back exactly when no message contains one of the three separators that serialisation leaves unescaped |
| EventLog.LineSeparatorFails | proofloop_core/context/events.py:376-394 | A log of one event whose message is a line separator cannot be read back |
| EventLog.CrashRecovery | proofloop_core/context/events.py:354-394 | After one write torn at any character the file is the longest prefix of whole events, recovery returns its length, and cut-off text is kept |
| EventLog.LogSurvivesCrashes | proofloop_core/context/events.py:306-394 | Over any emissions and crashes the log holds exactly the whole events, numbered 1 to n, recovery never fails, and every cut-off text is kept |
| EventLog.PlayLog | proofloop_core/context/events.py:283-394 | The emitter and recovery, run on the two files, do what the steps of that theorem do |
| Usage.TokenLedger.Record | proofloop_core/analysis/usage.py:174-193 | Appends an observation with tokens and a new key, refuses any other for what is wrong with it, and its key cache equals the keys on file |
| Usage.KeySeparates | proofloop_core/analysis/usage.py:148-163 | Observations that differ in one part of the key alone have different keys, tokens included where no event is named |
| Usage.KeyForgets | proofloop_core/analysis/usage.py:148-163 | The key is blind to attribution, and to the tokens of a record that names its event |
| Usage.RedeliveryChangesNothing | proofloop_core/analysis/usage.py:174-193 | Redelivering observations, any number of times and in any order, leaves the file as it was |
| Usage.FileIsFirstDeliveries | proofloop_core/analysis/usage.py:174-193 | The file holds the first delivery of every key, and nothing else |
| Usage.TokscaleNeverCounts | proofloop_core/analysis/usage.py:324-364 | A tokscale record never changes the tokens of an invocation that has a provider record |
| Usage.NextRecord | proofloop_core/analysis/usage.py:324-346 | One more record, of the standing of those that count: a final one settles the tokens at its amounts; after that none changes them; before it a delta adds its amounts and a cumulative one raises the cumulative part to its amount and never lowers it |
| Usage.FirstProviderRecord | proofloop_core/analysis/usage.py:324-346 | The first provider's record counts, and attributes the invocation, as if it were alone |
| Usage.CumulativePartIs | proofloop_core/analysis/usage.py:331-336 | The cumulative part is the largest amount of a cumulative record that counts, or 0 |
| Usage.NextAttribution | proofloop_core/analysis/usage.py:324-364 | An invocation is attributed by the final record that settled it, and until then by its last record that counts |
| Usage.TokscaleNeverAttributes | proofloop_core/analysis/usage.py:324-364 | A tokscale record attributes no invocation that has a provider record |
| Usage.GroupSummaries | proofloop_core/analysis/usage.py:367-383 | Groups have distinct names and each holds the sums of its own invocations |
| Usage.GroupsSumToTotals | proofloop_core/analysis/usage.py:200-252 | By any key, the groups sum field by field to the totals |
| Usage.Summarize | proofloop_core/analysis/usage.py:200-252 | The summary of a ledger has one invocation for every id on file, made of just its observations, totals over them, and groups of them by model, role, task and tier |
| Usage.NextRow | proofloop_core/analysis/usage.py:200-212 | One more row on file is one more record of its own invocation, after the others, and of no other |
| Usage.SummaryOfDeliveries | proofloop_core/analysis/usage.py:174-252 | The groups of a ledger's summary add up to its totals and those to its invocations on file, and redelivery changes none of it |
| Usage.BudgetedTotalIs | proofloop_core/analysis/usage.py:74-98 | All fields but cache reads count in full and cache reads save nine tenths, rounded down; without fields the raw total counts |
| Usage.BudgetedPerInvocation | proofloop_core/analysis/usage.py:74-98 | Counting invocation by invocation exceeds counting their sum by between 0 and nine tenths of a token each, rounded down |
| Usage.BudgetedBoundIsMet | proofloop_core/analysis/usage.py:74-98 | That bound is reached for every number of invocations |
| Usage.RunBudget | proofloop_core/engine/orchestrator.py:1271-1318 | Whenever a further role runs, consumption is within the limit then in force, also across recoveries that raise it, and the limit is overshot by at most the last cost |
| Usage.RecoveryRaises | proofloop_core/engine/skills.py:19-23 | A recovery never lowers the hard limit, and it resolves it from the very tier the obligations' recovery sets |
| Usage.LimitFollowsRun | proofloop_core/engine/orchestrator.py:1399-1434 | The limit in force is that of the run's own tier, however invocations and steps interleave |
| PromptAlgebra.MergeTemplates | proofloop_core/prompting/algebra.py:78-185 | Merges exactly the mergeable lists, by unions, intersection, lowest ceiling and first occurrences, and says when rules contradict |
| PromptAlgebra.MergeMeans | proofloop_core/prompting/algebra.py:78-185 | Rule by rule: a merge has exactly the duties, prohibitions, guarded paths, proofs, stops and sections of some template, and allows exactly the paths every constraining template allows |
| PromptAlgebra.MergeableExactly | proofloop_core/prompting/algebra.py:78-133 | Templates merge exactly when there is one, no duty of one is a prohibition of one, and constrained scopes have a path in common |
| PromptAlgebra.CeilingMeans | proofloop_core/prompting/algebra.py:18-25 | The ceiling of a merge is the lowest level any template declares |
| PromptAlgebra.FirstsInOrder | proofloop_core/prompting/algebra.py:78-133 | Sections stand in the order in which they first occur, each once |
| PromptAlgebra.MergeUnique | proofloop_core/prompting/algebra.py:78-185 | What a merge must be determines it, up to its name and version |
| PromptAlgebra.GroupingDoesNotMatter | proofloop_core/prompting/algebra.py:78-133 | For non-empty groups, merging merges and merging everything at once both fail, or both give the same policy; a group that fails makes the whole fail |
| PromptAlgebra.EmptyGroupFails | proofloop_core/prompting/algebra.py:78-82 | An empty group fails where merging everything at once succeeds |
| PromptAlgebra.OrderOnlyOrdersSections | proofloop_core/prompting/algebra.py:78-133 | Order and repeats of templates matter to nothing but the order of the sections |
| PromptAlgebra.DictRoundTrip | proofloop_core/prompting/algebra.py:38-66 | The dictionary form reads back as the same policy exactly when the version is not empty |
| PromptAlgebra.EmptyVersionIsLost | proofloop_core/prompting/algebra.py:38-66 | A policy with an empty version is read back with another |
| PromptAlgebra.CompileIr | proofloop_core/prompting/algebra.py:188-268 | A compiled prompt keeps every duty and prohibition of templates and invocation, never contradicts itself, and allows no path a template does not |
| RunPolicy.SetThenGet | proofloop_core/contracts/run_policy.py:94-105 | What is set at a declared leaf is read back there |
| RunPolicy.SetElsewhere | proofloop_core/contracts/run_policy.py:94-105 | Setting one leaf leaves every other alone |
| RunPolicy.OverrideKeepsOrBreaks | proofloop_core/contracts/run_policy.py:94-105 | An override keeps the shape, or breaks it in a way no later override mends |
| RunPolicy.ResolveRunPolicy | proofloop_core/contracts/run_policy.py:176-203 | A resolved policy has at every leaf the value of the highest layer that sets it, names that layer, and has the shipped shape; only leaf overrides and the same version resolve, and nothing else but the validator refuses |
| RunPolicy.LeavesAre | proofloop_core/contracts/run_policy.py:83-91 | Flattening a file gives exactly its leaves, each under the dotted names that lead to it |
| RunPolicy.LastVersionCounts | proofloop_core/contracts/run_policy.py:83-91 | Of two fields that spell the same version path only the last is compared |

## Left out

- Language models, hosts, MCP, git, Docker and process running: their answers are parameters (`World`, `TaskWorld`,
  `Repository`, `View`, observation and rule functions).
- Worktree promotion, memory, skills and domain packs, renderers, the usage viewer, cost rates, debug traces: they
  decide nothing here.
- Redaction of secrets: the messages of the log are those after redaction.
- SHA-256 is collision free by construction, and two files of a run are equal exactly when their modelled contents are;
  JSON spacing and number forms are not modelled.
- A document is told by its kind: an object of one kind in another's place reads as one without the expected fields.
- Python's `True == 1` in the comparison of claimed and observed values.
- Symbolic links, hard links, inode checks, and paths with `.` and `..` that name the same file.
- Unicode normalisation and case folding: texts are compared by an arbitrary folding function, and lower case is that of
  ASCII. White space and decimal digits of list markers beyond ASCII are a parameter or left out.
- Regular expressions and word tables (risk, constraint, non-goal, skipped tests, removed assertions, time-outs, globs):
  arbitrary predicates; sentence boundaries are any ordered, disjoint cut.
- The intent gate and its questions, and template selection by tier: the built-in templates are taken to merge.
- Which deleted and new files git pairs up as a renaming: any true pairing.
- Roles that rewrite `intent-contract.json` with another object: the theorems speak of it as present or not.
- The candidate digest, `live-evidence-validation.json` and `assurance-report.json`: nothing reads them back.
- Command-line overrides whose value is an object, and integer spellings beyond plain decimals.
- The table `GOAL_TRANSITIONS`: the kernel does not enforce it.
- Timeouts and the time budget of roles.
- LiveEvidence.SealCoreEvidence: does not model an I/O error in the middle of writing the bundle.
- LiveEvidence.ValidatePaths: folds case in ASCII only and does not normalise Unicode.
- LiveEvidence.ValidateCoreEvidence: a bundle file named `.jsonl`, which sealing never makes, is not parsed line by line.
- EventRecord.DecodeEncoded: an event is its sequence number and message; the other fields, which the source writes and
  checks too, are taken to be valid.
- EventRecord.PrefixFree: the same records of a sequence number and a message.
- Usage.TokenLedger.Record: does not model two processes writing one ledger.
- EventLog.RecoverSequence: the run id and schema of an event are taken to be valid.
- PromptAlgebra.CompileIr: leaves out deliverables, the stop condition and the content identity, which are passed on.
- FinalChecks.RunFinalChecks: a check whose working directory leaves the repository crashes the source's runner; here it is run.
- RunPolicy.ResolveRunPolicy: the fields of one object of a policy file are taken to have distinct names, as parsed.
- Usage.Summarize: costs, coverage and the sorting of the summary are left out.
