/** The whole run, from frozen intent to truth report, and what its PROVEN means. */
module Kernel {
  import opened Common
  import opened EvidencePolicy
  import opened ProofGraph
  import opened VerificationPlan
  import opened Documents
  import opened LiveEvidence
  import opened SealTheorems
  import opened Assurance
  import opened Truth
  import opened TruthGate
  import opened ObligationLifecycle
  import opened ObligationTheorems
  import opened ObligationClosure
  import opened Orchestrator
  import opened FinalReview
  import opened FinalChecks
  import DiffGuard
  import Repair
  import opened TaskBrief
  import opened TaskExecutor

  // ---------------------------------------------------------------- what PROVEN means

  ghost predicate NoVerificationIn(steps: seq<Step>) {
    forall i | 0 <= i < |steps| :: !steps[i].Verified?
  }

  /** The plan's gate passed this criterion on the report of one of the cycles up to the last. */
  ghost predicate GatePassed(id: ObligationId, world: World, plan: Plan, last: nat) {
    exists cycle: nat | 1 <= cycle <= last :: PassedAt(id, world, plan, cycle)
  }

  ghost predicate PassedAt(id: ObligationId, world: World, plan: Plan, cycle: nat) {
    CyclePassed(world, cycle, plan) && id in PassedIds(plan, world.checks(cycle))
  }

  /** Only the last step of an accepted run carries a review, so only it can earn a semantic obligation. */
  lemma SemanticEarnedLast(s: Session, pre: seq<Step>, steps: seq<Step>, world: World, plan: Plan, last: nat, revision: int)
    requires NoVerificationIn(pre) && FinalSteps(pre, steps, world, plan, last) && steps != []
    requires WasEarned(IntentAlignmentId, revision, s, steps)
    ensures steps[|steps| - 1].Verified? && ModelReviewed(steps[|steps| - 1].v)
  {
    hide AfterAll, RevisionOf, FromCycle, OfReview;
    forall i | 0 <= i < |pre| ensures !steps[i].Verified? { assert steps[i] == pre[i]; }
    var k: nat :| EarnedAt(IntentAlignmentId, revision, s, steps, k);
    assert FromCycle(steps[k], world, plan, last);
  }

  lemma EarnedThroughGate(id: ObligationId, s: Session, pre: seq<Step>, steps: seq<Step>, world: World, plan: Plan,
                          last: nat, revision: int)
    requires NoVerificationIn(pre) && FinalSteps(pre, steps, world, plan, last)
    requires id.Named? && WasEarned(id, revision, s, steps)
    ensures GatePassed(id, world, plan, last)
  {
    hide AfterAll, RevisionOf, CyclePassed, PassedIds;
    forall i | 0 <= i < |pre| ensures !steps[i].Verified? { assert steps[i] == pre[i]; }
    var k: nat :| EarnedAt(id, revision, s, steps, k);
    assert FromCycle(steps[k], world, plan, last);
    var cycle: nat :| 1 <= cycle <= last && VerifiesCycle(steps[k].v, cycle, world, plan);
    assert PassedAt(id, world, plan, cycle);
  }

  /** What a run that closed everything went through: an independent review on its last step, the plan's gate for
      every criterion in one of its cycles, and passing checks after any recovery. */
  ghost predicate ProvenRun(criteria: seq<ObligationId>, steps: seq<Step>, world: World, plan: Plan, last: nat) {
    && steps != [] && steps[|steps| - 1].Verified? && ModelReviewed(steps[|steps| - 1].v)
    && (forall id | id in criteria && id.Named? :: GatePassed(id, world, plan, last))
    && (RecoveryActivated in steps && RecoveryProgressId !in criteria ==> PassedAfterRecovery(steps))
  }

  lemma ClosedRunIsProvenRun(criteria: seq<ObligationId>, strategy: Strategy, pre: seq<Step>, steps: seq<Step>,
                             world: World, plan: Plan, last: nat)
    requires NoVerificationIn(pre) && FinalSteps(pre, steps, world, plan, last) && steps != []
    requires AllClosed(AfterAll(InitialSession(criteria, strategy), steps).graph)
    ensures ProvenRun(criteria, steps, world, plan, last)
  {
    hide InitialSession, AfterAll, RevisionOf, Earned, NoVerificationIn, FinalSteps, EarnedAt, PassedAfterRecovery;
    var s := InitialSession(criteria, strategy);
    var g := AfterAll(s, steps).graph;
    AllClosedMeans(criteria, strategy, steps);
    SemanticEarnedLast(s, pre, steps, world, plan, last, RevisionOf(g, IntentAlignmentId));
    forall id | id in criteria && id.Named? ensures GatePassed(id, world, plan, last) {
      var revision :| WasEarned(id, revision, s, steps);
      EarnedThroughGate(id, s, pre, steps, world, plan, last, revision);
    }
  }

  /** A criterion passed by the gate in a cycle goes back to a task that names it and itself required a mandatory check
      whose command passed in the very report of that cycle. */
  lemma CriterionReachesTask(name: string, world: World, plan: Plan, tasks: seq<TaskBrief>, cycle: nat)
    requires IdOf(name) == Named(name) && PassedAt(Named(name), world, plan, cycle)
    requires LinksExactly(plan.body.mandatory, tasks) && Authentic(plan.body.mandatory)
    ensures MandatoryChecksPassed(plan, world.checks(cycle))
    ensures exists i, t, c, k ::
              && 0 <= i < |plan.body.mandatory|
              && LinkedAt(tasks, plan.body.mandatory[i].digest, name, t, c)
              && 0 <= k < |world.checks(cycle).items| && world.checks(cycle).items[k].passed
              && CommandDigest(world.checks(cycle).items[k].command) == plan.body.mandatory[i].digest
  {
    hide CriteriaOf, LinksExactly, Authentic, LinkedAt, CommandDigest, Merged;
    var report := world.checks(cycle);
    var other :| other in AuthoritativePassedCriteria(plan, report).value && IdOf(other) == Named(name);
    assert other == name;
    GatesAgree(plan, report);
    ProvedCriterionHasTask(plan, report, tasks, name);
  }

  /** The obligations a plan can prove: those of the criteria its mandatory checks are linked to. */
  function Provable(plan: Plan): set<ObligationId> {
    set name | name in CriteriaOf(plan.body.mandatory) :: IdOf(name)
  }

  /** The kernel ran everything the plan makes mandatory, so every cycle that passed proves the same: exactly what the
      plan can prove. */
  lemma EveryPassedCycleProves(world: World, plan: Plan, cycle: nat)
    requires Authentic(plan.body.mandatory) && RequiresMandatory(world.required, plan)
    requires CyclePassed(world, cycle, plan)
    ensures PassedIds(plan, world.checks(cycle)) == Provable(plan)
    ensures plan.body.mandatory != [] ==> MandatoryChecksPassed(plan, world.checks(cycle))
  {
    hide Authentic, RequiresMandatory, AuthoritativePassedCriteria, MandatoryChecksPassed, Merged, CriteriaOf, IdOf;
    PassingReportProves(world.required, (i: nat) => world.ran(cycle, i), world.proofs(cycle), plan);
    assert world.checks(cycle) == Merged(world.required, (i: nat) => world.ran(cycle, i), world.proofs(cycle));
  }

  /** If the manifest is still the sealed one, the verdict rests on the very reports of the accepted cycle: they are
      what the gate read, the mandatory checks passed in them, and no captured file has changed since. */
  lemma SealedVerdict(a: Acceptance, world: World, plan: Plan, files: Files, size: Content -> nat,
                      repository: RepositoryView)
    requires Sealable(a.seal, world, a.cycle) && CapturableLogs(world.checks(a.cycle))
    requires MANIFEST in files && files[MANIFEST] == AfterSeal(a.seal, world, a.cycle, plan, size)[MANIFEST]
    requires CoreValid(files, size, repository)
    ensures CheckDocument(files, true, size, repository) == Some(ReportFile(world.checks(a.cycle)))
    ensures DiffDocument(files, true, size, repository) == Some(DiffFile(world.diff(a.cycle)))
    ensures Substantiated(plan, world.checks(a.cycle), world.diff(a.cycle), repository)
    ensures Intact(files, a.seal.from, world.checks(a.cycle), world.diff(a.cycle), plan)
  {
    hide Intact, Substantiated, CoreValid, Sealed, WithinLimits, SealedBundle, BundlePaths, SourcesOf;
    KernelPathsDiffer();
    ValidIffIntact(a.seal.from, world.checks(a.cycle), world.diff(a.cycle), plan, size, files, repository);
  }

  lemma KernelMakesNoHostClaim(g: Graph)
    requires Kernel(g)
    ensures !Truth.Requires(g, HostExecution)
  {
  }

  // ---------------------------------------------------------------- the run

  /** What the run is set up with, once the intent is compiled and the final plan is linked. */
  datatype Setup = Setup(
    criteria: seq<ObligationId>,
    strategy: Strategy,
    plan: Plan,
    tasks: seq<TaskBrief>,
    goalMode: bool,
    maxGoalCycles: nat,
    maxReplans: nat,
    runName: string)

  /** Everything the run meets. */
  datatype Environment = Environment(
    taskWorlds: nat -> TaskWorld,
    world: World,
    trace: Trace,
    view: View,
    size: Content -> nat,
    repository: RepositoryView,
    order: set<string> -> seq<string>)

  datatype RunFailure = TaskFailed(index: nat, failure: TaskFailure) | ReviewFailed(reason: Failure) | GateCrashed

  /** The run's history: its steps, those before the final phase, its tasks' traces, its acceptance, the world of its
      final cycles with what the kernel required of them, and where the final phase started. */
  datatype History = History(steps: seq<Step>, pre: seq<Step>, traces: seq<seq<Entry>>, accepted: Acceptance, world: World,
                             phase: Phase)

  function TotalLength(traces: seq<seq<Entry>>): nat {
    if traces == [] then 0 else TotalLength(traces[..|traces| - 1]) + |traces[|traces| - 1]|
  }

  /** What the next task runs against, after these. */
  function FrameOf(traces: seq<seq<Entry>>, setup: Setup, taskWorlds: nat -> TaskWorld): Frame
    requires |traces| < |setup.tasks|
  {
    Frame(setup.tasks[|traces|], taskWorlds(|traces|), setup.maxReplans, setup.goalMode,
          setup.maxGoalCycles - if setup.goalMode then TotalLength(traces) else 0)
  }

  /** Every task ended with an attempt whose checks and diff both passed, and kept to its bounds. */
  ghost predicate TasksDone(traces: seq<seq<Entry>>, setup: Setup, taskWorlds: nat -> TaskWorld, n: nat) {
    && |traces| == n <= |setup.tasks|
    && forall i | 0 <= i < n :: TaskTrace(Ok(()), traces[i], FrameOf(traces[..i], setup, taskWorlds))
  }

  /** The tasks before this one were done, and this one was not. */
  ghost predicate StoppedInTask(index: nat, failure: TaskFailure, traces: seq<seq<Entry>>, setup: Setup,
                                taskWorlds: nat -> TaskWorld)
  {
    && |traces| == index + 1 <= |setup.tasks|
    && TasksDone(traces[..index], setup, taskWorlds, index)
    && TaskTrace(Err(failure), traces[index], FrameOf(traces[..index], setup, taskWorlds))
  }

  /** The steps of the tasks, one after the other. */
  function TaskSteps(traces: seq<seq<Entry>>, taskWorlds: nat -> TaskWorld, runName: string): (steps: seq<Step>)
    ensures NoVerificationIn(steps)
  {
    if traces == [] then []
    else
      var n := |traces| - 1;
      TaskSteps(traces[..n], taskWorlds, runName) + StepsOf(traces[n], taskWorlds(n).preinvoked, runName)
  }

  lemma TaskIsDone(traces: seq<seq<Entry>>, t: seq<Entry>, setup: Setup, taskWorlds: nat -> TaskWorld)
    requires TasksDone(traces, setup, taskWorlds, |traces|) && |traces| < |setup.tasks|
    requires TaskTrace(Ok(()), t, FrameOf(traces, setup, taskWorlds))
    ensures TasksDone(traces + [t], setup, taskWorlds, |traces| + 1)
  {
    hide TaskTrace, FrameOf;
    var more := traces + [t];
    assert more[..|traces|] == traces;
    forall i | 0 <= i < |more| ensures TaskTrace(Ok(()), more[i], FrameOf(more[..i], setup, taskWorlds)) {
      if i < |traces| { assert more[..i] == traces[..i]; }
    }
  }

  lemma TracesExtend(traces: seq<seq<Entry>>, t: seq<Entry>, taskWorlds: nat -> TaskWorld, runName: string)
    ensures TotalLength(traces + [t]) == TotalLength(traces) + |t|
    ensures TaskSteps(traces + [t], taskWorlds, runName)
            == TaskSteps(traces, taskWorlds, runName) + StepsOf(t, taskWorlds(|traces|).preinvoked, runName)
  {
    hide StepsOf;
    assert (traces + [t])[..|traces|] == traces;
  }

  lemma TaskStops(traces: seq<seq<Entry>>, t: seq<Entry>, failure: TaskFailure, setup: Setup, taskWorlds: nat -> TaskWorld)
    requires TasksDone(traces, setup, taskWorlds, |traces|) && |traces| < |setup.tasks|
    requires TaskTrace(Err(failure), t, FrameOf(traces, setup, taskWorlds))
    ensures StoppedInTask(|traces|, failure, traces + [t], setup, taskWorlds)
  {
    hide TaskTrace, TasksDone;
    assert (traces + [t])[..|traces|] == traces;
  }

  lemma DoneWithin(t: seq<Entry>, f: Frame, runName: string)
    requires TaskTrace(Ok(()), t, f)
    ensures (f.goalMode ==> |t| <= f.room) && LastSteps(Ok(()), t, f, runName) == []
  {
    hide LegalTrace, Observed, MayBegin;
    DoneSteps(t, f, runName);
  }

  /** The tasks of a run keep to its goal cycles together. */
  lemma GoalCyclesKept(traces: seq<seq<Entry>>, setup: Setup, taskWorlds: nat -> TaskWorld)
    requires TasksDone(traces, setup, taskWorlds, |traces|)
    ensures setup.goalMode && traces != [] ==> TotalLength(traces) <= setup.maxGoalCycles
  {
    hide TaskTrace;
    if traces != [] {
      var n := |traces| - 1;
      DoneWithin(traces[n], FrameOf(traces[..n], setup, taskWorlds), setup.runName);
    }
  }

  method ExecuteTasks(o: Orchestrator, setup: Setup, taskWorlds: nat -> TaskWorld)
    returns (r: Result<(), RunFailure>, ghost traces: seq<seq<Entry>>)
    requires o.Valid() && forall i | 0 <= i < |setup.tasks| :: Repair.ValidBudgets(BudgetsOf(setup.tasks[i]))
    requires o.maxReplans == setup.maxReplans && o.goalMode == setup.goalMode && o.maxGoalCycles == setup.maxGoalCycles
    requires o.goalCycles == 0
    modifies o`steps, o`strategy, o`owned, o`goalCycles, o.graph, o.owned, o.dir
    ensures o.Valid() && fresh(o.owned - old(o.owned)) && (old(o.Synced()) ==> o.Wrote(old(o.dir.files)))
    ensures r.Ok? ==>
              && TasksDone(traces, setup, taskWorlds, |setup.tasks|)
              && o.steps == old(o.steps) + TaskSteps(traces, taskWorlds, setup.runName)
    ensures r.Err? ==>
              r.error.TaskFailed? && StoppedInTask(r.error.index, r.error.failure, traces, setup, taskWorlds)
  {
    hide AfterAll, InitialSession, TaskTrace, BudgetsOf, TasksDone, StepsOf, LastSteps, TaskSteps, TotalLength, StoppedInTask;
    traces := [];
    var i := 0;
    NoTasks(setup, taskWorlds);
    while i < |setup.tasks|
      invariant 0 <= i <= |setup.tasks|
      invariant o.Valid() && fresh(o.owned - old(o.owned)) && (old(o.Synced()) ==> o.Wrote(old(o.dir.files)))
      invariant |traces| == i && TasksDone(traces, setup, taskWorlds, i)
      invariant o.steps == old(o.steps) + TaskSteps(traces, taskWorlds, setup.runName)
      invariant o.goalCycles == if o.goalMode then TotalLength(traces) else 0
    {
      ghost var before := o.steps;
      var done;
      ghost var t;
      ghost var f := FrameOf(traces, setup, taskWorlds);
      done, t := ExecuteTask(o, setup.tasks[i], taskWorlds(i), setup.runName);
      if done.Err? {
        TaskStops(traces, t, done.error, setup, taskWorlds);
        return Err(TaskFailed(i, done.error)), traces + [t];
      }
      assert done == Ok(()) by { assert done.value == (); }
      DoneWithin(t, f, setup.runName);
      TaskIsDone(traces, t, setup, taskWorlds);
      TracesExtend(traces, t, taskWorlds, setup.runName);
      traces := traces + [t];
      i := i + 1;
    }
    return Ok(()), traces;
  }

  lemma NoTasks(setup: Setup, taskWorlds: nat -> TaskWorld)
    ensures TasksDone([], setup, taskWorlds, 0) && TotalLength([]) == 0 && TaskSteps([], taskWorlds, setup.runName) == []
  {
  }

  /** Everything known of a run that reached the truth gate. */
  ghost predicate ReachedGate(h: History, setup: Setup, env: Environment, files: Files) {
    && setup.tasks != []
    && h.pre <= h.steps && h.steps != [] && NoVerificationIn(h.pre)
    && h.pre != [] && h.pre[0] == PromptApplied(setup.runName)
    && h.world == env.world.(required := h.world.required) && RequiresAll(h.world.required, setup.tasks, setup.plan)
    && FinalSteps(h.pre, h.steps, h.world, setup.plan, h.accepted.cycle)
    && TasksDone(h.traces, setup, env.taskWorlds, |setup.tasks|)
    && (setup.goalMode && setup.tasks != [] ==> TotalLength(h.traces) <= setup.maxGoalCycles)
    && var reached := AfterAll(InitialSession(setup.criteria, setup.strategy), h.steps);
       && AcceptedOn(h.accepted, h.world, setup.plan, env.size, reached.strategy.reviewerRequired,
                     h.accepted.left[REVIEW := ReviewFile(h.accepted.review)][GRAPH := GraphFile(reached.graph)],
                     reached.graph, h.steps[|h.steps| - 1])
       && files == GateFiles(h.accepted.left, h.accepted.review, reached.graph, env.trace, env.size, env.repository)
  }

  lemma AcceptedNow(a: Acceptance, world: World, plan: Plan, size: Content -> nat, required: bool, files: Files, g: Graph,
                    last: Step)
    requires AcceptedOn(a, world, plan, size, required, files, g, last)
    ensures files == a.left[REVIEW := ReviewFile(a.review)][GRAPH := GraphFile(g)]
    ensures a.review.verdict == Approved && a.review.simplicity == Minimal
  {
  }

  /** The final phase starts after all tasks, in a directory where the run so far changed nothing but the graph. */
  ghost predicate AtFinalPhase(h: History, setup: Setup, env: Environment, start: Files) {
    && TasksDone(h.traces, setup, env.taskWorlds, |setup.tasks|)
    && h.pre == [PromptApplied(setup.runName)] + TaskSteps(h.traces, env.taskWorlds, setup.runName)
    && var s := AfterAll(InitialSession(setup.criteria, setup.strategy), h.pre);
       h.phase == Phase(start[GRAPH := GraphFile(s.graph)], s, setup.plan, setup.goalMode, env.size)
  }

  /** The world of the final cycles is the environment's, and the kernel requires of it all that it must. */
  ghost predicate FinalWorld(h: History, setup: Setup, env: Environment) {
    h.world == env.world.(required := h.world.required) && RequiresAll(h.world.required, setup.tasks, setup.plan)
  }

  /** The one reason the final phase of a run fails. */
  ghost predicate NotAccepted(reason: Failure, h: History, setup: Setup, env: Environment) {
    if setup.tasks == [] then reason == NothingToAggregate
    else if !RunnableTasks(setup.tasks) then reason == InternalError
    else FinalWorld(h, setup, env) && FailsFor(reason, h.phase, h.world)
  }

  ghost predicate RunAccepted(h: History, setup: Setup, env: Environment) {
    && setup.tasks != [] && RunnableTasks(setup.tasks)
    && FinalWorld(h, setup, env)
    && Converges(h.phase, h.world) && AcceptedFrom(h.accepted, h.phase, h.world, h.pre, h.steps)
  }

  /** How a run ends, on what it met alone: a task that was not done, a final phase that did not converge, a gate that
      could not read the directory, or a verdict. */
  ghost predicate RunEnds(r: Result<TruthReport, RunFailure>, h: History, setup: Setup, env: Environment, start: Files,
                          files: Files)
  {
    match r
    case Err(TaskFailed(i, failure)) => StoppedInTask(i, failure, h.traces, setup, env.taskWorlds)
    case Err(ReviewFailed(reason)) => AtFinalPhase(h, setup, env, start) && NotAccepted(reason, h, setup, env)
    case Err(GateCrashed) =>
      && AtFinalPhase(h, setup, env, start) && RunAccepted(h, setup, env)
      && ReachedGate(h, setup, env, files) && Crashes(files)
    case Ok(report) =>
      && AtFinalPhase(h, setup, env, start) && RunAccepted(h, setup, env)
      && ReachedGate(h, setup, env, files) && !Crashes(files)
      && (report.verdict == Proven <==> TruthProven(files, true, env.view, env.size, env.repository))
      && (report.verdict == Failed <==> TruthFailed(files, true, env.view, env.size, env.repository))
      && report.scope == ClaimScope(files)
  }

  /** The object carries out this setup, and its tasks are done. */
  ghost predicate Carries(o: Orchestrator, setup: Setup, env: Environment, dir: RunDirectory, traces: seq<seq<Entry>>,
                          start: Files)
    reads o, o.graph, o.graph.obligations, o.dir
  {
    && o.Valid() && o.criteria == setup.criteria && o.initial == setup.strategy && o.plan == setup.plan && o.dir == dir
    && o.goalMode == setup.goalMode && o.Wrote(start)
    && TasksDone(traces, setup, env.taskWorlds, |setup.tasks|)
    && o.steps == [PromptApplied(setup.runName)] + TaskSteps(traces, env.taskWorlds, setup.runName)
  }

  lemma FinalPhaseStarts(o: Orchestrator, setup: Setup, env: Environment, dir: RunDirectory, traces: seq<seq<Entry>>,
                         start: Files, h: History)
    requires Carries(o, setup, env, dir, traces, start)
    requires h.traces == traces && h.pre == o.steps && h.phase == PhaseOf(o, env.size)
    ensures AtFinalPhase(h, setup, env, start)
    ensures NoVerificationIn(h.pre) && h.pre != [] && h.pre[0] == PromptApplied(setup.runName)
    ensures setup.goalMode && setup.tasks != [] ==> TotalLength(traces) <= setup.maxGoalCycles
  {
    hide AfterAll, InitialSession, TasksDone;
    GoalCyclesDone(traces, setup, env.taskWorlds);
  }

  lemma GoalCyclesDone(traces: seq<seq<Entry>>, setup: Setup, taskWorlds: nat -> TaskWorld)
    requires TasksDone(traces, setup, taskWorlds, |setup.tasks|)
    ensures setup.goalMode && setup.tasks != [] ==> TotalLength(traces) <= setup.maxGoalCycles
  {
    hide TaskTrace, TotalLength;
    GoalCyclesKept(traces, setup, taskWorlds);
  }

  /** The final phase of a run whose tasks are done. */
  method FinishRun(o: Orchestrator, setup: Setup, env: Environment, dir: RunDirectory, ghost traces: seq<seq<Entry>>,
                   ghost start: Files)
    returns (r: Result<TruthReport, RunFailure>, ghost h: History)
    requires Carries(o, setup, env, dir, traces, start) && DiffGuard.Lists(env.order)
    modifies o`steps, o.graph`evidence, o.owned, o.dir
    ensures RunEnds(r, h, setup, env, start, dir.files)
  {
    hide AfterAll, InitialSession, TasksDone, NoVerificationIn, FinalSteps, AcceptedOn, TruthProven, TruthFailed, Crashes,
         ClaimScope, Finalized, TotalLength, Sealed, RequiresAll, DiffGuard.Lists, AtFinalPhase, Converges, FailsFor,
         AcceptedFrom, RunnableTasks;
    ghost var pre := o.steps;
    h := History(pre, pre, traces, Acceptance(1, FAST_LANE_REVIEW, Seal(map[], Graph([], [], "")), map[]), env.world,
                 PhaseOf(o, env.size));
    FinalPhaseStarts(o, setup, env, dir, traces, start, h);
    var accepted;
    ghost var a;
    ghost var world;
    accepted, a, world := FinalVerificationAndReview(o, setup.tasks, env.world, env.size, env.repository, env.order);
    SameStart(h, h.(steps := o.steps, accepted := a, world := world), setup, env, start);
    h := h.(steps := o.steps, accepted := a, world := world);
    if accepted.Err? { return Err(ReviewFailed(accepted.error)), h; }
    AcceptedNow(a, world, setup.plan, env.size, o.strategy.reviewerRequired, dir.files, o.graph.Value(),
                o.steps[|o.steps| - 1]);
    StepsGrow(pre, o.steps, world, setup.plan, a.cycle);
    var truth := FinalizeTruth(dir, env.trace, env.view, env.size, env.repository);
    if truth.Err? { return Err(GateCrashed), h; }
    return Ok(truth.value), h;
  }

  lemma SameStart(h: History, k: History, setup: Setup, env: Environment, start: Files)
    requires h.traces == k.traces && h.pre == k.pre && h.phase == k.phase
    ensures AtFinalPhase(h, setup, env, start) <==> AtFinalPhase(k, setup, env, start)
  {
  }

  lemma StepsGrow(pre: seq<Step>, steps: seq<Step>, world: World, plan: Plan, last: nat)
    requires FinalSteps(pre, steps, world, plan, last)
    ensures pre <= steps
  {
  }

  /** The kernel object, with its first graph on file and its prompt contract compiled. */
  method StartKernel(setup: Setup, dir: RunDirectory) returns (o: Orchestrator)
    modifies dir
    ensures o.Valid() && fresh(o) && fresh(o.graph) && fresh(o.owned) && o.Wrote(old(dir.files))
    ensures o.criteria == setup.criteria && o.initial == setup.strategy && o.plan == setup.plan && o.dir == dir
    ensures o.goalMode == setup.goalMode && o.maxReplans == setup.maxReplans && o.maxGoalCycles == setup.maxGoalCycles
    ensures o.goalCycles == 0 && o.steps == [PromptApplied(setup.runName)]
  {
    hide AfterAll, InitialSession;
    o := new Orchestrator(setup.criteria, setup.strategy, setup.plan, dir, setup.goalMode,
                          setup.maxGoalCycles, setup.maxReplans);
    o.PersistProofGraph();
    o.RecordPromptContractProof(setup.runName);
  }

  lemma TaskStopsRun(h: History, setup: Setup, env: Environment, start: Files, files: Files, index: nat, failure: TaskFailure)
    requires StoppedInTask(index, failure, h.traces, setup, env.taskWorlds)
    ensures RunEnds(Err(TaskFailed(index, failure)), h, setup, env, start, files)
  {
  }

  /** The run from the frozen intent on: prompt contract, tasks, final verification and review, truth gate. */
  method Run(setup: Setup, env: Environment, dir: RunDirectory)
    returns (r: Result<TruthReport, RunFailure>, ghost h: History)
    requires DiffGuard.Lists(env.order)
    requires forall i | 0 <= i < |setup.tasks| :: Repair.ValidBudgets(BudgetsOf(setup.tasks[i]))
    modifies dir
    ensures RunEnds(r, h, setup, env, old(dir.files), dir.files)
  {
    hide AfterAll, InitialSession, TasksDone, TaskSteps, BudgetsOf, TotalLength, DiffGuard.Lists, StoppedInTask, RunEnds;
    var o := StartKernel(setup, dir);
    var executed;
    ghost var traces;
    executed, traces := ExecuteTasks(o, setup, env.taskWorlds);
    if executed.Err? {
      h := History([], [], traces, Acceptance(1, FAST_LANE_REVIEW, Seal(map[], Graph([], [], "")), map[]), env.world,
                   PhaseOf(o, env.size));
      TaskStopsRun(h, setup, env, old(dir.files), dir.files, executed.error.index, executed.error.failure);
      return Err(executed.error), h;
    }
    r, h := FinishRun(o, setup, env, dir, traces, old(dir.files));
  }

  // ---------------------------------------------------------------- a run has one ending

  /** The first tasks of two runs went the same way. */
  lemma {:induction false} TasksAlike(traces: seq<seq<Entry>>, others: seq<seq<Entry>>, setup: Setup, taskWorlds: nat -> TaskWorld,
                                      n: nat)
    requires TasksDone(traces, setup, taskWorlds, |traces|) && TasksDone(others, setup, taskWorlds, |others|)
    requires n <= |traces| && n <= |others|
    ensures traces[..n] == others[..n]
  {
    hide TaskTrace, FrameOf;
    if n > 0 {
      TasksAlike(traces, others, setup, taskWorlds, n - 1);
      OneOutcome(Ok(()), traces[n - 1], Ok(()), others[n - 1], FrameOf(traces[..n - 1], setup, taskWorlds));
      assert traces[..n] == traces[..n - 1] + [traces[n - 1]] && others[..n] == others[..n - 1] + [others[n - 1]];
    }
  }

  /** A run that stopped in a task cannot have been done with it. */
  lemma StoppedNotDone(i: nat, failure: TaskFailure, traces: seq<seq<Entry>>, others: seq<seq<Entry>>, setup: Setup,
                       taskWorlds: nat -> TaskWorld)
    requires StoppedInTask(i, failure, traces, setup, taskWorlds)
    requires TasksDone(others, setup, taskWorlds, |others|)
    ensures |others| <= i && traces[..|others|] == others
  {
    hide TaskTrace, FrameOf, TasksDone;
    var n := if |others| <= i then |others| else i;
    TasksAlike(traces[..i], others, setup, taskWorlds, n);
    assert traces[..i][..n] == traces[..n] && others[..|others|] == others;
    if |others| > i {
      TaskAt(others, setup, taskWorlds, i);
      OneOutcome(Err(failure), traces[i], Ok(()), others[i], FrameOf(traces[..i], setup, taskWorlds));
    }
  }

  lemma TaskAt(traces: seq<seq<Entry>>, setup: Setup, taskWorlds: nat -> TaskWorld, i: nat)
    requires TasksDone(traces, setup, taskWorlds, |traces|) && i < |traces|
    ensures i < |setup.tasks| && TaskTrace(Ok(()), traces[i], FrameOf(traces[..i], setup, taskWorlds))
  {
  }

  lemma StoppedAlike(i: nat, failure: TaskFailure, traces: seq<seq<Entry>>, j: nat, other: TaskFailure,
                     others: seq<seq<Entry>>, setup: Setup, taskWorlds: nat -> TaskWorld)
    requires StoppedInTask(i, failure, traces, setup, taskWorlds) && StoppedInTask(j, other, others, setup, taskWorlds)
    ensures i == j && failure == other && traces == others
  {
    hide TaskTrace, FrameOf, TasksDone;
    StoppedNotDone(i, failure, traces, others[..j], setup, taskWorlds);
    StoppedNotDone(j, other, others, traces[..i], setup, taskWorlds);
    OneOutcome(Err(failure), traces[i], Err(other), others[j], FrameOf(traces[..i], setup, taskWorlds));
  }

  lemma {:induction false} StrategyKept(s: Session, steps: seq<Step>, more: seq<Step>)
    requires forall step | step in more :: step.Verified?
    ensures AfterAll(s, steps + more).strategy == AfterAll(s, steps).strategy
  {
    hide StepEvidence, RecordAll;
    if more == [] {
      assert steps + more == steps;
    } else {
      var n := |more| - 1;
      assert steps + more == (steps + more[..n]) + [more[n]];
      RunExtends(s, steps + more[..n], more[n]);
      assert more[n] in more && more[n].Verified?;
      StrategyKept(s, steps, more[..n]);
    }
  }

  /** The accepted cycle, its seal, its review and the steps are settled by the phase and the world. */
  lemma AcceptedAlike(a: Acceptance, steps: seq<Step>, c: Acceptance, others: seq<Step>, p: Phase, world: World, pre: seq<Step>,
                      required: bool, files: Files, g: Graph, more: Files, k: Graph)
    requires AcceptedFrom(a, p, world, pre, steps) && AcceptedFrom(c, p, world, pre, others)
    requires steps != [] && others != []
    requires AcceptedOn(a, world, p.plan, p.size, required, files, g, steps[|steps| - 1])
    requires AcceptedOn(c, world, p.plan, p.size, required, more, k, others[|others| - 1])
    ensures a == c && steps == others
  {
    hide CyclePassed, AfterSeal, Returned, AcceptedFirst, AcceptedSecond, SealOf, CycleStep, Sealable;
  }

  lemma RequiredInPhase(h: History, setup: Setup, env: Environment, start: Files)
    requires AtFinalPhase(h, setup, env, start) && RunAccepted(h, setup, env)
    ensures AfterAll(InitialSession(setup.criteria, setup.strategy), h.steps).strategy == h.phase.session.strategy
  {
    hide AfterAll, InitialSession, TasksDone, TaskSteps, RequiresAll, RunnableTasks, Converges, AcceptedFirst, AcceptedSecond,
         SealOf, FirstSeal, Returned;
    StrategyKept(InitialSession(setup.criteria, setup.strategy), h.pre, h.steps[|h.pre|..]);
    assert h.steps == h.pre + h.steps[|h.pre|..];
  }

  lemma PhasesAlike(h: History, k: History, setup: Setup, env: Environment, start: Files)
    requires AtFinalPhase(h, setup, env, start) && AtFinalPhase(k, setup, env, start)
    ensures h.traces == k.traces && h.pre == k.pre && h.phase == k.phase
  {
    hide AfterAll, InitialSession, TasksDone, TaskSteps;
    TasksCount(h.traces, setup, env.taskWorlds);
    TasksCount(k.traces, setup, env.taskWorlds);
    TasksAlike(h.traces, k.traces, setup, env.taskWorlds, |setup.tasks|);
    assert h.traces[..|setup.tasks|] == h.traces && k.traces[..|setup.tasks|] == k.traces;
  }

  lemma TasksCount(traces: seq<seq<Entry>>, setup: Setup, taskWorlds: nat -> TaskWorld)
    requires TasksDone(traces, setup, taskWorlds, |setup.tasks|)
    ensures |traces| == |setup.tasks|
  {
  }

  lemma GatesAlike(h: History, k: History, setup: Setup, env: Environment, start: Files, files: Files, others: Files)
    requires AtFinalPhase(h, setup, env, start) && RunAccepted(h, setup, env) && ReachedGate(h, setup, env, files)
    requires AtFinalPhase(k, setup, env, start) && RunAccepted(k, setup, env) && ReachedGate(k, setup, env, others)
    requires h.world == k.world
    ensures h == k && files == others
  {
    PhasesAlike(h, k, setup, env, start);
    RequiredInPhase(h, setup, env, start);
    RequiredInPhase(k, setup, env, start);
    PhaseSize(h, setup, env, start);
    hide AtFinalPhase, TasksDone, TaskSteps, RequiresAll, RunnableTasks, Converges, AcceptedFrom, AcceptedOn, FinalSteps,
         AfterAll, InitialSession, GateFiles, NoVerificationIn, TotalLength;
    var s := InitialSession(setup.criteria, setup.strategy);
    var g, l := AfterAll(s, h.steps).graph, AfterAll(s, k.steps).graph;
    AcceptedAlike(h.accepted, h.steps, k.accepted, k.steps, h.phase, h.world, h.pre, h.phase.session.strategy.reviewerRequired,
                  h.accepted.left[REVIEW := ReviewFile(h.accepted.review)][GRAPH := GraphFile(g)], g,
                  k.accepted.left[REVIEW := ReviewFile(k.accepted.review)][GRAPH := GraphFile(l)], l);
  }

  lemma PhaseSize(h: History, setup: Setup, env: Environment, start: Files)
    requires AtFinalPhase(h, setup, env, start)
    ensures h.phase.size == env.size && h.phase.plan == setup.plan
  {
  }

  lemma NotBoth(reason: Failure, h: History, k: History, setup: Setup, env: Environment)
    requires NotAccepted(reason, h, setup, env) && h.phase == k.phase && h.world == k.world
    ensures !RunAccepted(k, setup, env)
  {
    hide RunnableTasks, RequiresAll, Converges, FailsFor, AcceptedFrom;
    if setup.tasks != [] && RunnableTasks(setup.tasks) { OneFailure(reason, reason, h.phase, h.world); }
  }

  lemma OneReason(reason: Failure, other: Failure, h: History, k: History, setup: Setup, env: Environment)
    requires NotAccepted(reason, h, setup, env) && NotAccepted(other, k, setup, env)
    requires h.phase == k.phase && h.world == k.world
    ensures reason == other
  {
    hide RunnableTasks, RequiresAll, Converges, FailsFor;
    if setup.tasks != [] && RunnableTasks(setup.tasks) { OneFailure(reason, other, h.phase, h.world); }
  }

  /** The setup, what the run meets, the directory it starts in and the commands its final cycles require settle how it
      ends, down to the last file of a run that reaches the gate. */
  lemma OneRun(a: Result<TruthReport, RunFailure>, h: History, c: Result<TruthReport, RunFailure>, k: History, setup: Setup,
               env: Environment, start: Files, files: Files, others: Files)
    requires RunEnds(a, h, setup, env, start, files) && RunEnds(c, k, setup, env, start, others) && h.world == k.world
    ensures a.Err? || c.Err? ==> a == c
    ensures a.Ok? && c.Ok? ==> a.value.verdict == c.value.verdict && a.value.scope == c.value.scope
    ensures a.Ok? || a.error.GateCrashed? ==> h == k && files == others
  {
    hide AtFinalPhase, StoppedInTask, NotAccepted, RunAccepted, ReachedGate, TruthProven, TruthFailed, Crashes, ClaimScope;
    match (a, c) {
      case (Err(TaskFailed(i, f)), Err(TaskFailed(j, g))) =>
        StoppedAlike(i, f, h.traces, j, g, k.traces, setup, env.taskWorlds);
      case (Err(TaskFailed(i, f)), _) => StoppedBeforePhase(i, f, h, k, setup, env, start);
      case (_, Err(TaskFailed(i, f))) => StoppedBeforePhase(i, f, k, h, setup, env, start);
      case _ =>
        PhasesAlike(h, k, setup, env, start);
        match (a, c) {
          case (Err(ReviewFailed(f)), Err(ReviewFailed(g))) => OneReason(f, g, h, k, setup, env);
          case (Err(ReviewFailed(f)), _) => NotBoth(f, h, k, setup, env);
          case (_, Err(ReviewFailed(f))) => NotBoth(f, k, h, setup, env);
          case _ => GatesAlike(h, k, setup, env, start, files, others);
        }
    }
  }

  /** Which runs reach the gate: exactly those whose tasks were all done, with commands to run, and whose final phase
      converges. */
  lemma GateReachedExactly(r: Result<TruthReport, RunFailure>, h: History, setup: Setup, env: Environment, start: Files,
                           files: Files)
    requires RunEnds(r, h, setup, env, start, files)
    ensures r.Ok? || r.error.GateCrashed? <==>
              && setup.tasks != [] && RunnableTasks(setup.tasks)
              && TasksDone(h.traces, setup, env.taskWorlds, |setup.tasks|) && Converges(h.phase, h.world)
  {
    hide TasksDone, ReachedGate, AcceptedFrom, TruthProven, TruthFailed, Crashes, ClaimScope, RequiresAll, FailsFor, Converges,
         AfterAll, InitialSession, TaskSteps, RunnableTasks, TaskTrace, FrameOf;
    match r {
      case Err(TaskFailed(i, failure)) =>
        if TasksDone(h.traces, setup, env.taskWorlds, |setup.tasks|) {
          TasksCount(h.traces, setup, env.taskWorlds);
          StoppedNotDone(i, failure, h.traces, h.traces, setup, env.taskWorlds);
        }
      case Err(ReviewFailed(reason)) =>
        if setup.tasks != [] && RunnableTasks(setup.tasks) { OneFailure(reason, reason, h.phase, h.world); }
      case _ =>
    }
  }

  lemma StoppedBeforePhase(i: nat, failure: TaskFailure, h: History, k: History, setup: Setup, env: Environment, start: Files)
    requires StoppedInTask(i, failure, h.traces, setup, env.taskWorlds)
    ensures !AtFinalPhase(k, setup, env, start)
  {
    hide TaskTrace, FrameOf, AfterAll, InitialSession, TaskSteps;
    if AtFinalPhase(k, setup, env, start) {
      StoppedNotDone(i, failure, h.traces, k.traces, setup, env.taskWorlds);
    }
  }

  // ---------------------------------------------------------------- the theorems

  lemma AcceptedReview(a: Acceptance, world: World, plan: Plan, size: Content -> nat, required: bool, files: Files,
                       g: Graph, last: Step)
    requires AcceptedOn(a, world, plan, size, required, files, g, last)
    requires last.Verified? && ModelReviewed(last.v)
    ensures !a.review.fastLane && world.review(a.cycle) == Some(a.review)
  {
  }

  /** A run that ends PROVEN, with its intent contract still in place, was approved by an independent review that is
      no fast-lane one; every criterion was passed by the frozen plan's gate; and if recovery was ever activated,
      the checks passed after it. Its scope is what the kernel itself can prove. */
  lemma ProvenMeans(h: History, setup: Setup, env: Environment, files: Files)
    requires Shows(env.view) && ReachedGate(h, setup, env, files)
    requires TruthProven(files, true, env.view, env.size, env.repository) && IsObject(files, INTENT)
    ensures ProvenRun(setup.criteria, h.steps, h.world, setup.plan, h.accepted.cycle)
    ensures Authentic(setup.plan.body.mandatory) ==>
              forall id | id in setup.criteria && id.Named? :: PassedAt(id, h.world, setup.plan, h.accepted.cycle)
    ensures !h.accepted.review.fastLane && h.world.review(h.accepted.cycle) == Some(h.accepted.review)
    ensures ClaimScope(files) == LocalDeterministic
  {
    hide Shows, InitialSession, AfterAll, AcceptedOn, FinalSteps, TasksDone, TruthProven, ProvenRun, GateFiles,
         NoVerificationIn, ClaimScope, CoreValid, Bloated, Truth.Requires;
    var reached := AfterAll(InitialSession(setup.criteria, setup.strategy), h.steps);
    var a, g := h.accepted, reached.graph;
    AcceptedNow(a, h.world, setup.plan, env.size, reached.strategy.reviewerRequired,
                a.left[REVIEW := ReviewFile(a.review)][GRAPH := GraphFile(g)], g, h.steps[|h.steps| - 1]);
    KernelVerdict(a.left, a.review, g, env.trace, env.view, env.size, env.repository);
    ClosedRunIsProvenRun(setup.criteria, setup.strategy, h.pre, h.steps, h.world, setup.plan, a.cycle);
    ProvenRunLast(setup.criteria, h.steps, h.world, setup.plan, a.cycle);
    if Authentic(setup.plan.body.mandatory) {
      forall id | id in setup.criteria && id.Named? ensures PassedAt(id, h.world, setup.plan, a.cycle) {
        ProvenRunPassed(setup.criteria, h.steps, h.world, setup.plan, a.cycle, id);
        PassedWhenAccepted(h, setup, env, files, id);
      }
    }
    AcceptedReview(a, h.world, setup.plan, env.size, reached.strategy.reviewerRequired,
                   a.left[REVIEW := ReviewFile(a.review)][GRAPH := GraphFile(g)], g, h.steps[|h.steps| - 1]);
    RunInvariant(setup.criteria, setup.strategy, h.steps);
    KernelMakesNoHostClaim(g);
    GateFilesHold(a.left, a.review, g, env.trace, env.size, env.repository);
    ProvenScope(files, true, env.view, env.size, env.repository);
  }

  lemma RunHolds(h: History, setup: Setup, env: Environment, files: Files)
    requires ReachedGate(h, setup, env, files)
    ensures h.pre <= h.steps && FinalSteps(h.pre, h.steps, h.world, setup.plan, h.accepted.cycle)
    ensures RequiresMandatory(h.world.required, setup.plan)
    ensures CyclePassed(h.world, h.accepted.cycle, setup.plan) && 1 <= h.accepted.cycle <= 2
  {
    hide AfterAll, InitialSession, FinalSteps, TasksDone, NoVerificationIn, TotalLength, GateFiles, CyclePassed, RequiresMandatory;
  }

  /** What any cycle of the run passed, its accepted cycle passed too: exactly what the plan can prove. */
  lemma PassedWhenAccepted(h: History, setup: Setup, env: Environment, files: Files, id: ObligationId)
    requires ReachedGate(h, setup, env, files) && Authentic(setup.plan.body.mandatory)
    ensures GatePassed(id, h.world, setup.plan, h.accepted.cycle) <==> id in Provable(setup.plan)
    ensures PassedAt(id, h.world, setup.plan, h.accepted.cycle) <==> id in Provable(setup.plan)
  {
    RunHolds(h, setup, env, files);
    hide ReachedGate, Authentic, RequiresMandatory, Provable, PassedAt, CyclePassed;
    PassedAtIff(id, h.world, setup.plan, h.accepted.cycle);
    if GatePassed(id, h.world, setup.plan, h.accepted.cycle) {
      var cycle: nat :| 1 <= cycle <= h.accepted.cycle && PassedAt(id, h.world, setup.plan, cycle);
      PassedAtIff(id, h.world, setup.plan, cycle);
    }
  }

  lemma PassedAtIff(id: ObligationId, world: World, plan: Plan, cycle: nat)
    requires Authentic(plan.body.mandatory) && RequiresMandatory(world.required, plan)
    ensures PassedAt(id, world, plan, cycle) <==> CyclePassed(world, cycle, plan) && id in Provable(plan)
  {
    hide Authentic, RequiresMandatory, Provable, PassedIds, CyclePassed, MandatoryChecksPassed;
    if CyclePassed(world, cycle, plan) { EveryPassedCycleProves(world, plan, cycle); }
  }

  /** The verifications of a run pass exactly what the plan can prove. */
  lemma PassedIffProvable(h: History, setup: Setup, env: Environment, files: Files, id: ObligationId)
    requires ReachedGate(h, setup, env, files) && Authentic(setup.plan.body.mandatory)
    ensures PassedIn(id, h.pre, h.steps) <==> id in Provable(setup.plan)
  {
    RunHolds(h, setup, env, files);
    RunConcluded(h, setup, env, files);
    hide ReachedGate, Authentic, RequiresMandatory, Provable, PassedIds, CyclePassed, MandatoryChecksPassed;
    var last := |h.steps| - 1;
    if PassedIn(id, h.pre, h.steps) {
      var k :| |h.pre| <= k < |h.steps| && h.steps[k].Verified? && id in h.steps[k].v.passed;
      StepPasses(h.steps[k], h.world, setup.plan, h.accepted.cycle);
    }
    if id in Provable(setup.plan) {
      StepPasses(h.steps[last], h.world, setup.plan, h.accepted.cycle);
    }
  }

  lemma StepPasses(step: Step, world: World, plan: Plan, last: nat)
    requires FromCycle(step, world, plan, last) && Authentic(plan.body.mandatory)
    requires RequiresMandatory(world.required, plan)
    ensures step.Verified? && step.v.passed == Provable(plan)
  {
    hide Authentic, RequiresMandatory, Provable, PassedIds, CyclePassed, MandatoryChecksPassed;
    var cycle: nat :| 1 <= cycle <= last && VerifiesCycle(step.v, cycle, world, plan);
    EveryPassedCycleProves(world, plan, cycle);
  }

  lemma ProvenRunPassed(criteria: seq<ObligationId>, steps: seq<Step>, world: World, plan: Plan, last: nat, id: ObligationId)
    requires ProvenRun(criteria, steps, world, plan, last) && id in criteria && id.Named?
    ensures GatePassed(id, world, plan, last)
  {
  }

  lemma ProvenRunLast(criteria: seq<ObligationId>, steps: seq<Step>, world: World, plan: Plan, last: nat)
    requires ProvenRun(criteria, steps, world, plan, last)
    ensures steps != [] && steps[|steps| - 1].Verified? && ModelReviewed(steps[|steps| - 1].v)
  {
  }

  lemma StepOfCycle(step: Step, world: World, plan: Plan, last: nat)
    requires FromCycle(step, world, plan, last)
    ensures step.Verified? && step.v.checks == ReportPass && step.v.diff == ReportPass
  {
  }

  lemma RunConcluded(h: History, setup: Setup, env: Environment, files: Files)
    requires ReachedGate(h, setup, env, files)
    ensures Concluded(h.pre, h.steps)
    ensures ModelReviewed(h.steps[|h.steps| - 1].v) <==> !h.accepted.review.fastLane
  {
    hide AfterAll, InitialSession, TasksDone, TotalLength, GateFiles, FromCycle, Sealable, AfterSeal, CyclePassed, RequiresAll,
         PassedIds;
    var last := |h.steps| - 1;
    assert h.steps[last] == CycleStep(h.world, h.accepted.cycle, setup.plan, Some(h.accepted.review));
    forall i | 0 <= i < |h.pre| ensures !h.steps[i].Verified? {
      assert h.steps[i] == h.pre[i];
    }
    forall k | |h.pre| <= k < |h.steps|
      ensures h.steps[k].Verified? && h.steps[k].v.checks == ReportPass && h.steps[k].v.diff == ReportPass
      ensures k < last ==> h.steps[k].v.review.None?
    {
      StepOfCycle(h.steps[k], h.world, setup.plan, h.accepted.cycle);
    }
  }

  /** Every claim and report in order but the obligations, on the files the gate reads. */
  ghost predicate ReportsHold(h: History, setup: Setup, env: Environment, files: Files) {
    var g := AfterAll(InitialSession(setup.criteria, setup.strategy), h.steps).graph;
    && ReportsProve(files, env.trace, env.size, env.repository)
    && CoreValid(TracedFiles(h.accepted.left, h.accepted.review, g, env.trace), env.size, env.repository)
  }

  /** Exactly when a run that reached the gate ends PROVEN: its reports hold and, if the intent contract is still in
      place, so is the prompt compilation, the review is no fast-lane one, and the frozen plan can prove every criterion,
      that is, links it to a mandatory check. What else happened in the run plays no part. */
  lemma ProvenExactly(h: History, setup: Setup, env: Environment, files: Files)
    requires Shows(env.view) && ReachedGate(h, setup, env, files)
    requires NamedApart(setup.criteria) && Authentic(setup.plan.body.mandatory)
    ensures TruthProven(files, true, env.view, env.size, env.repository) <==>
              && ReportsHold(h, setup, env, files)
              && (IsObject(files, INTENT) ==>
                    && Document(files, PROMPT).Some? && !h.accepted.review.fastLane
                    && forall id | id in setup.criteria :: id in Provable(setup.plan))
  {
    hide Shows, ReachedGate, Concluded, NamedApart, TruthProven, ReportsHold, AllClosed, PassedIn, InitialSession, AfterAll,
         ModelReviewed, Provable, Authentic, IsObject, Document;
    RunConcluded(h, setup, env, files);
    ClosesExactly(setup.criteria, setup.strategy, h.pre, h.steps);
    GateVerdict(h, setup, env, files);
    forall id | id in setup.criteria ensures PassedIn(id, h.pre, h.steps) <==> id in Provable(setup.plan) {
      PassedIffProvable(h, setup, env, files, id);
    }
  }

  lemma GateVerdict(h: History, setup: Setup, env: Environment, files: Files)
    requires Shows(env.view) && ReachedGate(h, setup, env, files)
    ensures TruthProven(files, true, env.view, env.size, env.repository) <==>
              && ReportsHold(h, setup, env, files)
              && (IsObject(files, INTENT) ==>
                    && Document(files, PROMPT).Some?
                    && AllClosed(AfterAll(InitialSession(setup.criteria, setup.strategy), h.steps).graph))
  {
    hide Shows, InitialSession, AfterAll, AcceptedOn, FinalSteps, TasksDone, TruthProven, GateFiles, TracedFiles,
         NoVerificationIn, CoreValid, TotalLength, AllClosed, ReportsProve;
    var reached := AfterAll(InitialSession(setup.criteria, setup.strategy), h.steps);
    var a, g := h.accepted, reached.graph;
    AcceptedNow(a, h.world, setup.plan, env.size, reached.strategy.reviewerRequired,
                a.left[REVIEW := ReviewFile(a.review)][GRAPH := GraphFile(g)], g, h.steps[|h.steps| - 1]);
    KernelVerdict(a.left, a.review, g, env.trace, env.view, env.size, env.repository);
  }

  /** A run accepted on a fast-lane review ends PROVEN exactly when the intent contract is gone and its reports hold. */
  lemma FastLaneExactly(h: History, setup: Setup, env: Environment, files: Files)
    requires Shows(env.view) && ReachedGate(h, setup, env, files) && h.accepted.review.fastLane
    ensures TruthProven(files, true, env.view, env.size, env.repository) <==>
              !IsObject(files, INTENT) && ReportsHold(h, setup, env, files)
  {
    hide Shows, ReachedGate, TruthProven, ReportsHold, AllClosed, InitialSession, AfterAll;
    GateVerdict(h, setup, env, files);
    if TruthProven(files, true, env.view, env.size, env.repository) && IsObject(files, INTENT) {
      ProvenMeans(h, setup, env, files);
    }
  }

  /** While its intent contract is in place, a run accepted on a fast-lane review never ends PROVEN. */
  lemma FastLaneNeverProven(h: History, setup: Setup, env: Environment, files: Files)
    requires Shows(env.view) && ReachedGate(h, setup, env, files)
    requires h.accepted.review.fastLane && IsObject(files, INTENT)
    ensures !TruthProven(files, true, env.view, env.size, env.repository)
  {
    hide Shows, ReachedGate, TruthProven, ReportsHold;
    FastLaneExactly(h, setup, env, files);
  }

  /** A final report carries no repository, so no run whose frozen plan has evaluator inputs ends PROVEN while the
      manifest is the sealed one. */
  lemma EvaluatorInputsNeverProven(h: History, setup: Setup, env: Environment, files: Files)
    requires Shows(env.view) && ReachedGate(h, setup, env, files)
    requires setup.plan.body.evaluatorInputs != [] && CapturableLogs(h.world.checks(h.accepted.cycle))
    requires Sealable(h.accepted.seal, h.world, h.accepted.cycle) && MANIFEST in files
    requires files[MANIFEST] == AfterSeal(h.accepted.seal, h.world, h.accepted.cycle, setup.plan, env.size)[MANIFEST]
    ensures !TruthProven(files, true, env.view, env.size, env.repository)
  {
    hide Shows, ReachedGate, CoreValid, Sealable, AfterSeal, Intact, MandatoryChecksPassed;
    GateVerdict(h, setup, env, files);
    if CoreValid(files, env.size, env.repository) {
      SealedVerdict(h.accepted, h.world, setup.plan, files, env.size, env.repository);
    }
  }

  // ---------------------------------------------------------------- PROVEN can be reached

  /** The files the kernel itself writes between sealing and the gate. */
  const KERNEL_WRITES: set<Path> := {REVIEW, GRAPH, TRACE, CLAIMS}

  /** Nothing but the kernel's own later writes tells the two directories apart. */
  ghost predicate SameButKernelWrites(a: Files, b: Files) {
    forall p: Path | p !in KERNEL_WRITES :: (p in a <==> p in b) && (p in a ==> a[p] == b[p])
  }

  /** No check logged into a file the kernel writes later. */
  predicate LogsElsewhere(checks: Report) {
    forall i | 0 <= i < |checks.items| ::
      checks.items[i].stdoutRef !in KERNEL_WRITES && checks.items[i].stderrRef !in KERNEL_WRITES
  }

  lemma {:induction false} LogSourcesElsewhere(items: seq<CheckItem>, name: LogNaming)
    requires forall i | 0 <= i < |items| :: items[i].stdoutRef !in KERNEL_WRITES && items[i].stderrRef !in KERNEL_WRITES
    ensures forall s | s in LogSources(items, name) :: s.path !in KERNEL_WRITES
  {
    hide KERNEL_WRITES;
    if items != [] { LogSourcesElsewhere(items[..|items| - 1], name); }
  }

  lemma SourcesElsewhere(checks: Report)
    requires LogsElsewhere(checks)
    ensures forall s | s in SourcesOf(checks) :: s.path !in KERNEL_WRITES
  {
    KernelPathsDiffer();
    LogSourcesElsewhere(checks.items, LogPath);
  }

  lemma IntactSurvives(sealed: Files, later: Files, files: Files, bundle: map<string, Content>, sources: seq<Source>)
    requires forall s | s in sources :: s.path in files && s.path !in KERNEL_WRITES
    requires SameButKernelWrites(sealed, later) && BundleIntact(sealed, bundle) && SourcesIntact(sealed, files, sources)
    ensures BundleIntact(later, bundle) && SourcesIntact(later, files, sources)
  {
    assert forall p: string :: BundlePath(p) !in KERNEL_WRITES;
    assert BundleFiles(later) == BundleFiles(sealed);
    forall p | p in bundle ensures later[BundlePath(p)] == bundle[p] {
      assert p in BundleFiles(sealed);
    }
  }

  lemma SealedIsIntact(from: Files, checks: Report, diff: DiffReport, plan: Plan, size: Content -> nat)
    requires CanSeal(from, checks, diff) && CapturableLogs(checks)
    ensures Intact(Sealed(from, checks, diff, plan, size), from, checks, diff, plan)
  {
    hide CapturableLogs, SourcesOf, BundleOf, Replaced, CanSeal;
    SourcesPresent(from, checks, diff);
    SourcesCapturable(checks);
    var sources := SourcesOf(checks);
    BundleHasItsPaths(from, sources, plan);
    var bundle := SealedBundle(from, checks, diff, plan);
    SealingIsIntact(from, bundle, Manifest(true, Describe(bundle, BundlePaths(sources), size)), sources);
  }

  /** If only the kernel wrote after sealing, validation succeeds exactly when what was sealed deserves it. */
  lemma UntouchedSealStaysValid(from: Files, checks: Report, diff: DiffReport, plan: Plan, size: Content -> nat,
                                later: Files, repository: RepositoryView)
    requires CanSeal(from, checks, diff) && CapturableLogs(checks) && LogsElsewhere(checks)
    requires SameButKernelWrites(Sealed(from, checks, diff, plan, size), later)
    ensures forall p :: p in SealedBundle(from, checks, diff, plan) <==> p in BundlePaths(SourcesOf(checks))
    ensures CoreValid(later, size, repository) <==>
              WithinLimits(SealedBundle(from, checks, diff, plan), checks, size) && Substantiated(plan, checks, diff, repository)
    ensures CoreValid(later, size, repository) ==> DocumentsAre(later, checks, diff, plan, SourcesOf(checks))
  {
    hide CapturableLogs, LogsElsewhere, SourcesOf, CoreValid, Substantiated, WithinLimits, Sealed, SealedBundle, BundlePaths,
         DocumentsAre, BundleIntact, SourcesIntact, CanSeal;
    KernelPathsDiffer();
    SourcesPresent(from, checks, diff);
    SealedIsIntact(from, checks, diff, plan, size);
    SourcesElsewhere(checks);
    var sealed := Sealed(from, checks, diff, plan, size);
    IntactSurvives(sealed, later, from, SealedBundle(from, checks, diff, plan), SourcesOf(checks));
    SealedHoldsManifest(from, checks, diff, plan, size);
    ValidIffIntact(from, checks, diff, plan, size, later, repository);
  }

  lemma SealedHoldsManifest(from: Files, checks: Report, diff: DiffReport, plan: Plan, size: Content -> nat)
    requires CanSeal(from, checks, diff)
    ensures MANIFEST in Sealed(from, checks, diff, plan, size)
  {
  }

  ghost predicate SealFits(seal: Seal, world: World, cycle: nat, plan: Plan, size: Content -> nat)
    requires Sealable(seal, world, cycle)
  {
    var checks, diff := world.checks(cycle), world.diff(cycle);
    && (forall p :: p in SealedBundle(seal.from, checks, diff, plan) <==> p in BundlePaths(SourcesOf(checks)))
    && WithinLimits(SealedBundle(seal.from, checks, diff, plan), checks, size)
  }

  /** What an honest environment leaves behind: nobody but the kernel wrote after sealing, the plan is the one its hash
      names, the evidence is within the limits, and the model routing that was claimed was observed. */
  ghost predicate HonestEnd(a: Acceptance, world: World, plan: Plan, env: Environment)
    requires Sealable(a.seal, world, a.cycle)
  {
    var checks, diff := world.checks(a.cycle), world.diff(a.cycle);
    && CapturableLogs(checks) && LogsElsewhere(checks)
    && SameButKernelWrites(Sealed(a.seal.from, checks, diff, plan, env.size), a.left)
    && SealFits(a.seal, world, a.cycle, plan, env.size)
    && plan.hash == PlanHashOf(plan.body)
    && (env.trace.routingClaimed ==> env.trace.routingObserved)
    && (IsObject(a.left, INTENT) ==> Document(a.left, PROMPT).Some?)
  }

  lemma SealedKeepsSources(from: Files, checks: Report, diff: DiffReport, plan: Plan, size: Content -> nat)
    requires CanSeal(from, checks, diff)
    ensures DIFF in Sealed(from, checks, diff, plan, size)
    ensures Sealed(from, checks, diff, plan, size)[DIFF] == DiffFile(diff)
  {
    hide BundleOf, Describe, SourcesOf;
    KernelPathsDiffer();
  }

  lemma GateFilesAgree(sealed: Files, left: Files, review: Review, g: Graph, trace: Trace, size: Content -> nat,
                       repository: RepositoryView)
    requires SameButKernelWrites(sealed, left)
    ensures SameButKernelWrites(sealed, GateFiles(left, review, g, trace, size, repository))
    ensures SameButKernelWrites(sealed, TracedFiles(left, review, g, trace))
  {
    hide CoreValid, LedgerFor;
  }

  /** A plan with authority and without evaluator inputs. */
  predicate Conclusive(plan: Plan) {
    plan.body.mandatory != [] && plan.body.evaluatorInputs == []
  }

  /** A passed cycle's reports substantiate a verdict exactly when the plan is conclusive. */
  lemma SubstantiatedExactly(world: World, plan: Plan, cycle: nat, repository: RepositoryView)
    requires Authentic(plan.body.mandatory) && RequiresMandatory(world.required, plan)
    requires CyclePassed(world, cycle, plan) && plan.hash == PlanHashOf(plan.body)
    ensures Substantiated(plan, world.checks(cycle), world.diff(cycle), repository) <==> Conclusive(plan)
    ensures Conclusive(plan) ==> world.checks(cycle).items != []
  {
    hide Authentic, RequiresMandatory, AuthoritativePassedCriteria, Merged, CommandDigest;
    EveryPassedCycleProves(world, plan, cycle);
    if plan.body.mandatory != [] { SomethingRan(plan, world.checks(cycle)); }
  }

  lemma SomethingRan(plan: Plan, report: Report)
    requires MandatoryChecksPassed(plan, report)
    ensures report.items != []
  {
  }

  lemma NoBloat(world: World, cycle: nat)
    requires world.diff(cycle).verdict == ReportPass
    ensures !(exists code | code in BLOAT_CODES :: code in world.diff(cycle).violations)
  {
  }

  lemma HonestReportsProve(a: Acceptance, world: World, plan: Plan, env: Environment, g: Graph)
    requires Sealable(a.seal, world, a.cycle) && CyclePassed(world, a.cycle, plan)
    requires Authentic(plan.body.mandatory) && RequiresMandatory(world.required, plan)
    requires HonestEnd(a, world, plan, env)
    ensures var files := GateFiles(a.left, a.review, g, env.trace, env.size, env.repository);
            && ((ReportsProve(files, env.trace, env.size, env.repository)
                 && CoreValid(TracedFiles(a.left, a.review, g, env.trace), env.size, env.repository)) <==> Conclusive(plan))
            && (IsObject(files, INTENT) ==> Document(files, PROMPT).Some?)
  {
    hide CapturableLogs, LogsElsewhere, Sealed, SealedBundle, BundlePaths, SourcesOf, WithinLimits, Substantiated, CoreValid,
         GateFiles, TracedFiles, SourceMapOf, BLOAT_CODES, Merged, Authentic, RequiresMandatory, AuthoritativePassedCriteria, Conclusive;
    var checks, diff, from := world.checks(a.cycle), world.diff(a.cycle), a.seal.from;
    var sealed := Sealed(from, checks, diff, plan, env.size);
    var files := GateFiles(a.left, a.review, g, env.trace, env.size, env.repository);
    SubstantiatedExactly(world, plan, a.cycle, env.repository);
    NoBloat(world, a.cycle);
    GateFilesAgree(sealed, a.left, a.review, g, env.trace, env.size, env.repository);
    GateFilesHold(a.left, a.review, g, env.trace, env.size, env.repository);
    UntouchedSealStaysValid(from, checks, diff, plan, env.size, files, env.repository);
    UntouchedSealStaysValid(from, checks, diff, plan, env.size, TracedFiles(a.left, a.review, g, env.trace), env.repository);
    SealedKeepsSources(from, checks, diff, plan, env.size);
    KernelPathsDiffer();
  }

  lemma AcceptedSeal(a: Acceptance, world: World, plan: Plan, size: Content -> nat, required: bool, files: Files, g: Graph,
                     last: Step)
    requires AcceptedOn(a, world, plan, size, required, files, g, last)
    ensures Sealable(a.seal, world, a.cycle) && CyclePassed(world, a.cycle, plan)
  {
  }

  /** In an honest environment, a run that reached the gate ends PROVEN exactly when its plan is conclusive and, if its
      intent contract is in place, an independent review accepted it and the plan links every criterion. Everything but
      the review is settled before the first check of the final phase runs. */
  lemma HonestRunIsProven(h: History, setup: Setup, env: Environment, files: Files)
    requires Shows(env.view) && ReachedGate(h, setup, env, files)
    requires NamedApart(setup.criteria) && Authentic(setup.plan.body.mandatory)
    requires Sealable(h.accepted.seal, h.world, h.accepted.cycle) && HonestEnd(h.accepted, h.world, setup.plan, env)
    ensures TruthProven(files, true, env.view, env.size, env.repository) <==>
              && Conclusive(setup.plan)
              && (IsObject(files, INTENT) ==>
                    !h.accepted.review.fastLane && forall id | id in setup.criteria :: id in Provable(setup.plan))
  {
    hide Shows, TruthProven, HonestEnd, NamedApart, ReachedGate, IsObject, ReportsProve, CoreValid, TracedFiles,
         InitialSession, AfterAll, Document, Provable, Authentic, Conclusive, Sealable, ReportsHold;
    ProvenExactly(h, setup, env, files);
    HonestReportsHold(h, setup, env, files);
  }

  lemma HonestReportsHold(h: History, setup: Setup, env: Environment, files: Files)
    requires ReachedGate(h, setup, env, files) && Authentic(setup.plan.body.mandatory)
    requires Sealable(h.accepted.seal, h.world, h.accepted.cycle) && HonestEnd(h.accepted, h.world, setup.plan, env)
    ensures ReportsHold(h, setup, env, files) <==> Conclusive(setup.plan)
    ensures IsObject(files, INTENT) ==> Document(files, PROMPT).Some?
  {
    RunHolds(h, setup, env, files);
    hide InitialSession, AfterAll, AcceptedOn, FinalSteps, TasksDone, GateFiles, NoVerificationIn, HonestEnd, CoreValid,
         ReportsProve, TracedFiles, TotalLength, IsObject, Document, CyclePassed, RequiresMandatory, Authentic, Conclusive, Sealable;
    var reached := AfterAll(InitialSession(setup.criteria, setup.strategy), h.steps);
    HonestReportsProve(h.accepted, h.world, setup.plan, env, reached.graph);
  }
}
