/** Bounded execution and repair of one task: attempts, role changes, replans and goal cycles. */
module TaskExecutor {
  import opened Common
  import opened Repair
  import opened TaskBrief
  import opened ObligationLifecycle
  import opened Orchestrator

  datatype RunVerdict = BlockedVerdict | FailedVerdict | NeedsInputVerdict

  datatype Invocation = Completed | Refused(verdict: RunVerdict)

  /** What the world shows at one attempt; it is chosen adversarially. */
  datatype Observation = Observation(
    invocation: Invocation,
    check: Verdict,
    diff: Verdict,
    fingerprint: Option<string>,
    classification: Option<Classification>)

  /** replan(k) is the planner's answer to the k-th replan, None when it is no valid brief. */
  datatype TaskWorld = TaskWorld(
    observe: nat -> Observation,
    replan: nat -> Option<TaskBrief>,
    preinvoked: bool,
    baselineMet: bool,
    redMet: bool)

  datatype TaskFailure =
    | PreimplementationProofUnavailable
    | ProofBaselineFailed
    | ProofRedCheckNotRed
    | GoalCycleBudgetExhausted
    | RoleRefused(verdict: RunVerdict)
    | RecoveryBlockedAfterFailure
    | TaskContractViolation
    | ReplanBudgetExhausted
    | TaskInputRequired
    | ReplanTaskInvalid
    | BlockedIdenticalFailure
    | TaskVerificationFailed

  function BudgetsOf(task: TaskBrief): (b: Budgets)
    ensures b.maxFast == task.maxFastAttempts && b.maxRecovery == task.maxRecoveryAttempts
  {
    Budgets(task.maxFastAttempts, task.maxRecoveryAttempts)
  }

  /** A replanned brief is loaded only with explicit budgets. */
  predicate Loads(answer: Option<TaskBrief>) {
    answer.Some? && ValidBudgets(BudgetsOf(answer.value))
  }

  /** The budgets in force after k replans. */
  function BudgetsAt(task: TaskBrief, replan: nat -> Option<TaskBrief>): nat -> Budgets {
    k => if k > 0 && Loads(replan(k)) then BudgetsOf(replan(k).value) else BudgetsOf(task)
  }

  function AttemptOf(role: Role, seen: Observation): (a: Attempt)
    ensures a.role == Some(role) && a.check == Some(seen.check) && a.diff == Some(seen.diff)
    ensures a.fingerprint == seen.fingerprint && a.classification == seen.classification
  {
    Attempt(Some(role), Some(seen.check), Some(seen.diff), seen.classification, seen.fingerprint)
  }

  /** Redesign is the planner's business; these three are the owner's. */
  predicate AsksOwner(c: Option<Classification>) {
    c == Some(SpecAmbiguity) || c == Some(AuthorizationAmbiguous) || c == Some(ContractChange)
  }

  /** Of the owner's decisions, the planner makes three: what concerns the design, the repository's facts and the
      hypothesis. */
  lemma OwnerIsAsked(c: Option<Classification>)
    ensures OwnerDecision(c) && !AsksOwner(c) <==>
              c in {Some(DesignConflict), Some(RepositoryFactsConflict), Some(RepeatedFailureInvalidatesHypothesis)}
    ensures AsksOwner(c) ==> OwnerDecision(c)
  {
  }

  // ---------------------------------------------------------------- legal traces

  /** An attempt and the number of replans before it. */
  datatype Entry = Entry(attempt: Attempt, epoch: nat)

  function Attempts(t: seq<Entry>): (h: seq<Attempt>)
    ensures |h| == |t| && forall i | 0 <= i < |t| :: h[i] == t[i].attempt
  {
    seq(|t|, i requires 0 <= i < |t| => t[i].attempt)
  }

  function LastEpoch(t: seq<Entry>): nat {
    if t == [] then 0 else t[|t| - 1].epoch
  }

  /** When a role may be run next: the first attempt is fast; after a failure within the change contract the
      repair table grants a role under the budgets in force, or a replan restarts the fast role. */
  predicate MayStart(h: seq<Attempt>, before: nat, role: Role, epoch: nat, budgets: nat -> Budgets, maxReplans: nat) {
    if h == [] then role == ImplementerFast && epoch == 0
    else
      var last := h[|h| - 1];
      && last.diff == Some(Pass) && !Passed(last)
      && if epoch == before then MayRun(role, h, budgets(epoch))
         else
           && epoch == before + 1 <= maxReplans && role == ImplementerFast
           && OwnerDecision(last.classification) && !AsksOwner(last.classification)
  }

  ghost predicate LegalTrace(t: seq<Entry>, budgets: nat -> Budgets, maxReplans: nat) {
    forall i | 0 <= i < |t| ::
      && t[i].attempt.role.Some?
      && MayStart(Attempts(t[..i]), LastEpoch(t[..i]), t[i].attempt.role.value, t[i].epoch, budgets, maxReplans)
  }

  lemma LegalTraceExtends(t: seq<Entry>, e: Entry, budgets: nat -> Budgets, maxReplans: nat)
    requires LegalTrace(t, budgets, maxReplans) && e.attempt.role.Some?
    requires MayStart(Attempts(t), LastEpoch(t), e.attempt.role.value, e.epoch, budgets, maxReplans)
    ensures LegalTrace(t + [e], budgets, maxReplans)
  {
    var u := t + [e];
    forall i | 0 <= i < |u|
      ensures u[i].attempt.role.Some?
      ensures MayStart(Attempts(u[..i]), LastEpoch(u[..i]), u[i].attempt.role.value, u[i].epoch, budgets, maxReplans)
    {
      assert u[..i] == t[..i];
      assert t[..|t|] == t;
    }
  }

  lemma LegalTracePrefix(t: seq<Entry>, n: nat, budgets: nat -> Budgets, maxReplans: nat)
    requires LegalTrace(t, budgets, maxReplans) && n <= |t|
    ensures LegalTrace(t[..n], budgets, maxReplans)
  {
    forall i | 0 <= i < n ensures t[..n][..i] == t[..i] {
    }
  }

  // ---------------------------------------------------------------- bounds

  /** The largest fast budget among the brief and its first k replanned versions. */
  function LargestFast(budgets: nat -> Budgets, k: nat): (f: int)
    ensures forall j | 0 <= j <= k :: budgets(j).maxFast <= f
    ensures exists j | 0 <= j <= k :: budgets(j).maxFast == f
  {
    if k == 0 then budgets(0).maxFast
    else
      var f := LargestFast(budgets, k - 1);
      if budgets(k).maxFast > f then budgets(k).maxFast else f
  }

  function LargestRecovery(budgets: nat -> Budgets, k: nat): (r: int)
    ensures forall j | 0 <= j <= k :: budgets(j).maxRecovery <= r
    ensures exists j | 0 <= j <= k :: budgets(j).maxRecovery == r
  {
    if k == 0 then budgets(0).maxRecovery
    else
      var r := LargestRecovery(budgets, k - 1);
      if budgets(k).maxRecovery > r then budgets(k).maxRecovery else r
  }

  function FastOf(t: seq<Entry>): nat {
    CountRole(Attempts(t), ImplementerFast)
  }

  function RecoveryOf(t: seq<Entry>): nat {
    CountRole(Attempts(t), ImplementerRecovery)
  }

  lemma CountsExtend(t: seq<Entry>, e: Entry)
    ensures FastOf(t + [e]) == FastOf(t) + if e.attempt.role == Some(ImplementerFast) then 1 else 0
    ensures RecoveryOf(t + [e]) == RecoveryOf(t) + if e.attempt.role == Some(ImplementerRecovery) then 1 else 0
  {
    var h := Attempts(t + [e]);
    assert h[..|t|] == Attempts(t);
  }

  /** Bounds on every budget the run can come under. */
  predicate Within(budgets: nat -> Budgets, maxReplans: nat, f: int, r: int) {
    forall j | 0 <= j <= maxReplans :: budgets(j).maxFast <= f && budgets(j).maxRecovery <= r
  }

  lemma StartBounds(h: seq<Attempt>, before: nat, role: Role, epoch: nat, budgets: nat -> Budgets, maxReplans: nat,
                    f: int, r: int)
    requires MayStart(h, before, role, epoch, budgets, maxReplans) && Within(budgets, maxReplans, f, r)
    requires before <= maxReplans && f >= 1 && (h == [] ==> before == 0)
    ensures (role == ImplementerFast || role == ImplementerRecovery) && before <= epoch <= maxReplans
    ensures role == ImplementerFast ==> CountRole(h, ImplementerFast) < f || epoch == before + 1
    ensures role == ImplementerRecovery ==> epoch == before && CountRole(h, ImplementerRecovery) < r
    ensures epoch <= before + 1
  {
  }

  lemma LegalLast(t: seq<Entry>, budgets: nat -> Budgets, maxReplans: nat)
    requires LegalTrace(t, budgets, maxReplans) && t != []
    ensures var n := |t| - 1;
            t[n].attempt.role.Some? &&
            MayStart(Attempts(t[..n]), LastEpoch(t[..n]), t[n].attempt.role.value, t[n].epoch, budgets, maxReplans)
  {
  }

  lemma AttemptsCount(t: seq<Entry>)
    ensures |Attempts(t)| == |t|
    ensures t == [] ==> FastOf(t) == 0 && RecoveryOf(t) == 0
  {
  }

  lemma {:induction false} BoundedTrace(t: seq<Entry>, budgets: nat -> Budgets, maxReplans: nat, f: int, r: int)
    requires LegalTrace(t, budgets, maxReplans) && Within(budgets, maxReplans, f, r) && f >= 1 && r >= 0
    ensures |t| == FastOf(t) + RecoveryOf(t) && LastEpoch(t) <= maxReplans
    ensures FastOf(t) <= f + LastEpoch(t) && RecoveryOf(t) <= r
  {
    hide LegalTrace, Within, CountRole, MayStart, Attempts;
    AttemptsCount(t);
    if t != [] {
      LegalLast(t, budgets, maxReplans);
      AttemptsCount(t[..|t| - 1]);
      var n := |t| - 1;
      var init, e := t[..n], t[n];
      LegalTracePrefix(t, n, budgets, maxReplans);
      BoundedTrace(init, budgets, maxReplans, f, r);
      CountsExtend(init, e);
      assert t == init + [e];
      StartBounds(Attempts(init), LastEpoch(init), e.attempt.role.value, e.epoch, budgets, maxReplans, f, r);
    }
  }

  /** Every replan buys at most one fast attempt beyond the largest fast budget; none buys recovery attempts. */
  lemma TraceBounds(t: seq<Entry>, budgets: nat -> Budgets, maxReplans: nat)
    requires LegalTrace(t, budgets, maxReplans) && ValidBudgets(budgets(0))
    ensures |t| == FastOf(t) + RecoveryOf(t) && LastEpoch(t) <= maxReplans
    ensures FastOf(t) <= LargestFast(budgets, maxReplans) + LastEpoch(t)
    ensures RecoveryOf(t) <= LargestRecovery(budgets, maxReplans)
  {
    var f, r := LargestFast(budgets, maxReplans), LargestRecovery(budgets, maxReplans);
    assert budgets(0).maxFast <= f && budgets(0).maxRecovery <= r;
    BoundedTrace(t, budgets, maxReplans, f, r);
  }

  // ---------------------------------------------------------------- the bound is met

  /** The i-th attempt of the longest fast run: failures that differ from one to the next, until the budget is one
      attempt short, and then a design conflict before each replan. */
  function WorstEntry(fast: nat, replans: nat, i: nat): Entry
    requires fast >= 1 && i < fast + replans
  {
    var conflict := fast - 1 <= i < fast + replans - 1;
    Entry(Attempt(Some(ImplementerFast), Some(Repair.Fail), Some(Pass), if conflict then Some(DesignConflict) else None,
                  Some(if i % 2 == 0 then "even" else "odd")),
          if i < fast then 0 else i - fast + 1)
  }

  function Worst(fast: nat, replans: nat, n: nat): (t: seq<Entry>)
    requires fast >= 1 && n <= fast + replans
    ensures |t| == n && forall i | 0 <= i < n :: t[i] == WorstEntry(fast, replans, i)
  {
    seq(n, i requires 0 <= i < n => WorstEntry(fast, replans, i))
  }

  lemma WorstMayStart(fast: nat, replans: nat, i: nat)
    requires fast >= 1 && i < fast + replans && FastOf(Worst(fast, replans, i)) == i
    ensures MayStart(Attempts(Worst(fast, replans, i)), LastEpoch(Worst(fast, replans, i)), ImplementerFast,
                     WorstEntry(fast, replans, i).epoch, _ => Budgets(fast, 0), replans)
  {
    if i > 0 {
      var h := Attempts(Worst(fast, replans, i));
      assert h[|h| - 1] == WorstEntry(fast, replans, i - 1).attempt;
      if i >= 2 {
        assert h[|h| - 2] == WorstEntry(fast, replans, i - 2).attempt;
        assert "even"[0] != "odd"[0];
      }
    }
  }

  lemma NoFast()
    ensures FastOf([]) == 0
  {
  }

  /** For every fast budget and every number of replans there is a legal trace that takes exactly as many fast
      attempts as TraceBounds allows. */
  lemma {:induction false} BoundIsMet(fast: nat, replans: nat, n: nat)
    requires fast >= 1 && n <= fast + replans
    ensures LegalTrace(Worst(fast, replans, n), _ => Budgets(fast, 0), replans)
    ensures FastOf(Worst(fast, replans, n)) == n
  {
    NoFast();
    hide MayRun, CountRole, MayStart;
    if n > 0 {
      BoundIsMet(fast, replans, n - 1);
      var init, e := Worst(fast, replans, n - 1), WorstEntry(fast, replans, n - 1);
      assert Worst(fast, replans, n) == init + [e];
      WorstMayStart(fast, replans, n - 1);
      LegalTraceExtends(init, e, _ => Budgets(fast, 0), replans);
      CountsExtend(init, e);
    }
  }

  // ---------------------------------------------------------------- one attempt's aftermath

  datatype Next = Finish | Go(role: Role) | Replan | Halt(failure: TaskFailure)

  predicate NoRoleMayRun(h: seq<Attempt>, b: Budgets) {
    !MayRun(ImplementerFast, h, b) && !MayRun(ImplementerRecovery, h, b)
  }

  /** The one outcome that fits a history. */
  predicate NextFits(next: Next, h: seq<Attempt>, b: Budgets, replans: nat, maxReplans: nat)
    requires h != []
  {
    var last := h[|h| - 1];
    var redesign := last.diff == Some(Pass) && !Passed(last) && OwnerDecision(last.classification);
    match next
    case Finish => Passed(last)
    case Go(role) => last.diff == Some(Pass) && !Passed(last) && MayRun(role, h, b)
    case Replan => redesign && replans < maxReplans && !AsksOwner(last.classification)
    case Halt(TaskContractViolation) => last.diff != Some(Pass)
    case Halt(ReplanBudgetExhausted) => redesign && replans >= maxReplans
    case Halt(TaskInputRequired) => redesign && replans < maxReplans && AsksOwner(last.classification)
    case Halt(BlockedIdenticalFailure) => MayContinue(h) && last.diff == Some(Pass) && NoRoleMayRun(h, b) && Stuck(h)
    case Halt(TaskVerificationFailed) => MayContinue(h) && last.diff == Some(Pass) && NoRoleMayRun(h, b) && !Stuck(h)
    case Halt(_) => false
  }

  /** No two outcomes fit the same history, so the outcome is settled by the history alone. */
  lemma OneNext(a: Next, c: Next, h: seq<Attempt>, b: Budgets, replans: nat, maxReplans: nat)
    requires h != [] && NextFits(a, h, b, replans, maxReplans) && NextFits(c, h, b, replans, maxReplans)
    ensures a == c
  {
  }

  method Judge(h: seq<Attempt>, b: Budgets, replans: nat, maxReplans: nat) returns (next: Next)
    requires h != [] && ValidBudgets(b)
    ensures NextFits(next, h, b, replans, maxReplans)
    ensures next.Halt? ==> next.failure != GoalCycleBudgetExhausted
  {
    var last := h[|h| - 1];
    if last.diff != Some(Pass) { return Halt(TaskContractViolation); }
    var decision := Decide(h, b);
    match decision.action {
      case Review => return Finish;
      case RunFast => return Go(ImplementerFast);
      case RunRecovery => return Go(ImplementerRecovery);
      case ReturnToPlanner =>
        if replans >= maxReplans { return Halt(ReplanBudgetExhausted); }
        if AsksOwner(last.classification) { return Halt(TaskInputRequired); }
        return Replan;
      case Blocked =>
        return Halt(if decision.rule == R31IdenticalFailureBlock then BlockedIdenticalFailure
                    else TaskVerificationFailed);
    }
  }

  predicate DeclaresBaseline(task: TaskBrief) {
    task.proofPlan.Some? && task.proofPlan.value.baseline > 0
  }

  predicate DeclaresRed(task: TaskBrief) {
    task.proofPlan.Some? && task.proofPlan.value.red > 0
  }

  /** The proofs a task declares before its implementation met their expectations, or a direct bootstrap, which leaves
      no room for any, declared none. */
  predicate MayBegin(task: TaskBrief, world: TaskWorld) {
    if world.preinvoked then !DeclaresBaseline(task) && !DeclaresRed(task)
    else (DeclaresBaseline(task) ==> world.baselineMet) && (DeclaresRed(task) ==> world.redMet)
  }

  /** The one reason a task does not begin; the baseline comes before the red checks. */
  predicate KeepsFromBeginning(f: TaskFailure, task: TaskBrief, world: TaskWorld) {
    match f
    case PreimplementationProofUnavailable => world.preinvoked && (DeclaresBaseline(task) || DeclaresRed(task))
    case ProofBaselineFailed => !world.preinvoked && DeclaresBaseline(task) && !world.baselineMet
    case ProofRedCheckNotRed =>
      !world.preinvoked && (DeclaresBaseline(task) ==> world.baselineMet) && DeclaresRed(task) && !world.redMet
    case _ => false
  }

  method Preimplementation(task: TaskBrief, world: TaskWorld) returns (failure: Option<TaskFailure>)
    ensures failure.None? <==> MayBegin(task, world)
    ensures failure.Some? ==> KeepsFromBeginning(failure.value, task, world)
  {
    if task.proofPlan.None? { return None; }
    var declared := task.proofPlan.value;
    if world.preinvoked {
      if declared.baseline > 0 || declared.red > 0 { return Some(PreimplementationProofUnavailable); }
      return None;
    }
    if declared.baseline > 0 && !world.baselineMet { return Some(ProofBaselineFailed); }
    if declared.red > 0 && !world.redMet { return Some(ProofRedCheckNotRed); }
    return None;
  }

  // ---------------------------------------------------------------- the loop

  /** The role's invocation comes to its end; a direct bootstrap has already made the first one. */
  predicate Invoked(n: nat, world: TaskWorld) {
    (n == 0 && world.preinvoked) || world.observe(n + 1).invocation == Completed
  }

  /** Each attempt is what the world showed at its turn, after an invocation that came to its end, by the brief of a
      replan that could be loaded. */
  ghost predicate Observed(t: seq<Entry>, world: TaskWorld) {
    forall i | 0 <= i < |t| ::
      && t[i].attempt.role.Some? && t[i].attempt == AttemptOf(t[i].attempt.role.value, world.observe(i + 1))
      && Invoked(i, world)
      && (t[i].epoch > 0 ==> Loads(world.replan(t[i].epoch)))
  }

  /** The role whose turn it is can run: the trace so far grants it. */
  ghost predicate Ready(t: seq<Entry>, role: Role, replans: nat, budgets: nat -> Budgets, maxReplans: nat) {
    && LegalTrace(t, budgets, maxReplans)
    && MayStart(Attempts(t), LastEpoch(t), role, replans, budgets, maxReplans)
  }

  /** What a task runs against; room is how many goal cycles are left to it. */
  datatype Frame = Frame(original: TaskBrief, world: TaskWorld, maxReplans: nat, goalMode: bool, room: int)

  function BudgetsIn(f: Frame): nat -> Budgets {
    BudgetsAt(f.original, f.world.replan)
  }

  /** After this trace there would be another attempt. */
  ghost predicate Continues(t: seq<Entry>, f: Frame) {
    t != [] ==> exists next ::
      && NextFits(next, Attempts(t), BudgetsIn(f)(LastEpoch(t)), LastEpoch(t), f.maxReplans)
      && (next.Go? || (next == Replan && Loads(f.world.replan(LastEpoch(t) + 1))))
  }

  predicate OutOfCycles(t: seq<Entry>, f: Frame) {
    f.goalMode && |t| >= f.room
  }

  /** Why a task that began ended: its last attempt settles it, or the next one could not be made. */
  ghost predicate EndsFor(r: Result<(), TaskFailure>, t: seq<Entry>, f: Frame) {
    match r
    case Ok(nothing) => nothing == () && t != [] && Passed(t[|t| - 1].attempt)
    case Err(PreimplementationProofUnavailable) => false
    case Err(ProofBaselineFailed) => false
    case Err(ProofRedCheckNotRed) => false
    case Err(GoalCycleBudgetExhausted) => Continues(t, f) && OutOfCycles(t, f)
    case Err(RoleRefused(v)) =>
      && Continues(t, f) && !OutOfCycles(t, f) && !(t == [] && f.world.preinvoked)
      && f.world.observe(|t| + 1).invocation == Refused(v) && (v == BlockedVerdict ==> t == [])
    case Err(RecoveryBlockedAfterFailure) =>
      Continues(t, f) && !OutOfCycles(t, f) && t != [] && f.world.observe(|t| + 1).invocation == Refused(BlockedVerdict)
    case Err(ReplanTaskInvalid) =>
      t != [] && NextFits(Replan, Attempts(t), BudgetsIn(f)(LastEpoch(t)), LastEpoch(t), f.maxReplans)
      && !Loads(f.world.replan(LastEpoch(t) + 1))
    case Err(failure) => t != [] && NextFits(Halt(failure), Attempts(t), BudgetsIn(f)(LastEpoch(t)), LastEpoch(t), f.maxReplans)
  }

  /** What a finished task guarantees, whatever the world did: it did not begin for the one reason that kept it, or its
      trace is legal, observed and within the goal cycles, and ended for the one reason that ends it. */
  ghost predicate TaskTrace(r: Result<(), TaskFailure>, t: seq<Entry>, f: Frame) {
    && LegalTrace(t, BudgetsIn(f), f.maxReplans) && Observed(t, f.world)
    && (f.goalMode && t != [] ==> |t| <= f.room)
    && if MayBegin(f.original, f.world) then EndsFor(r, t, f)
       else t == [] && r.Err? && KeepsFromBeginning(r.error, f.original, f.world)
  }

  lemma ReadyLeavesRoom(t: seq<Entry>, role: Role, replans: nat, budgets: nat -> Budgets, maxReplans: nat)
    requires Ready(t, role, replans, budgets, maxReplans) && ValidBudgets(budgets(0))
    ensures |t| < LargestFast(budgets, maxReplans) + maxReplans + LargestRecovery(budgets, maxReplans)
    ensures role == ImplementerFast || role == ImplementerRecovery
    ensures LastEpoch(t) <= replans <= maxReplans
  {
    var e := Entry(Attempt(Some(role), None, None, None, None), replans);
    LegalTraceExtends(t, e, budgets, maxReplans);
    TraceBounds(t, budgets, maxReplans);
    TraceBounds(t + [e], budgets, maxReplans);
  }

  lemma NextIsReady(t: seq<Entry>, role: Role, budgets: nat -> Budgets, maxReplans: nat)
    requires t != [] && LegalTrace(t, budgets, maxReplans)
    requires NextFits(Go(role), Attempts(t), budgets(LastEpoch(t)), LastEpoch(t), maxReplans)
    ensures Ready(t, role, LastEpoch(t), budgets, maxReplans) && !Passed(t[|t| - 1].attempt)
  {
  }

  lemma ReplanIsReady(t: seq<Entry>, budgets: nat -> Budgets, maxReplans: nat)
    requires t != [] && LegalTrace(t, budgets, maxReplans)
    requires NextFits(Replan, Attempts(t), budgets(LastEpoch(t)), LastEpoch(t), maxReplans)
    ensures Ready(t, ImplementerFast, LastEpoch(t) + 1, budgets, maxReplans) && !Passed(t[|t| - 1].attempt)
  {
  }

  /** Recovery would be activated for the next attempt. */
  ghost predicate GrantsRecovery(t: seq<Entry>, f: Frame) {
    t != [] && NextFits(Go(ImplementerRecovery), Attempts(t), BudgetsIn(f)(LastEpoch(t)), LastEpoch(t), f.maxReplans)
  }

  function Activation(recovery: bool): seq<Step> {
    if recovery then [RecoveryActivated] else []
  }

  function Prompting(skip: bool, runName: string): seq<Step> {
    if skip then [] else [PromptApplied(runName)]
  }

  /** The steps of these attempts: recovery is activated before each recovery attempt, and every attempt's prompt is
      compiled but that of a direct bootstrap. */
  function StepsOf(t: seq<Entry>, preinvoked: bool, runName: string): (steps: seq<Step>)
    ensures forall step | step in steps :: !step.Verified?
    ensures RecoveryActivated in steps <==> exists e | e in t :: e.attempt.role == Some(ImplementerRecovery)
  {
    if t == [] then []
    else
      var n := |t| - 1;
      var init := t[..n];
      assert t == init + [t[n]];
      StepsOf(init, preinvoked, runName) + Activation(t[n].attempt.role == Some(ImplementerRecovery))
      + Prompting(n == 0 && preinvoked, runName)
  }

  predicate Interrupted(r: Result<(), TaskFailure>) {
    r.Err? && (r.error.RoleRefused? || r.error == RecoveryBlockedAfterFailure)
  }

  /** The steps towards an attempt that could not be made. */
  ghost function LastSteps(r: Result<(), TaskFailure>, t: seq<Entry>, f: Frame, runName: string): seq<Step> {
    Activation(GrantsRecovery(t, f)) + if Interrupted(r) then [PromptApplied(runName)] else []
  }

  /** A task that was done went through the steps of its attempts and no more. */
  lemma DoneSteps(t: seq<Entry>, f: Frame, runName: string)
    requires EndsFor(Ok(()), t, f)
    ensures LastSteps(Ok(()), t, f, runName) == []
  {
  }

  /** Starts a goal cycle, if the goal budget has one left. */
  method BeginCycle(o: Orchestrator) returns (ok: bool)
    modifies o`goalCycles
    ensures ok <==> o.goalMode ==> old(o.goalCycles) < o.maxGoalCycles
    ensures o.goalCycles == old(o.goalCycles) + if o.goalMode then 1 else 0
  {
    if !o.goalMode { return true; }
    o.goalCycles := o.goalCycles + 1;
    return o.goalCycles <= o.maxGoalCycles;
  }

  /** Compiles the prompt contract and runs the role; a direct bootstrap has already run the first one. */
  method InvokeRole(o: Orchestrator, world: TaskWorld, attempts: seq<Attempt>, skip: bool, runName: string)
    returns (failure: Option<TaskFailure>)
    requires o.Valid()
    modifies o`steps, o`owned, o.graph, o.owned, o.dir
    ensures o.Valid() && fresh(o.owned - old(o.owned)) && (old(o.Synced()) ==> o.Wrote(old(o.dir.files)))
    ensures o.steps == old(o.steps) + Prompting(skip, runName)
    ensures failure == if skip || world.observe(|attempts| + 1).invocation == Completed then None
                       else
                         var v := world.observe(|attempts| + 1).invocation.verdict;
                         Some(if v == BlockedVerdict && attempts != [] then RecoveryBlockedAfterFailure else RoleRefused(v))
  {
    if skip { return None; }
    o.RecordPromptContractProof(runName);
    match world.observe(|attempts| + 1).invocation {
      case Completed => return None;
      case Refused(v) =>
        return Some(if v == BlockedVerdict && attempts != [] then RecoveryBlockedAfterFailure else RoleRefused(v));
    }
  }

  /** The loop's variables. */
  datatype Loop = Loop(task: TaskBrief, attempts: seq<Attempt>, role: Role, replans: nat)

  ghost predicate Tracked(t: seq<Entry>, l: Loop, original: TaskBrief, world: TaskWorld) {
    && l.attempts == Attempts(t) && Observed(t, world)
    && BudgetsOf(l.task) == BudgetsAt(original, world.replan)(l.replans) && ValidBudgets(BudgetsOf(l.task))
    && (l.replans > 0 ==> Loads(world.replan(l.replans)))
  }

  /** At the head of the loop: the role is granted. */
  ghost predicate AtHead(t: seq<Entry>, l: Loop, original: TaskBrief, world: TaskWorld, maxReplans: nat) {
    && Tracked(t, l, original, world)
    && Ready(t, l.role, l.replans, BudgetsAt(original, world.replan), maxReplans)
    && (t != [] ==> !Passed(t[|t| - 1].attempt))
  }

  /** After the attempt is recorded. */
  ghost predicate AtVerdict(t: seq<Entry>, l: Loop, original: TaskBrief, world: TaskWorld, maxReplans: nat) {
    && t != [] && Tracked(t, l, original, world)
    && LegalTrace(t, BudgetsAt(original, world.replan), maxReplans) && l.replans == LastEpoch(t)
  }

  lemma NoRecovery()
    ensures RecoveryOf([]) == 0
  {
  }

  lemma HeadAtStart(original: TaskBrief, world: TaskWorld, maxReplans: nat)
    requires ValidBudgets(BudgetsOf(original))
    ensures AtHead([], Loop(original, [], ImplementerFast, 0), original, world, maxReplans)
  {
  }

  /** The loop after one more attempt. */
  function Tried(l: Loop, world: TaskWorld): Loop {
    l.(attempts := l.attempts + [AttemptOf(l.role, world.observe(|l.attempts| + 1))])
  }

  ghost function TriedTrace(t: seq<Entry>, l: Loop, world: TaskWorld): seq<Entry> {
    t + [Entry(AttemptOf(l.role, world.observe(|l.attempts| + 1)), l.replans)]
  }

  lemma ObservedExtends(t: seq<Entry>, e: Entry, world: TaskWorld)
    requires Observed(t, world) && Invoked(|t|, world) && (e.epoch > 0 ==> Loads(world.replan(e.epoch)))
    requires e.attempt.role.Some? && e.attempt == AttemptOf(e.attempt.role.value, world.observe(|t| + 1))
    ensures Observed(t + [e], world)
  {
    hide AttemptOf, Invoked, Loads;
  }

  lemma HeadToVerdict(t: seq<Entry>, l: Loop, original: TaskBrief, world: TaskWorld, maxReplans: nat)
    requires AtHead(t, l, original, world, maxReplans) && Invoked(|t|, world)
    ensures AtVerdict(TriedTrace(t, l, world), Tried(l, world), original, world, maxReplans)
    ensures RecoveryOf(TriedTrace(t, l, world)) > 0 <==> RecoveryOf(t) > 0 || l.role == ImplementerRecovery
    ensures |TriedTrace(t, l, world)| == |t| + 1
  {
    hide MayStart, CountRole, ValidBudgets, Passed, Invoked, Loads, LegalTrace, Observed, BudgetsAt, RecoveryOf, FastOf;
    var e := Entry(AttemptOf(l.role, world.observe(|l.attempts| + 1)), l.replans);
    ObservedExtends(t, e, world);
    LegalTraceExtends(t, e, BudgetsAt(original, world.replan), maxReplans);
    CountsExtend(t, e);
    assert Attempts(t + [e]) == Attempts(t) + [e.attempt];
  }

  lemma HeadLeavesRoom(t: seq<Entry>, l: Loop, original: TaskBrief, world: TaskWorld, maxReplans: nat)
    requires AtHead(t, l, original, world, maxReplans) && ValidBudgets(BudgetsOf(original))
    ensures |t| < Ceiling(BudgetsAt(original, world.replan), maxReplans)
  {
    ReadyLeavesRoom(t, l.role, l.replans, BudgetsAt(original, world.replan), maxReplans);
  }

  /** The most attempts a task can take. */
  ghost function Ceiling(budgets: nat -> Budgets, maxReplans: nat): int {
    LargestFast(budgets, maxReplans) + maxReplans + LargestRecovery(budgets, maxReplans)
  }

  lemma VerdictToHead(t: seq<Entry>, l: Loop, role: Role, original: TaskBrief, world: TaskWorld, maxReplans: nat)
    requires AtVerdict(t, l, original, world, maxReplans)
    requires NextFits(Go(role), l.attempts, BudgetsOf(l.task), l.replans, maxReplans)
    ensures AtHead(t, l.(role := role), original, world, maxReplans)
  {
    NextIsReady(t, role, BudgetsAt(original, world.replan), maxReplans);
  }

  lemma ReplanToHead(t: seq<Entry>, l: Loop, original: TaskBrief, world: TaskWorld, maxReplans: nat)
    requires AtVerdict(t, l, original, world, maxReplans) && Loads(world.replan(l.replans + 1))
    requires NextFits(Replan, l.attempts, BudgetsOf(l.task), l.replans, maxReplans)
    ensures AtHead(t, Loop(world.replan(l.replans + 1).value, l.attempts, ImplementerFast, l.replans + 1),
                   original, world, maxReplans)
  {
    ReplanIsReady(t, BudgetsAt(original, world.replan), maxReplans);
  }

  lemma VerdictEnds(t: seq<Entry>, l: Loop, next: Next, f: Frame)
    requires AtVerdict(t, l, f.original, f.world, f.maxReplans)
    requires NextFits(next, l.attempts, BudgetsOf(l.task), l.replans, f.maxReplans)
    ensures next == Finish ==> EndsFor(Ok(()), t, f)
    ensures next.Halt? ==> EndsFor(Err(next.failure), t, f) && !Interrupted(Err(next.failure))
    ensures next == Replan && !Loads(f.world.replan(l.replans + 1)) ==> EndsFor(Err(ReplanTaskInvalid), t, f)
  {
  }

  lemma HeadContinues(t: seq<Entry>, l: Loop, f: Frame)
    requires AtHead(t, l, f.original, f.world, f.maxReplans)
    ensures Continues(t, f)
    ensures l.role == ImplementerRecovery <==> GrantsRecovery(t, f)
  {
    if t != [] {
      var next := if l.replans == LastEpoch(t) then Go(l.role) else Replan;
      assert NextFits(next, Attempts(t), BudgetsIn(f)(LastEpoch(t)), LastEpoch(t), f.maxReplans);
    }
  }

  lemma HeadEnds(t: seq<Entry>, l: Loop, f: Frame)
    requires AtHead(t, l, f.original, f.world, f.maxReplans)
    ensures OutOfCycles(t, f) ==> EndsFor(Err(GoalCycleBudgetExhausted), t, f)
    ensures !OutOfCycles(t, f) && !Invoked(|t|, f.world) ==>
              EndsFor(Err(RefusalAfter(t, f.world)), t, f)
    ensures |l.attempts| == |t| && LegalTrace(t, BudgetsIn(f), f.maxReplans) && Observed(t, f.world)
  {
    HeadContinues(t, l, f);
    hide Continues, NextFits;
  }

  /** What a refused invocation is reported as. */
  function RefusalAfter(t: seq<Entry>, world: TaskWorld): TaskFailure
    requires world.observe(|t| + 1).invocation.Refused?
  {
    var v := world.observe(|t| + 1).invocation.verdict;
    if v == BlockedVerdict && t != [] then RecoveryBlockedAfterFailure else RoleRefused(v)
  }

  lemma VerdictHolds(t: seq<Entry>, l: Loop, original: TaskBrief, world: TaskWorld, maxReplans: nat)
    requires AtVerdict(t, l, original, world, maxReplans)
    ensures l.attempts != [] && ValidBudgets(BudgetsOf(l.task))
    ensures LegalTrace(t, BudgetsAt(original, world.replan), maxReplans) && Observed(t, world)
  {
  }

  /** One turn: a goal cycle, the role's invocation, and the recorded attempt. */
  method Try(o: Orchestrator, l: Loop, f: Frame, skip: bool, runName: string, ghost t: seq<Entry>)
    returns (r: Result<Loop, TaskFailure>)
    requires o.Valid() && AtHead(t, l, f.original, f.world, f.maxReplans) && skip == (t == [] && f.world.preinvoked)
    requires o.goalMode == f.goalMode && (f.goalMode ==> o.maxGoalCycles - o.goalCycles == f.room - |t|)
    modifies o`steps, o`owned, o`goalCycles, o.graph, o.owned, o.dir
    ensures o.Valid() && fresh(o.owned - old(o.owned)) && (old(o.Synced()) ==> o.Wrote(old(o.dir.files)))
    ensures r.Ok? ==> o.steps == old(o.steps) + Prompting(skip, runName)
    ensures r.Err? ==> o.steps == old(o.steps) + if Interrupted(Err(r.error)) then [PromptApplied(runName)] else []
    ensures o.goalCycles == old(o.goalCycles) + if o.goalMode then 1 else 0
    ensures r.Ok? <==> !OutOfCycles(t, f) && Invoked(|t|, f.world)
    ensures r.Ok? ==> r.value == Tried(l, f.world)
    ensures r.Err? ==> EndsFor(Err(r.error), t, f)
  {
    hide AfterAll, LegalTrace, MayStart, CountRole, Ready, Tracked, EndsFor;
    HeadEnds(t, l, f);
    var ok := BeginCycle(o);
    if !ok { return Err(GoalCycleBudgetExhausted); }
    var refused := InvokeRole(o, f.world, l.attempts, skip, runName);
    if refused.Some? { return Err(refused.value); }
    return Ok(Tried(l, f.world));
  }

  /** Recovery is activated before its first attempt and before every later one. */
  method Grant(o: Orchestrator, role: Role)
    requires o.Valid()
    modifies o`steps, o`strategy, o`owned, o.graph, o.owned, o.dir
    ensures o.Valid() && fresh(o.owned - old(o.owned)) && (old(o.Synced()) ==> o.Wrote(old(o.dir.files)))
    ensures o.steps == old(o.steps) + Activation(role == ImplementerRecovery)
  {
    if role == ImplementerRecovery { o.ActivateRecoveryProtocol(); }
  }

  datatype Turn = Done | Again(l: Loop) | Over(failure: TaskFailure)

  /** What the verdict on the attempt leads to: the end, or the next turn with its role granted. */
  method Proceed(o: Orchestrator, l: Loop, f: Frame, ghost t: seq<Entry>) returns (v: Turn)
    requires o.Valid() && AtVerdict(t, l, f.original, f.world, f.maxReplans)
    requires l.attempts != [] && ValidBudgets(BudgetsOf(l.task))
    modifies o`steps, o`strategy, o`owned, o.graph, o.owned, o.dir
    ensures o.Valid() && fresh(o.owned - old(o.owned)) && (old(o.Synced()) ==> o.Wrote(old(o.dir.files)))
    ensures v.Again? ==> AtHead(t, v.l, f.original, f.world, f.maxReplans)
    ensures o.steps == old(o.steps) + Activation(v.Again? && v.l.role == ImplementerRecovery)
    ensures !v.Again? ==> !GrantsRecovery(t, f) && (v.Over? ==> !Interrupted(Err(v.failure)))
    ensures v.Done? ==> EndsFor(Ok(()), t, f)
    ensures v.Over? ==> EndsFor(Err(v.failure), t, f)
  {
    hide AfterAll, LegalTrace, MayStart, CountRole, Ready, AtHead, NextFits, EndsFor, Observed;
    var next := Judge(l.attempts, BudgetsOf(l.task), l.replans, f.maxReplans);
    VerdictEnds(t, l, next, f);
    if next != Go(ImplementerRecovery) { OnlyNext(next, Go(ImplementerRecovery), l.attempts, BudgetsOf(l.task), l.replans, f.maxReplans); }
    match next {
      case Finish => return Done;
      case Halt(failure) => return Over(failure);
      case Go(role) =>
        VerdictToHead(t, l, role, f.original, f.world, f.maxReplans);
        Grant(o, role);
        return Again(l.(role := role));
      case Replan =>
        var answer := f.world.replan(l.replans + 1);
        if !Loads(answer) { return Over(ReplanTaskInvalid); }
        ReplanToHead(t, l, f.original, f.world, f.maxReplans);
        return Again(Loop(answer.value, l.attempts, ImplementerFast, l.replans + 1));
    }
  }

  lemma OnlyNext(a: Next, c: Next, h: seq<Attempt>, b: Budgets, replans: nat, maxReplans: nat)
    requires h != [] && NextFits(a, h, b, replans, maxReplans) && a != c
    ensures !NextFits(c, h, b, replans, maxReplans)
  {
    if NextFits(c, h, b, replans, maxReplans) { OneNext(a, c, h, b, replans, maxReplans); }
  }

  /** The steps taken by the time the loop is at its head again. */
  ghost predicate StepsAtHead(before: seq<Step>, steps: seq<Step>, t: seq<Entry>, l: Loop, f: Frame, runName: string) {
    steps == before + StepsOf(t, f.world.preinvoked, runName) + Activation(l.role == ImplementerRecovery)
  }

  ghost predicate StepsAtEnd(before: seq<Step>, steps: seq<Step>, r: Result<(), TaskFailure>, t: seq<Entry>, f: Frame,
                             runName: string)
  {
    steps == before + StepsOf(t, f.world.preinvoked, runName) + LastSteps(r, t, f, runName)
  }

  lemma StepsTried(before: seq<Step>, steps: seq<Step>, t: seq<Entry>, l: Loop, f: Frame, runName: string)
    requires StepsAtHead(before, steps, t, l, f, runName)
    ensures steps + Prompting(t == [] && f.world.preinvoked, runName)
            == before + StepsOf(TriedTrace(t, l, f.world), f.world.preinvoked, runName)
  {
    var u := TriedTrace(t, l, f.world);
    assert u[..|t|] == t;
  }

  lemma StepsRefused(before: seq<Step>, steps: seq<Step>, r: Result<(), TaskFailure>, t: seq<Entry>, l: Loop, f: Frame,
                     runName: string)
    requires StepsAtHead(before, steps, t, l, f, runName) && (l.role == ImplementerRecovery <==> GrantsRecovery(t, f))
    ensures StepsAtEnd(before, steps + if Interrupted(r) then [PromptApplied(runName)] else [], r, t, f, runName)
  {
    hide StepsOf, GrantsRecovery;
  }

  lemma StepsJudged(before: seq<Step>, steps: seq<Step>, r: Result<(), TaskFailure>, t: seq<Entry>, f: Frame, runName: string)
    requires steps == before + StepsOf(t, f.world.preinvoked, runName) && !GrantsRecovery(t, f) && !Interrupted(r)
    ensures StepsAtEnd(before, steps, r, t, f, runName)
  {
    hide StepsOf, GrantsRecovery;
  }

  /** One pass through the loop: an attempt, unless it cannot be made, and the verdict on it. */
  method TakeTurn(o: Orchestrator, l: Loop, f: Frame, skip: bool, runName: string, ghost t: seq<Entry>,
                  ghost before: seq<Step>)
    returns (turn: Turn, ghost after: seq<Entry>)
    requires o.Valid() && AtHead(t, l, f.original, f.world, f.maxReplans)
    requires StepsAtHead(before, o.steps, t, l, f, runName)
    requires skip == (t == [] && f.world.preinvoked) && MayBegin(f.original, f.world)
    requires o.goalMode == f.goalMode && (f.goalMode ==> o.maxGoalCycles - o.goalCycles == f.room - |t|)
    requires f.goalMode && t != [] ==> |t| <= f.room
    modifies o`steps, o`strategy, o`owned, o`goalCycles, o.graph, o.owned, o.dir
    ensures o.Valid() && fresh(o.owned - old(o.owned)) && (old(o.Synced()) ==> o.Wrote(old(o.dir.files)))
    ensures after == t || (|after| == |t| + 1 && (f.goalMode ==> |after| <= f.room))
    ensures turn.Over? || after != t
    ensures o.goalCycles == old(o.goalCycles) + if o.goalMode then 1 else 0
    ensures turn.Again? ==>
              && AtHead(after, turn.l, f.original, f.world, f.maxReplans)
              && StepsAtHead(before, o.steps, after, turn.l, f, runName)
    ensures turn.Done? ==> TaskTrace(Ok(()), after, f) && StepsAtEnd(before, o.steps, Ok(()), after, f, runName)
    ensures turn.Over? ==>
              TaskTrace(Err(turn.failure), after, f) && StepsAtEnd(before, o.steps, Err(turn.failure), after, f, runName)
  {
    hide AfterAll, LegalTrace, MayStart, CountRole, Ready, Tracked, NextFits, EndsFor, Observed, StepsOf, GrantsRecovery,
         AtHead, AtVerdict, BudgetsAt, ValidBudgets, Passed, Tried, TriedTrace, MayBegin, Invoked, Continues, Prompting,
         StepsAtEnd;
    HeadEnds(t, l, f);
    HeadContinues(t, l, f);
    StepsTried(before, o.steps, t, l, f, runName);
    var tried := Try(o, l, f, skip, runName, t);
    if tried.Err? {
      StepsRefused(before, old(o.steps), Err(tried.error), t, l, f, runName);
      return Over(tried.error), t;
    }
    HeadToVerdict(t, l, f.original, f.world, f.maxReplans);
    after := TriedTrace(t, l, f.world);
    VerdictHolds(after, tried.value, f.original, f.world, f.maxReplans);
    turn := Proceed(o, tried.value, f, after);
    match turn {
      case Done => StepsJudged(before, o.steps, Ok(()), after, f, runName);
      case Over(failure) => StepsJudged(before, o.steps, Err(failure), after, f, runName);
      case Again(_) =>
    }
  }

  method ExecuteTask(o: Orchestrator, original: TaskBrief, world: TaskWorld, runName: string)
    returns (r: Result<(), TaskFailure>, ghost t: seq<Entry>)
    requires o.Valid() && ValidBudgets(BudgetsOf(original))
    modifies o`steps, o`strategy, o`owned, o`goalCycles, o.graph, o.owned, o.dir
    ensures o.Valid() && fresh(o.owned - old(o.owned)) && (old(o.Synced()) ==> o.Wrote(old(o.dir.files)))
    ensures TaskTrace(r, t, Frame(original, world, o.maxReplans, o.goalMode, o.maxGoalCycles - old(o.goalCycles)))
    ensures o.steps == old(o.steps) + StepsOf(t, world.preinvoked, runName) + LastSteps(r, t,
                         Frame(original, world, o.maxReplans, o.goalMode, o.maxGoalCycles - old(o.goalCycles)), runName)
    ensures r.Ok? && o.goalMode ==> o.goalCycles == old(o.goalCycles) + |t|
    ensures !o.goalMode ==> o.goalCycles == old(o.goalCycles)
  {
    hide AfterAll, LegalTrace, MayStart, CountRole, Ready, Tracked, NextFits, EndsFor, Observed, StepsOf,
         AtHead, AtVerdict, BudgetsAt, ValidBudgets, Passed, Tried, TriedTrace, Ceiling, MayBegin, KeepsFromBeginning;
    var f := Frame(original, world, o.maxReplans, o.goalMode, o.maxGoalCycles - o.goalCycles);
    t := [];
    NoSteps(world.preinvoked, runName);
    var l := Loop(original, [], ImplementerFast, 0);
    HeadAtStart(original, world, o.maxReplans);
    HeadEnds(t, l, f);
    var failure := Preimplementation(original, world);
    if failure.Some? { return Err(failure.value), t; }
    var skip := world.preinvoked;
    while true
      invariant o.Valid() && fresh(o.owned - old(o.owned)) && (old(o.Synced()) ==> o.Wrote(old(o.dir.files)))
      invariant AtHead(t, l, original, world, o.maxReplans) && skip == (t == [] && world.preinvoked)
      invariant StepsAtHead(old(o.steps), o.steps, t, l, f, runName)
      invariant o.goalCycles == old(o.goalCycles) + if o.goalMode then |t| else 0
      invariant o.goalMode && t != [] ==> |t| <= f.room
      decreases Ceiling(BudgetsAt(original, world.replan), o.maxReplans) - |t|
    {
      HeadLeavesRoom(t, l, original, world, o.maxReplans);
      var turn;
      turn, t := TakeTurn(o, l, f, skip, runName, t, old(o.steps));
      skip := false;
      match turn {
        case Done => return Ok(()), t;
        case Over(failed) => return Err(failed), t;
        case Again(next) => l := next;
      }
    }
  }

  lemma NoSteps(preinvoked: bool, runName: string)
    ensures StepsOf([], preinvoked, runName) == []
  {
  }

  // ---------------------------------------------------------------- a task has one outcome

  lemma StartsAlike(h: seq<Attempt>, before: nat, a: Role, i: nat, c: Role, j: nat, budgets: nat -> Budgets, maxReplans: nat)
    requires MayStart(h, before, a, i, budgets, maxReplans) && MayStart(h, before, c, j, budgets, maxReplans)
    ensures a == c && i == j
  {
  }

  lemma LegalAt(t: seq<Entry>, i: nat, budgets: nat -> Budgets, maxReplans: nat)
    requires LegalTrace(t, budgets, maxReplans) && i < |t|
    ensures t[i].attempt.role.Some?
    ensures MayStart(Attempts(t[..i]), LastEpoch(t[..i]), t[i].attempt.role.value, t[i].epoch, budgets, maxReplans)
  {
  }

  /** Two legal traces of the same world agree as far as both go. */
  lemma {:induction false} TracesAgree(t: seq<Entry>, u: seq<Entry>, n: nat, f: Frame)
    requires LegalTrace(t, BudgetsIn(f), f.maxReplans) && LegalTrace(u, BudgetsIn(f), f.maxReplans)
    requires Observed(t, f.world) && Observed(u, f.world) && n <= |t| && n <= |u|
    ensures t[..n] == u[..n]
  {
    hide LegalTrace, MayStart;
    if n > 0 {
      TracesAgree(t, u, n - 1, f);
      LegalAt(t, n - 1, BudgetsIn(f), f.maxReplans);
      LegalAt(u, n - 1, BudgetsIn(f), f.maxReplans);
      StartsAlike(Attempts(t[..n - 1]), LastEpoch(t[..n - 1]), t[n - 1].attempt.role.value, t[n - 1].epoch,
                  u[n - 1].attempt.role.value, u[n - 1].epoch, BudgetsIn(f), f.maxReplans);
      assert t[n - 1] == u[n - 1];
      assert t[..n] == t[..n - 1] + [t[n - 1]] && u[..n] == u[..n - 1] + [u[n - 1]];
    }
  }

  /** A trace that goes on past this one shows that it did not end. */
  lemma GoesOn(t: seq<Entry>, u: seq<Entry>, f: Frame)
    requires LegalTrace(u, BudgetsIn(f), f.maxReplans) && Observed(u, f.world) && |t| < |u| && u[..|t|] == t
    ensures Continues(t, f) && Invoked(|t|, f.world)
    ensures t != [] ==> !Passed(t[|t| - 1].attempt)
  {
    var n := |t|;
    LegalAt(u, n, BudgetsIn(f), f.maxReplans);
    hide LegalTrace;
    if t != [] {
      var next := if u[n].epoch == LastEpoch(t) then Go(u[n].attempt.role.value) else Replan;
      assert NextFits(next, Attempts(t), BudgetsIn(f)(LastEpoch(t)), LastEpoch(t), f.maxReplans);
    }
  }

  lemma ContinuesOrEnds(r: Result<(), TaskFailure>, t: seq<Entry>, f: Frame)
    requires EndsFor(r, t, f) && Continues(t, f)
    ensures OutOfCycles(t, f) || !Invoked(|t|, f.world)
    ensures r == if OutOfCycles(t, f) then Err(GoalCycleBudgetExhausted) else Err(RefusalIn(t, f.world))
  {
    if t != [] {
      var next :|
        NextFits(next, Attempts(t), BudgetsIn(f)(LastEpoch(t)), LastEpoch(t), f.maxReplans)
        && (next.Go? || (next == Replan && Loads(f.world.replan(LastEpoch(t) + 1))));
      NotHalted(r, t, next, f);
    }
  }

  function RefusalIn(t: seq<Entry>, world: TaskWorld): TaskFailure {
    match world.observe(|t| + 1).invocation
    case Completed => RoleRefused(BlockedVerdict)
    case Refused(_) => RefusalAfter(t, world)
  }

  lemma NotHalted(r: Result<(), TaskFailure>, t: seq<Entry>, next: Next, f: Frame)
    requires t != [] && EndsFor(r, t, f)
    requires NextFits(next, Attempts(t), BudgetsIn(f)(LastEpoch(t)), LastEpoch(t), f.maxReplans)
    requires next.Go? || (next == Replan && Loads(f.world.replan(LastEpoch(t) + 1)))
    ensures r.Err? && (r.error == GoalCycleBudgetExhausted || r.error.RoleRefused? || r.error == RecoveryBlockedAfterFailure)
  {
    hide Continues;
  }

  lemma EndsAlike(a: Result<(), TaskFailure>, c: Result<(), TaskFailure>, t: seq<Entry>, f: Frame)
    requires EndsFor(a, t, f) && EndsFor(c, t, f)
    ensures a == c
  {
    if Continues(t, f) {
      ContinuesOrEnds(a, t, f);
      ContinuesOrEnds(c, t, f);
    } else {
      hide Continues;
      EndsHalted(a, t, f);
      EndsHalted(c, t, f);
      OneNext(NextOf(a), NextOf(c), Attempts(t), BudgetsIn(f)(LastEpoch(t)), LastEpoch(t), f.maxReplans);
    }
  }

  /** What an ending that is no interruption took the last attempt to. */
  function NextOf(r: Result<(), TaskFailure>): Next {
    match r
    case Ok(_) => Finish
    case Err(ReplanTaskInvalid) => Replan
    case Err(failure) => Halt(failure)
  }

  lemma EndsHalted(r: Result<(), TaskFailure>, t: seq<Entry>, f: Frame)
    requires EndsFor(r, t, f) && !Continues(t, f)
    ensures t != [] && NextFits(NextOf(r), Attempts(t), BudgetsIn(f)(LastEpoch(t)), LastEpoch(t), f.maxReplans)
    ensures r.Ok? ==> r == Ok(())
  {
  }

  /** What a task does and how it ends is settled by its brief, its world and the goal cycles left to it. */
  lemma OneOutcome(a: Result<(), TaskFailure>, t: seq<Entry>, c: Result<(), TaskFailure>, u: seq<Entry>, f: Frame)
    requires TaskTrace(a, t, f) && TaskTrace(c, u, f)
    ensures a == c && t == u
  {
    hide LegalTrace, Observed, Continues, EndsFor;
    if MayBegin(f.original, f.world) {
      var n := if |t| <= |u| then |t| else |u|;
      TracesAgree(t, u, n, f);
      assert t[..|t|] == t && u[..|u|] == u;
      if |t| <= |u| { NotOvertaken(a, t, u, f); } else { NotOvertaken(c, u, t, f); }
      EndsAlike(a, c, t, f);
    }
  }

  lemma NotOvertaken(r: Result<(), TaskFailure>, t: seq<Entry>, u: seq<Entry>, f: Frame)
    requires EndsFor(r, t, f) && LegalTrace(u, BudgetsIn(f), f.maxReplans) && Observed(u, f.world)
    requires |t| <= |u| && u[..|t|] == t && (f.goalMode && u != [] ==> |u| <= f.room)
    ensures |t| == |u|
  {
    hide LegalTrace, Observed, Continues, EndsFor;
    if |t| < |u| {
      GoesOn(t, u, f);
      ContinuesOrEnds(r, t, f);
    }
  }
}
