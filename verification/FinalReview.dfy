/** Final verification, sealing and review: at most two cycles, then the run is accepted or over. */
module FinalReview {
  import opened Common
  import opened ProofGraph
  import opened VerificationPlan
  import opened TaskBrief
  import opened Documents
  import opened LiveEvidence
  import opened Assurance
  import opened Truth
  import opened ObligationLifecycle
  import opened Orchestrator
  import opened FinalChecks
  import DiffGuard

  /** The diff guard passes exactly on no violation. */
  type GuardReport = d: DiffReport | d.verdict == (if d.violations == [] then ReportPass else ReportFail)
    witness DiffReport(ReportPass, [])

  /** What the kernel requires of every final cycle, and everything it does not control, cycle by cycle: what each
      required command came to, what the proofs came to, the diff, and what roles answer and write. The reviewer and the
      repairing role may write anywhere in the run directory before the kernel goes on. */
  datatype World = World(
    required: seq<CheckSpec>,
    ran: (nat, nat) -> Ran,
    proofs: nat -> seq<CheckItem>,
    diff: nat -> GuardReport,
    afterChecks: (nat, Files) -> Files,
    roleFails: nat -> bool,
    afterReview: (nat, Files) -> Files,
    review: nat -> Option<Review>,
    goalSatisfied: nat -> bool,
    repairFails: bool,
    afterRepair: Files -> Files)
  {
    /** The report the kernel makes of a cycle. */
    function checks(cycle: nat): FinalReport {
      Merged(required, (i: nat) => ran(cycle, i), proofs(cycle))
    }
  }

  /** What an accepted run was accepted on. */
  datatype Acceptance = Acceptance(cycle: nat, review: Review, seal: Seal, left: Files)

  /** One sealing: the directory it was taken from, and the graph recorded right after it. */
  datatype Seal = Seal(from: Files, graph: Graph)

  const FAST_LANE_REVIEW: Review := Review(Approved, Minimal, true)

  predicate Sealable(seal: Seal, world: World, cycle: nat) {
    CanSeal(seal.from, world.checks(cycle), world.diff(cycle))
  }

  /** The directory after sealing and recording, which is what the reviewer finds. */
  function AfterSeal(seal: Seal, world: World, cycle: nat, plan: Plan, size: Content -> nat): Files
    requires Sealable(seal, world, cycle)
  {
    Sealed(seal.from, world.checks(cycle), world.diff(cycle), plan, size)[GRAPH := GraphFile(seal.graph)]
  }

  predicate CyclePassed(world: World, cycle: nat, plan: Plan) {
    && world.checks(cycle).verdict == ReportPass && world.diff(cycle).verdict == ReportPass
    && AuthoritativePassedCriteria(plan, world.checks(cycle)).Ok?
  }

  /** The directory a cycle's evidence is taken from. */
  function Checked(world: World, cycle: nat, files: Files): Files {
    world.afterChecks(cycle, files)[CHECKS := ReportFile(world.checks(cycle))][DIFF := DiffFile(world.diff(cycle))]
  }

  predicate Captures(world: World, cycle: nat, files: Files) {
    CanSeal(Checked(world, cycle, files), world.checks(cycle), world.diff(cycle))
  }

  /** The cycle comes to its review: its evidence can be captured and everything in it passed. */
  predicate CycleOpens(world: World, cycle: nat, plan: Plan, files: Files) {
    Captures(world, cycle, files) && CyclePassed(world, cycle, plan)
  }

  /** The one reason a cycle does not come to its review. */
  predicate KeepsFromReview(failure: Failure, world: World, cycle: nat, plan: Plan, files: Files) {
    match failure
    case CoreEvidenceCaptureFailed => !Captures(world, cycle, files)
    case InternalError => Captures(world, cycle, files) && AuthoritativePassedCriteria(plan, world.checks(cycle)).Err?
    case FinalVerificationFailed =>
      && Captures(world, cycle, files) && AuthoritativePassedCriteria(plan, world.checks(cycle)).Ok?
      && !(world.checks(cycle).verdict == ReportPass && world.diff(cycle).verdict == ReportPass)
    case _ => false
  }

  /** The reviewer answers, and what it answers can be read. */
  predicate Answers(world: World, cycle: nat) {
    !world.roleFails(cycle) && world.review(cycle).Some?
  }

  predicate Approves(world: World, cycle: nat, goalMode: bool) {
    && Answers(world, cycle)
    && world.review(cycle).value.verdict == Approved && world.review(cycle).value.simplicity == Minimal
    && (goalMode ==> world.goalSatisfied(cycle))
  }

  /** A first review that asks for a fix, finds the change overbuilt, or approves what misses the goal is followed by a
      repair and a second cycle. */
  predicate SendsBack(world: World, cycle: nat, goalMode: bool) {
    && cycle == 1 && Answers(world, cycle)
    && var review := world.review(cycle).value;
       || review.verdict == FixRequired
       || review.simplicity == Overbuilt
       || (review.verdict == Approved && goalMode && !world.goalSatisfied(cycle))
  }

  /** The one reason a review ends the run. */
  predicate Refuses(failure: Failure, world: World, cycle: nat, goalMode: bool) {
    match failure
    case RoleFailed => world.roleFails(cycle)
    case ReviewArtifactMissing => !world.roleFails(cycle) && world.review(cycle).None?
    case FinalReviewRejected =>
      Answers(world, cycle) && !Approves(world, cycle, goalMode) && !SendsBack(world, cycle, goalMode)
    case _ => false
  }

  /** Steps of the final phase: verifications of the cycles up to the last, only the last step with a review. */
  ghost predicate FinalSteps(before: seq<Step>, after: seq<Step>, world: World, plan: Plan, last: nat) {
    && before <= after
    && forall i | |before| <= i < |after| ::
         && FromCycle(after[i], world, plan, last)
         && (i < |after| - 1 ==> after[i].v.review.None?)
  }

  ghost predicate FromCycle(step: Step, world: World, plan: Plan, last: nat) {
    step.Verified? && exists cycle: nat | 1 <= cycle <= last :: VerifiesCycle(step.v, cycle, world, plan)
  }

  ghost predicate VerifiesCycle(v: Verification, cycle: nat, world: World, plan: Plan) {
    && CyclePassed(world, cycle, plan)
    && v == VerificationOf(plan, world.checks(cycle), world.diff(cycle), v.review)
  }

  /** All steps so far are verifications of these cycles without a review. */
  ghost predicate CheckSteps(before: seq<Step>, after: seq<Step>, world: World, plan: Plan, last: nat) {
    && before <= after
    && forall i | |before| <= i < |after| :: FromCycle(after[i], world, plan, last) && after[i].v.review.None?
  }

  lemma FromEarlierCycle(step: Step, world: World, plan: Plan, last: nat, more: nat)
    requires FromCycle(step, world, plan, last) && last <= more
    ensures FromCycle(step, world, plan, more)
  {
  }

  lemma CheckStepTaken(before: seq<Step>, after: seq<Step>, world: World, plan: Plan, last: nat, cycle: nat,
                       review: Option<Review>)
    requires CheckSteps(before, after, world, plan, last) && CyclePassed(world, cycle, plan) && last <= cycle && 1 <= cycle
    ensures FinalSteps(before, after + [CycleStep(world, cycle, plan, review)], world, plan, cycle)
    ensures review.None? ==> CheckSteps(before, after + [CycleStep(world, cycle, plan, review)], world, plan, cycle)
  {
    var v := VerificationOf(plan, world.checks(cycle), world.diff(cycle), review);
    assert VerifiesCycle(v, cycle, world, plan);
    forall i | |before| <= i < |after| ensures FromCycle(after[i], world, plan, cycle) {
      FromEarlierCycle(after[i], world, plan, last, cycle);
    }
  }

  function CycleStep(world: World, cycle: nat, plan: Plan, review: Option<Review>): Step
    requires CyclePassed(world, cycle, plan)
  {
    Verified(VerificationOf(plan, world.checks(cycle), world.diff(cycle), review))
  }

  /** How an accepted run's directory and last step came about. */
  ghost predicate AcceptedOn(a: Acceptance, world: World, plan: Plan, size: Content -> nat, reviewerRequired: bool,
                             files: Files, g: Graph, last: Step)
  {
    && 1 <= a.cycle <= 2
    && CyclePassed(world, a.cycle, plan)
    && a.review.verdict == Approved && a.review.simplicity == Minimal
    && last == CycleStep(world, a.cycle, plan, Some(a.review))
    && files == a.left[REVIEW := ReviewFile(a.review)][GRAPH := GraphFile(g)]
    && Sealable(a.seal, world, a.cycle)
    && (if reviewerRequired then
          && world.review(a.cycle) == Some(a.review)
          && a.left == world.afterReview(a.cycle, AfterSeal(a.seal, world, a.cycle, plan, size))
        else
          a.cycle == 1 && a.review == FAST_LANE_REVIEW && a.left == AfterSeal(a.seal, world, a.cycle, plan, size))
  }

  /** Runs the checks and the diff guard, seals them, and records them without a review. */
  method VerifyAndSeal(o: Orchestrator, world: World, cycle: nat, size: Content -> nat, repository: RepositoryView)
    returns (r: Result<(), Failure>, ghost seal: Seal)
    requires o.Valid()
    modifies o`steps, o.graph`evidence, o.owned, o.dir
    ensures r.Ok? <==> CycleOpens(world, cycle, o.plan, old(o.dir.files))
    ensures r.Err? ==> KeepsFromReview(r.error, world, cycle, o.plan, old(o.dir.files))
    ensures r.Ok? || r.error == FinalVerificationFailed ==>
              && o.Valid()
              && o.steps == old(o.steps) + [Verified(VerificationOf(o.plan, world.checks(cycle), world.diff(cycle), None))]
              && seal == Seal(Checked(world, cycle, old(o.dir.files)), o.graph.Value())
              && Sealable(seal, world, cycle) && o.dir.files == AfterSeal(seal, world, cycle, o.plan, size)
  {
    hide AuthoritativePassedCriteria, CanSeal, Sealed, AfterAll, VerificationOf;
    var checks := RunFinalChecks(world.required, (i: nat) => world.ran(cycle, i), world.proofs(cycle));
    var diff := world.diff(cycle);
    assert checks == world.checks(cycle);
    o.dir.files := world.afterChecks(cycle, o.dir.files)[CHECKS := ReportFile(checks)][DIFF := DiffFile(diff)];
    seal := Seal(o.dir.files, o.graph.Value());
    var sealed := SealCoreEvidence(o.dir, checks, diff, o.plan, size, repository);
    if sealed.Err? { return Err(CoreEvidenceCaptureFailed), seal; }
    var recorded := o.RecordVerificationProof(checks, diff, None);
    if recorded.Err? { return Err(InternalError), seal; }
    seal := seal.(graph := o.graph.Value());
    if checks.verdict != ReportPass || diff.verdict != ReportPass { return Err(FinalVerificationFailed), seal; }
    return Ok(()), seal;
  }

  /** Writes a review and records it against the obligations. */
  method AcceptReview(o: Orchestrator, world: World, cycle: nat, review: Review)
    requires o.Valid() && AuthoritativePassedCriteria(o.plan, world.checks(cycle)).Ok?
    modifies o`steps, o.graph`evidence, o.owned, o.dir
    ensures o.Valid()
    ensures o.steps == old(o.steps) + [Verified(VerificationOf(o.plan, world.checks(cycle), world.diff(cycle), Some(review)))]
    ensures o.dir.files == old(o.dir.files)[REVIEW := ReviewFile(review)][GRAPH := GraphFile(o.graph.Value())]
  {
    o.dir.files := o.dir.files[REVIEW := ReviewFile(review)];
    var recorded := o.RecordVerificationProof(world.checks(cycle), world.diff(cycle), Some(review));
  }

  /** The reviewer's verdict after the kernel's own goal check. */
  function Settled(review: Review, goalMode: bool, goalSatisfied: bool): (r: Review)
    ensures r.simplicity == review.simplicity && r.fastLane == review.fastLane
    ensures r.verdict == Approved <==> review.verdict == Approved && (goalMode ==> goalSatisfied)
    ensures r.verdict == FixRequired || r.verdict == review.verdict
    ensures r.verdict == FixRequired <==>
              review.verdict == FixRequired || (review.verdict == Approved && goalMode && !goalSatisfied)
  {
    if goalMode && review.verdict == Approved && !goalSatisfied then review.(verdict := FixRequired) else review
  }

  /** No reviewer is required: the kernel writes its own approval. */
  method ApproveFastLane(o: Orchestrator, world: World, cycle: nat, size: Content -> nat, ghost seal: Seal)
    returns (ghost a: Acceptance)
    requires o.Valid() && cycle == 1 && !o.strategy.reviewerRequired && CyclePassed(world, cycle, o.plan)
    requires Sealable(seal, world, cycle) && o.dir.files == AfterSeal(seal, world, cycle, o.plan, size)
    modifies o`steps, o.graph`evidence, o.owned, o.dir
    ensures o.Valid() && a.cycle == cycle && a.seal == seal
    ensures o.steps == old(o.steps) + [CycleStep(world, cycle, o.plan, Some(a.review))]
    ensures AcceptedOn(a, world, o.plan, size, false, o.dir.files, o.graph.Value(), o.steps[|o.steps| - 1])
  {
    a := Acceptance(cycle, FAST_LANE_REVIEW, seal, o.dir.files);
    AcceptReview(o, world, cycle, FAST_LANE_REVIEW);
  }

  datatype CycleResult = Accepted | NeedsRepair | Stopped(failure: Failure)

  /** The directory with the review the kernel settled on. */
  function Reviewed(world: World, cycle: nat, goalMode: bool, files: Files): Files
    requires world.review(cycle).Some?
  {
    world.afterReview(cycle, files)[REVIEW := ReviewFile(Settled(world.review(cycle).value, goalMode, world.goalSatisfied(cycle)))]
  }

  /** One visit to the reviewer. */
  method ReviewOnce(o: Orchestrator, world: World, cycle: nat, size: Content -> nat, ghost seal: Seal)
    returns (r: CycleResult, ghost a: Acceptance)
    requires o.Valid() && 1 <= cycle <= 2 && CyclePassed(world, cycle, o.plan)
    requires Sealable(seal, world, cycle) && o.dir.files == AfterSeal(seal, world, cycle, o.plan, size)
    modifies o`steps, o.graph`evidence, o.owned, o.dir
    ensures o.Valid()
    ensures r == Accepted <==> Approves(world, cycle, o.goalMode)
    ensures r == NeedsRepair <==> SendsBack(world, cycle, o.goalMode)
    ensures r.Stopped? ==> Refuses(r.failure, world, cycle, o.goalMode)
    ensures r == NeedsRepair ==>
              o.steps == old(o.steps) && o.dir.files == Reviewed(world, cycle, o.goalMode, old(o.dir.files))
    ensures r == Accepted ==>
              a.cycle == cycle && a.seal == seal &&
              o.steps == old(o.steps) + [CycleStep(world, cycle, o.plan, Some(a.review))] &&
              AcceptedOn(a, world, o.plan, size, true, o.dir.files, o.graph.Value(), o.steps[|o.steps| - 1])
  {
    hide AuthoritativePassedCriteria, CanSeal, Sealed, AfterAll, VerificationOf;
    o.dir.files := world.afterReview(cycle, o.dir.files);
    a := Acceptance(cycle, FAST_LANE_REVIEW, seal, o.dir.files);
    if world.roleFails(cycle) { return Stopped(RoleFailed), a; }
    if world.review(cycle).None? { return Stopped(ReviewArtifactMissing), a; }
    var review := Settled(world.review(cycle).value, o.goalMode, world.goalSatisfied(cycle));
    if review.verdict == Approved && review.simplicity == Minimal {
      a := a.(review := review);
      AcceptReview(o, world, cycle, review);
      return Accepted, a;
    }
    o.dir.files := o.dir.files[REVIEW := ReviewFile(review)];
    if cycle == 1 && (review.verdict == FixRequired || review.simplicity == Overbuilt) { return NeedsRepair, a; }
    return Stopped(FinalReviewRejected), a;
  }

  /** What a finished cycle or a finished loop guarantees of an accepted run. */
  ghost predicate Finished(a: Acceptance, o: Orchestrator, world: World, size: Content -> nat)
    reads o, o.graph, o.graph.obligations, o.dir
  {
    && o.Valid() && o.steps != []
    && AcceptedOn(a, world, o.plan, size, o.strategy.reviewerRequired, o.dir.files, o.graph.Value(),
                  o.steps[|o.steps| - 1])
  }

  /** A verified and sealed cycle goes to the fast lane or to the reviewer. */
  method Conclude(o: Orchestrator, world: World, cycle: nat, size: Content -> nat, ghost seal: Seal)
    returns (r: CycleResult, ghost a: Acceptance)
    requires o.Valid() && 1 <= cycle <= 2 && (cycle == 2 ==> o.strategy.reviewerRequired)
    requires CyclePassed(world, cycle, o.plan)
    requires Sealable(seal, world, cycle) && o.dir.files == AfterSeal(seal, world, cycle, o.plan, size)
    modifies o`steps, o.graph`evidence, o.owned, o.dir
    ensures r == Accepted <==> !o.strategy.reviewerRequired || Approves(world, cycle, o.goalMode)
    ensures r == NeedsRepair <==> o.strategy.reviewerRequired && SendsBack(world, cycle, o.goalMode)
    ensures r.Stopped? ==> o.strategy.reviewerRequired && Refuses(r.failure, world, cycle, o.goalMode)
    ensures r == Accepted ==>
              && Finished(a, o, world, size) && a.cycle == cycle && a.seal == seal
              && o.steps == old(o.steps) + [CycleStep(world, cycle, o.plan, Some(a.review))]
    ensures r == NeedsRepair ==>
              o.Valid() && o.steps == old(o.steps) && o.dir.files == Reviewed(world, cycle, o.goalMode, old(o.dir.files))
  {
    hide AfterSeal, Sealable, CyclePassed, AcceptedOn, CycleStep, Approves, SendsBack, Refuses, Reviewed;
    if !o.strategy.reviewerRequired {
      a := ApproveFastLane(o, world, cycle, size, seal);
      NothingSentBack(world, cycle, o.goalMode);
      return Accepted, a;
    }
    r, a := ReviewOnce(o, world, cycle, size, seal);
  }

  // ---------------------------------------------------------------- both cycles

  /** Where the final phase starts. */
  datatype Phase = Phase(files: Files, session: Session, plan: Plan, goalMode: bool, size: Content -> nat)

  /** The seal of a cycle that passed, from the directory it found and the state before it. */
  function SealOf(world: World, cycle: nat, plan: Plan, files: Files, session: Session): Seal
    requires CyclePassed(world, cycle, plan)
  {
    Seal(Checked(world, cycle, files), After(session, CycleStep(world, cycle, plan, None)).graph)
  }

  /** The first cycle's own seal. */
  function FirstSeal(p: Phase, world: World): Seal
    requires CyclePassed(world, 1, p.plan)
  {
    SealOf(world, 1, p.plan, p.files, p.session)
  }

  /** The directory the second cycle finds: the first review and the repair have been over it. */
  function Returned(p: Phase, world: World): Files
    requires CycleOpens(world, 1, p.plan, p.files) && world.review(1).Some?
  {
    world.afterRepair(Reviewed(world, 1, p.goalMode, AfterSeal(FirstSeal(p, world), world, 1, p.plan, p.size)))
  }

  predicate AcceptedFirst(p: Phase, world: World) {
    && CycleOpens(world, 1, p.plan, p.files)
    && (p.session.strategy.reviewerRequired ==> Approves(world, 1, p.goalMode))
  }

  predicate ReachesSecond(p: Phase, world: World) {
    && CycleOpens(world, 1, p.plan, p.files)
    && p.session.strategy.reviewerRequired && SendsBack(world, 1, p.goalMode) && !world.repairFails
  }

  predicate AcceptedSecond(p: Phase, world: World) {
    ReachesSecond(p, world) && CycleOpens(world, 2, p.plan, Returned(p, world)) && Approves(world, 2, p.goalMode)
  }

  /** The run is accepted: on its first cycle, or on its second after a review that sent it back and a repair. */
  predicate Converges(p: Phase, world: World) {
    AcceptedFirst(p, world) || AcceptedSecond(p, world)
  }

  /** The one reason a run is not accepted. */
  predicate FailsFor(failure: Failure, p: Phase, world: World) {
    || KeepsFromReview(failure, world, 1, p.plan, p.files)
    || (CycleOpens(world, 1, p.plan, p.files) && p.session.strategy.reviewerRequired
        && Refuses(failure, world, 1, p.goalMode))
    || (CycleOpens(world, 1, p.plan, p.files) && p.session.strategy.reviewerRequired
        && SendsBack(world, 1, p.goalMode) && world.repairFails && failure == RoleFailed)
    || (ReachesSecond(p, world) && KeepsFromReview(failure, world, 2, p.plan, Returned(p, world)))
    || (ReachesSecond(p, world) && CycleOpens(world, 2, p.plan, Returned(p, world))
        && Refuses(failure, world, 2, p.goalMode))
  }

  /** What an accepted run was sealed from and which steps it took. */
  ghost predicate AcceptedFrom(a: Acceptance, p: Phase, world: World, before: seq<Step>, after: seq<Step>) {
    if AcceptedFirst(p, world) then
      && a.cycle == 1 && a.seal == FirstSeal(p, world)
      && after == before + [CycleStep(world, 1, p.plan, None), CycleStep(world, 1, p.plan, Some(a.review))]
    else
      && AcceptedSecond(p, world) && a.cycle == 2
      && a.seal == SealOf(world, 2, p.plan, Returned(p, world), After(p.session, CycleStep(world, 1, p.plan, None)))
      && after == before + [CycleStep(world, 1, p.plan, None), CycleStep(world, 2, p.plan, None),
                            CycleStep(world, 2, p.plan, Some(a.review))]
  }

  lemma NothingSentBack(world: World, cycle: nat, goalMode: bool)
    ensures SendsBack(world, cycle, goalMode) ==> !Approves(world, cycle, goalMode)
  {
  }

  lemma SomeKeeps(world: World, cycle: nat, plan: Plan, files: Files) returns (failure: Failure)
    requires !CycleOpens(world, cycle, plan, files)
    ensures KeepsFromReview(failure, world, cycle, plan, files)
  {
    failure := if !Captures(world, cycle, files) then CoreEvidenceCaptureFailed
               else if AuthoritativePassedCriteria(plan, world.checks(cycle)).Err? then InternalError
               else FinalVerificationFailed;
  }

  lemma SomeRefuses(world: World, cycle: nat, goalMode: bool) returns (failure: Failure)
    requires !Approves(world, cycle, goalMode) && !SendsBack(world, cycle, goalMode)
    ensures Refuses(failure, world, cycle, goalMode)
  {
    failure := if world.roleFails(cycle) then RoleFailed
               else if world.review(cycle).None? then ReviewArtifactMissing
               else FinalReviewRejected;
  }

  lemma SomeEnding(p: Phase, world: World) returns (failure: Failure)
    requires !Converges(p, world)
    ensures FailsFor(failure, p, world)
  {
    hide CycleOpens, KeepsFromReview, Approves, SendsBack, Refuses, Returned;
    if !CycleOpens(world, 1, p.plan, p.files) {
      failure := SomeKeeps(world, 1, p.plan, p.files);
    } else if !SendsBack(world, 1, p.goalMode) {
      failure := SomeRefuses(world, 1, p.goalMode);
    } else if world.repairFails {
      failure := RoleFailed;
    } else {
      ReviewAnswers(world, 1, p.goalMode);
      if !CycleOpens(world, 2, p.plan, Returned(p, world)) {
        failure := SomeKeeps(world, 2, p.plan, Returned(p, world));
      } else {
        NeverSentBackTwice(world, p.goalMode);
        failure := SomeRefuses(world, 2, p.goalMode);
      }
    }
  }

  lemma ReviewAnswers(world: World, cycle: nat, goalMode: bool)
    requires SendsBack(world, cycle, goalMode)
    ensures world.review(cycle).Some?
  {
  }

  lemma NeverSentBackTwice(world: World, goalMode: bool)
    ensures !SendsBack(world, 2, goalMode)
  {
  }

  /** A run that fails for one reason is not accepted and fails for no other. */
  lemma OneFailure(a: Failure, c: Failure, p: Phase, world: World)
    requires FailsFor(a, p, world)
    ensures !Converges(p, world) && (FailsFor(c, p, world) ==> a == c)
  {
    hide CycleOpens, KeepsFromReview, Approves, SendsBack, Refuses, Returned;
    FailureDistinct(a, c, world, 1, p.plan, p.files, p.goalMode);
    if ReachesSecond(p, world) {
      ReviewAnswers(world, 1, p.goalMode);
      FailureDistinct(a, c, world, 2, p.plan, Returned(p, world), p.goalMode);
    }
  }

  lemma FailureDistinct(a: Failure, c: Failure, world: World, cycle: nat, plan: Plan, files: Files, goalMode: bool)
    ensures KeepsFromReview(a, world, cycle, plan, files) ==> !CycleOpens(world, cycle, plan, files)
    ensures KeepsFromReview(c, world, cycle, plan, files) ==> !CycleOpens(world, cycle, plan, files)
    ensures Refuses(a, world, cycle, goalMode) ==>
              !Approves(world, cycle, goalMode) && !SendsBack(world, cycle, goalMode)
    ensures Refuses(c, world, cycle, goalMode) ==>
              !Approves(world, cycle, goalMode) && !SendsBack(world, cycle, goalMode)
    ensures SendsBack(world, cycle, goalMode) ==> !Approves(world, cycle, goalMode)
    ensures KeepsFromReview(a, world, cycle, plan, files) && KeepsFromReview(c, world, cycle, plan, files) ==> a == c
    ensures Refuses(a, world, cycle, goalMode) && Refuses(c, world, cycle, goalMode) ==> a == c
  {
    hide Captures, AuthoritativePassedCriteria;
  }

  /** Every final phase is accepted or fails, and for exactly one reason. */
  lemma OneEnding(p: Phase, world: World)
    ensures Converges(p, world) <==> !exists failure :: FailsFor(failure, p, world)
    ensures forall a, c :: FailsFor(a, p, world) && FailsFor(c, p, world) ==> a == c
  {
    hide Converges, FailsFor;
    if !Converges(p, world) { var failure := SomeEnding(p, world); }
    forall a, c | FailsFor(a, p, world) ensures !Converges(p, world) && (FailsFor(c, p, world) ==> a == c) {
      OneFailure(a, c, p, world);
    }
  }

  lemma StateExtends(s: Session, steps: seq<Step>, world: World, cycle: nat, plan: Plan)
    requires CyclePassed(world, cycle, plan)
    ensures AfterAll(s, steps + [CycleStep(world, cycle, plan, None)])
            == After(AfterAll(s, steps), CycleStep(world, cycle, plan, None))
  {
    RunExtends(s, steps, CycleStep(world, cycle, plan, None));
  }

  method RunCycle(o: Orchestrator, world: World, cycle: nat, size: Content -> nat, repository: RepositoryView,
                  ghost before: seq<Step>)
    returns (r: CycleResult, ghost a: Acceptance)
    requires o.Valid() && 1 <= cycle <= 2 && (cycle == 2 ==> o.strategy.reviewerRequired)
    requires CheckSteps(before, o.steps, world, o.plan, cycle - 1)
    modifies o`steps, o.graph`evidence, o.owned, o.dir
    ensures r == Accepted <==>
              && CycleOpens(world, cycle, o.plan, old(o.dir.files))
              && (o.strategy.reviewerRequired ==> Approves(world, cycle, o.goalMode))
    ensures r == NeedsRepair <==>
              && CycleOpens(world, cycle, o.plan, old(o.dir.files))
              && o.strategy.reviewerRequired && SendsBack(world, cycle, o.goalMode)
    ensures r.Stopped? ==>
              || KeepsFromReview(r.failure, world, cycle, o.plan, old(o.dir.files))
              || (CycleOpens(world, cycle, o.plan, old(o.dir.files))
                  && o.strategy.reviewerRequired && Refuses(r.failure, world, cycle, o.goalMode))
    ensures r == Accepted ==> Finished(a, o, world, size) && a.cycle == cycle && FinalSteps(before, o.steps, world, o.plan, cycle)
    ensures r == Accepted ==>
              && a.seal == SealOf(world, cycle, o.plan, old(o.dir.files), old(o.State()))
              && o.steps == old(o.steps) + [CycleStep(world, cycle, o.plan, None), CycleStep(world, cycle, o.plan, Some(a.review))]
    ensures r == NeedsRepair ==>
              && o.Valid() && CheckSteps(before, o.steps, world, o.plan, cycle)
              && o.steps == old(o.steps) + [CycleStep(world, cycle, o.plan, None)]
              && o.State() == After(old(o.State()), CycleStep(world, cycle, o.plan, None))
              && Sealable(SealOf(world, cycle, o.plan, old(o.dir.files), old(o.State())), world, cycle)
              && o.dir.files == Reviewed(world, cycle, o.goalMode,
                                         AfterSeal(SealOf(world, cycle, o.plan, old(o.dir.files), old(o.State())),
                                                   world, cycle, o.plan, size))
  {
    hide AfterSeal, Sealable, CyclePassed, CheckSteps, FinalSteps, Approves, SendsBack, Refuses, KeepsFromReview, Reviewed,
         AfterAll, InitialSession, After, AcceptedOn, VerificationOf, Checked, Captures, CanSeal, Sealed,
         AuthoritativePassedCriteria;
    var verified;
    ghost var seal;
    verified, seal := VerifyAndSeal(o, world, cycle, size, repository);
    if verified.Err? {
      a := Acceptance(cycle, FAST_LANE_REVIEW, seal, map[]);
      return Stopped(verified.error), a;
    }
    CheckStepTaken(before, old(o.steps), world, o.plan, cycle - 1, cycle, None);
    StateExtends(InitialSession(o.criteria, o.initial), old(o.steps), world, cycle, o.plan);
    ghost var sealedSteps := o.steps;
    r, a := Conclude(o, world, cycle, size, seal);
    if r == Accepted { CheckStepTaken(before, sealedSteps, world, o.plan, cycle, cycle, Some(a.review)); }
  }

  /** How the first cycle's result stands to the whole phase. */
  lemma FirstEnds(r: CycleResult, p: Phase, world: World)
    requires r == Accepted <==> AcceptedFirst(p, world)
    requires r == NeedsRepair <==>
               && CycleOpens(world, 1, p.plan, p.files)
               && p.session.strategy.reviewerRequired && SendsBack(world, 1, p.goalMode)
    requires r.Stopped? ==>
               || KeepsFromReview(r.failure, world, 1, p.plan, p.files)
               || (CycleOpens(world, 1, p.plan, p.files) && p.session.strategy.reviewerRequired
                   && Refuses(r.failure, world, 1, p.goalMode))
    ensures r == Accepted ==> Converges(p, world)
    ensures r.Stopped? ==> FailsFor(r.failure, p, world)
    ensures r == NeedsRepair ==> !AcceptedFirst(p, world)
    ensures r == NeedsRepair && world.repairFails ==> FailsFor(RoleFailed, p, world)
    ensures r == NeedsRepair && !world.repairFails ==> ReachesSecond(p, world)
  {
    hide CycleOpens, KeepsFromReview, Refuses, Approves, SendsBack, Returned;
  }

  lemma SecondEnds(r: CycleResult, p: Phase, world: World)
    requires ReachesSecond(p, world) && !AcceptedFirst(p, world) && world.review(1).Some?
    requires r == Accepted <==> CycleOpens(world, 2, p.plan, Returned(p, world)) && Approves(world, 2, p.goalMode)
    requires r.Stopped? ==>
               || KeepsFromReview(r.failure, world, 2, p.plan, Returned(p, world))
               || (CycleOpens(world, 2, p.plan, Returned(p, world)) && Refuses(r.failure, world, 2, p.goalMode))
    ensures r == Accepted ==> AcceptedSecond(p, world) && Converges(p, world)
    ensures r.Stopped? ==> FailsFor(r.failure, p, world)
  {
    hide CycleOpens, KeepsFromReview, Refuses, Approves, SendsBack, Returned;
  }

  /** The object at the start of a cycle. */
  ghost predicate AtCycle(cycle: nat, p: Phase, o: Orchestrator, world: World, before: seq<Step>)
    reads o, o.graph, o.graph.obligations, o.dir
    requires 1 <= cycle
  {
    && o.Valid() && p.plan == o.plan && p.goalMode == o.goalMode && p.session.strategy == o.strategy
    && CheckSteps(before, o.steps, world, o.plan, cycle - 1)
    && if cycle == 1 then o.steps == before && o.dir.files == p.files && o.State() == p.session
       else
         && ReachesSecond(p, world) && !AcceptedFirst(p, world) && world.review(1).Some?
         && o.steps == before + [CycleStep(world, 1, o.plan, None)]
         && o.State() == After(p.session, CycleStep(world, 1, o.plan, None)) && o.dir.files == Returned(p, world)
  }

  /** One cycle, and the repair if its review sends it back. */
  method CycleAndRepair(o: Orchestrator, world: World, cycle: nat, repository: RepositoryView, size: Content -> nat,
                        ghost p: Phase, ghost before: seq<Step>)
    returns (r: CycleResult, ghost a: Acceptance)
    requires 1 <= cycle <= 2 && AtCycle(cycle, p, o, world, before) && p.size == size
    modifies o`steps, o.graph`evidence, o.owned, o.dir
    ensures r == Accepted ==>
              && Converges(p, world) && Finished(a, o, world, size) && FinalSteps(before, o.steps, world, o.plan, a.cycle)
              && AcceptedFrom(a, p, world, before, o.steps)
    ensures r.Stopped? ==> FailsFor(r.failure, p, world)
    ensures r == NeedsRepair ==> cycle == 1 && AtCycle(2, p, o, world, before)
  {
    hide AfterSeal, Sealable, CyclePassed, CheckSteps, FinalSteps, Approves, Refuses, KeepsFromReview, Reviewed,
         AfterAll, InitialSession, After, AcceptedOn, VerificationOf, Checked, Captures, FailsFor, Converges, CycleOpens;
    r, a := RunCycle(o, world, cycle, size, repository, before);
    if cycle == 1 { FirstEnds(r, p, world); } else { SecondEnds(r, p, world); }
    if r == NeedsRepair {
      o.dir.files := world.afterRepair(o.dir.files);
      if world.repairFails { return Stopped(RoleFailed), a; }
    }
  }

  /** At most two cycles, each running the checks of all tasks and of the frozen plan. The phase is accepted exactly
      when it converges, on a cycle whose checks, diff and review all passed; otherwise it fails for the one reason that
      fits. Only the cycles up to the accepted one are recorded. */
  method FinalVerificationAndReview(o: Orchestrator, tasks: seq<TaskBrief>, met: World, size: Content -> nat,
                                    repository: RepositoryView, order: set<string> -> seq<string>)
    returns (r: Result<(), Failure>, ghost a: Acceptance, ghost world: World)
    requires o.Valid() && DiffGuard.Lists(order)
    modifies o`steps, o.graph`evidence, o.owned, o.dir
    ensures r.Ok? ==> Finished(a, o, world, size) && FinalSteps(old(o.steps), o.steps, world, o.plan, a.cycle)
    ensures r.Ok? ==> AcceptedFrom(a, old(PhaseOf(o, size)), world, old(o.steps), o.steps)
    ensures tasks == [] ==> r == Err(NothingToAggregate)
    ensures tasks != [] && !RunnableTasks(tasks) ==> r == Err(InternalError)
    ensures tasks != [] && RunnableTasks(tasks) ==>
              && world == met.(required := world.required) && RequiresAll(world.required, tasks, o.plan)
              && (r.Ok? ==> Converges(old(PhaseOf(o, size)), world))
              && (r.Err? ==> FailsFor(r.error, old(PhaseOf(o, size)), world))
  {
    hide RequiresAll, FinalSteps, Converges, FailsFor, AcceptedFrom, Finished, RunnableTasks, CheckSteps, AfterAll,
         InitialSession, AtCycle;
    ghost var p := PhaseOf(o, size);
    var required := FinalRequired(tasks, o.plan, order);
    world := met;
    a := Acceptance(1, FAST_LANE_REVIEW, Seal(map[], Graph([], [], "")), map[]);
    if required.None? { return Err(if tasks == [] then NothingToAggregate else InternalError), a, world; }
    var run := met.(required := required.value);
    world := run;
    var cycle := 1;
    FirstCycleOpens(o, run, size);
    while true
      invariant 1 <= cycle <= 2 && AtCycle(cycle, p, o, run, old(o.steps))
      decreases 3 - cycle
    {
      var result;
      result, a := CycleAndRepair(o, run, cycle, repository, size, p, old(o.steps));
      match result {
        case Accepted => return Ok(()), a, world;
        case Stopped(failure) => return Err(failure), a, world;
        case NeedsRepair => cycle := cycle + 1;
      }
    }
  }

  /** The object at the start of the final phase. */
  ghost function PhaseOf(o: Orchestrator, size: Content -> nat): Phase
    reads o, o.graph, o.graph.obligations, o.dir
  {
    Phase(o.dir.files, o.State(), o.plan, o.goalMode, size)
  }

  lemma FirstCycleOpens(o: Orchestrator, world: World, size: Content -> nat)
    requires o.Valid()
    ensures AtCycle(1, PhaseOf(o, size), o, world, o.steps)
  {
    hide AfterAll, InitialSession;
    NoCheckSteps(o.steps, world, o.plan);
  }

  lemma NoCheckSteps(steps: seq<Step>, world: World, plan: Plan)
    ensures CheckSteps(steps, steps, world, plan, 0)
  {
  }
}
