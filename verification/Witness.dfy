/** Two concrete runs of one prepared request: one that an independent review leads to PROVEN, so that what is proved of
    PROVEN runs is not empty; and a fast-lane one that loses its intent contract and ends PROVEN all the same. */
module Witness {
  import opened Common
  import opened JsonPointer
  import opened ProofGraph
  import opened EvidencePolicy
  import opened VerificationPlan
  import opened TaskBrief
  import opened Documents
  import opened LiveEvidence
  import opened SealTheorems
  import opened Assurance
  import opened Truth
  import opened TruthGate
  import L = ObligationLifecycle
  import Orchestrator
  import opened ObligationTheorems
  import opened ObligationClosure
  import opened FinalReview
  import opened FinalChecks
  import DiffGuard
  import Repair
  import opened TaskExecutor
  import opened Kernel
  import Clauses
  import Preparation
  import T = Traceability
  import R = WitnessRequest

  // ---------------------------------------------------------------- the world

  const OUT: Path := RunPath("logs/out")
  const ERR: Path := RunPath("logs/err")
  const PROOF_OUT: Path := RunPath("logs/proof-out")
  const PROOF_ERR: Path := RunPath("logs/proof-err")

  /** The required command, and the one check of the task's proof plan. */
  const ITEMS: seq<CheckItem> := [CheckItem(R.COMMAND, true, OUT, ERR), CheckItem(["proof"], true, PROOF_OUT, PROOF_ERR)]
  const REPORT: FinalReport := Report(ReportPass, ITEMS, None)
  const GUARD: GuardReport := DiffReport(ReportPass, [])
  const APPROVAL: Review := Review(Approved, Minimal, false)

  /** The directory as the checks left it: the prompt, four logs, and the intent if it was kept. */
  const WITHOUT_INTENT: Files := map[
    PROMPT := OtherObject(map["requestId" := Null]),
    OUT := NotAnObject("", false),
    ERR := NotAnObject("", false),
    PROOF_OUT := NotAnObject("", false),
    PROOF_ERR := NotAnObject("", false)
  ]

  function LeftByChecks(kept: bool): Files {
    if kept then WITHOUT_INTENT[INTENT := IntentFile(R.REQUEST)] else WITHOUT_INTENT
  }

  /** The runs differ in their strategy and in whether the intent contract survives the checks. */
  function WorldOf(kept: bool): World {
    World(R.TASK.requiredChecks, (_, _) => Ran(true, OUT, ERR), _ => [CheckItem(["proof"], true, PROOF_OUT, PROOF_ERR)],
          _ => GUARD, (_, _) => LeftByChecks(kept), _ => false, (_, files) => files, _ => Some(APPROVAL),
          _ => true, false, files => files)
  }

  /** The report the kernel makes in these worlds. */
  lemma ChecksAre(kept: bool)
    ensures WorldOf(kept).checks(1) == REPORT && WorldOf(kept).diff(1) == GUARD
    ensures WorldOf(kept).required == R.TASK.requiredChecks
  {
    assert WorldOf(kept).checks(1).items == ITEMS;
  }

  function ReviewOf(kept: bool): Review {
    if kept then APPROVAL else FAST_LANE_REVIEW
  }

  function ViewOf(c: Content): Option<Json> {
    match c
    case ReportFile(r) => Some(Obj(map["verdict" := if r.verdict == ReportPass then Str("PASS") else Null]))
    case DiffFile(d) => Some(Obj(map["verdict" := if d.verdict == ReportPass then Str("PASS") else Null]))
    case ReviewFile(r) =>
      Some(Obj(map["verdict" := if r.verdict == Approved then Str("APPROVED") else Null,
                   "simplicityVerdict" := if r.simplicity == Minimal then Str("MINIMAL") else Null]))
    case TraceFile(t) => Some(Obj(map["routingObserved" := Bool(t.routingObserved)]))
    case NotAnObject(_, _) => None
    case _ => Some(Obj(map[]))
  }

  const SEEN: Observation := Observation(Completed, Repair.Pass, Repair.Pass, None, None)
  const TASK_WORLD: TaskWorld := TaskWorld(_ => SEEN, _ => None, false, true, true)

  ghost function Ordered(s: set<string>): (order: seq<string>)
    ensures forall x :: x in order <==> x in s
  {
    if s == {} then []
    else
      var x :| x in s;
      [x] + Ordered(s - {x})
  }

  ghost function EnvOf(kept: bool): (env: Environment)
    ensures DiffGuard.Lists(env.order)
  {
    Environment(_ => TASK_WORLD, WorldOf(kept), Trace(false, false), ViewOf, _ => 0, (_, _) => None, (s: set<string>) => Ordered(s))
  }

  /** What is required of the final cycles covers the task and the plan. */
  lemma AllIsRequired(kept: bool)
    ensures RequiresAll(WorldOf(kept).required, [R.TASK], R.PLAN)
  {
    hide CommandDigest, R.NAME;
    var m := R.PLAN.body.mandatory;
    assert m[0].command == R.COMMAND;
    assert R.TASK.requiredChecks[0].command == R.COMMAND;
    assert R.TASK.requiredChecks[0] in R.TASK.requiredChecks;
  }

  function ConfigurationOf(kept: bool): T.Configuration {
    T.Configuration(if kept then L.Strategy(L.T2, true) else L.Strategy(L.T0, false), false, 0, 0, "run")
  }

  function SetupFor(kept: bool): (setup: Setup)
    ensures setup.tasks == [R.TASK] && setup.plan == R.PLAN && setup.criteria == L.IdsOf([R.NAME])
    ensures T.SetUpFrom(setup, R.ThePrepared()) && !setup.goalMode && setup.maxReplans == 0
    ensures setup.runName == "run" && setup.strategy == ConfigurationOf(kept).strategy
  {
    T.SetupOf(R.ThePrepared(), ConfigurationOf(kept))
  }

  lemma ViewShows()
    ensures Shows(ViewOf)
  {
  }

  // ---------------------------------------------------------------- the task and the final cycle

  const ATTEMPTED: seq<Entry> := [Entry(AttemptOf(Repair.ImplementerFast, SEEN), 0)]

  lemma FirstAttemptIsLegal(budgets: nat -> Repair.Budgets)
    ensures LegalTrace(ATTEMPTED, budgets, 0)
  {
    assert ATTEMPTED[..0] == [];
    assert Attempts([]) == [];
  }

  /** The task is done at its first attempt. */
  lemma TaskIsDone(kept: bool)
    ensures TasksDone([ATTEMPTED], SetupFor(kept), EnvOf(kept).taskWorlds, 1)
  {
    hide R.TASK, WorldOf, R.PLAN, TaskTrace;
    OnlyFrame(kept);
    AttemptedTrace();
    assert [ATTEMPTED][..0] == [];
  }

  const FRAME: Frame := Frame(R.TASK, TASK_WORLD, 0, false, 0)

  lemma OnlyFrame(kept: bool)
    ensures |SetupFor(kept).tasks| == 1 && FrameOf([], SetupFor(kept), EnvOf(kept).taskWorlds).(room := 0) == FRAME
  {
    hide WorldOf, R.PLAN, R.TASK;
  }

  lemma AttemptedTrace()
    ensures forall room :: TaskTrace(Ok(()), ATTEMPTED, FRAME.(room := room))
  {
    hide LegalTrace;
    FirstAttemptIsLegal(BudgetsAt(R.TASK, TASK_WORLD.replan));
  }

  lemma MandatoryPasses()
    ensures MandatoryChecksPassed(R.PLAN, REPORT)
  {
    hide CommandDigest;
    var m := R.PLAN.body.mandatory;
    assert m[0].mandatory && REPORT.items[0].command == R.COMMAND;
    forall i | 0 <= i < |m| && m[i].mandatory
      ensures exists k | 0 <= k < |REPORT.items| ::
                REPORT.items[k].passed && CommandDigest(REPORT.items[k].command) == m[i].digest
    {
      assert REPORT.items[0].passed && CommandDigest(REPORT.items[0].command) == m[0].digest;
    }
  }

  /** The plan's gate passes the criterion on this report. */
  lemma GatePasses()
    ensures AuthoritativePassedCriteria(R.PLAN, REPORT).Ok?
    ensures R.NAME in AuthoritativePassedCriteria(R.PLAN, REPORT).value
  {
    MandatoryPasses();
    GatesAgree(R.PLAN, REPORT);
    R.NameIsText();
    hide R.NAME, CommandDigest, MandatoryChecksPassed;
    var m := R.PLAN.body.mandatory;
    assert m[0].criterionIds[0] == R.NAME && R.NAME in m[0].criterionIds;
    assert R.NAME in CriteriaOf(m);
    assert REPORT.items == ITEMS;
    assert ITEMS[0].command == R.COMMAND && ITEMS[1].command == ["proof"];
  }

  lemma CyclePasses(kept: bool)
    ensures CyclePassed(WorldOf(kept), 1, R.PLAN)
  {
    ChecksAre(kept);
    GatePasses();
  }

  lemma NameIsNamed()
    ensures L.IdsOf([R.NAME]) == [Named(R.NAME)] && NamedApart(L.IdsOf([R.NAME]))
  {
    T.CriterionIsNamed(0);
    hide R.NAME;
    assert [R.NAME][0] == R.NAME;
  }

  /** The verification of the only cycle, with and without its review. */
  function Shown(review: Option<Review>): (v: L.Verification)
    ensures v.checks == ReportPass && v.diff == ReportPass && v.review == review && Named(R.NAME) in v.passed
  {
    GatePasses();
    T.CriterionIsNamed(0);
    Orchestrator.VerificationOf(R.PLAN, REPORT, GUARD, review)
  }

  function Taken(review: Option<Review>): L.Step {
    L.Verified(Shown(review))
  }

  /** The planner's prompt and the implementer's, then the verification before and with the review. */
  const PRE: seq<L.Step> := [L.PromptApplied("run"), L.PromptApplied("run")]

  function StepsOf(kept: bool): seq<L.Step> {
    PRE + [Taken(None)] + [Taken(Some(ReviewOf(kept)))]
  }

  lemma StepsAreFinal(kept: bool)
    ensures FinalSteps(PRE, StepsOf(kept), WorldOf(kept), R.PLAN, 1) && NoVerificationIn(PRE)
    ensures PRE <= StepsOf(kept) && |StepsOf(kept)| == 4 && L.RecoveryActivated !in StepsOf(kept)
  {
    hide R.PLAN, REPORT, GUARD, Orchestrator.VerificationOf, CyclePassed, Shown;
    CyclePasses(kept);
    forall review ensures FromCycle(Taken(review), WorldOf(kept), R.PLAN, 1) {
      TakenFromCycle(kept, review);
    }
  }

  lemma TakenFromCycle(kept: bool, review: Option<Review>)
    ensures FromCycle(Taken(review), WorldOf(kept), R.PLAN, 1)
  {
    hide R.PLAN, REPORT, GUARD, Orchestrator.VerificationOf, CyclePassed;
    CyclePasses(kept);
    ChecksAre(kept);
    assert VerifiesCycle(Shown(review), 1, WorldOf(kept), R.PLAN);
  }

  /** The plan is conclusive, and it can prove the only criterion. */
  lemma PlanProvesAll(kept: bool)
    ensures Authentic(R.PLAN.body.mandatory) && Conclusive(R.PLAN)
    ensures forall id | id in SetupFor(kept).criteria :: id in Provable(R.PLAN)
  {
    T.CriterionIsNamed(0);
    R.NameIsText();
    hide R.NAME, CommandDigest;
    NameIsNamed();
    var m := R.PLAN.body.mandatory;
    assert m[0].criterionIds[0] == R.NAME && R.NAME in m[0].criterionIds;
    assert R.NAME in CriteriaOf(m);
  }

  // ---------------------------------------------------------------- the directory

  function SealedFrom(kept: bool): Files {
    LeftByChecks(kept)[CHECKS := ReportFile(REPORT)][DIFF := DiffFile(GUARD)]
  }

  lemma LogPathsPlain()
    ensures OUT.text == "logs" + ['/'] + "out" && ERR.text == "logs" + ['/'] + "err"
    ensures PROOF_OUT.text == "logs" + ['/'] + "proof-out" && PROOF_ERR.text == "logs" + ['/'] + "proof-err"
    ensures |OUT.text| == 8 && |ERR.text| == 8 && |PROOF_OUT.text| == 14 && |PROOF_ERR.text| == 14
    ensures OUT !in KERNEL_WRITES && ERR !in KERNEL_WRITES && PROOF_OUT !in KERNEL_WRITES && PROOF_ERR !in KERNEL_WRITES
    ensures MANIFEST !in {OUT, ERR, PROOF_OUT, PROOF_ERR}
  {
    assert |CLAIMS.text| == 11 && |TRACE.text| == 24 && |REVIEW.text| == 11 && |GRAPH.text| == 16 && |MANIFEST.text| == 18;
  }

  lemma LogsAreCapturable()
    ensures CapturableLogs(REPORT) && LogsElsewhere(REPORT)
  {
    hide KERNEL_WRITES, SafeRelative, EndsWith;
    LogPathsPlain();
    TwoPartsAreSafe("logs", "out");
    TwoPartsAreSafe("logs", "err");
    TwoPartsAreSafe("logs", "proof-out");
    TwoPartsAreSafe("logs", "proof-err");
  }

  lemma PathsApart()
    ensures INTENT !in {PROMPT, CHECKS, DIFF, OUT, ERR, PROOF_OUT, PROOF_ERR, MANIFEST}
    ensures PROMPT !in {CHECKS, DIFF, OUT, ERR, PROOF_OUT, PROOF_ERR, MANIFEST}
    ensures CHECKS != DIFF && CHECKS !in {OUT, ERR, PROOF_OUT, PROOF_ERR} && DIFF !in {OUT, ERR, PROOF_OUT, PROOF_ERR}
    ensures OUT != ERR && PROOF_OUT != PROOF_ERR && {OUT, ERR} !! {PROOF_OUT, PROOF_ERR}
  {
    LogPathsPlain();
    assert |INTENT.text| == 20 && |PROMPT.text| == 23 && |CHECKS.text| == 18 && |DIFF.text| == 15 && |MANIFEST.text| == 18;
    assert OUT.text[5] == 'o' && ERR.text[5] == 'e' && PROOF_OUT.text[11] == 'o' && PROOF_ERR.text[11] == 'e';
  }

  lemma SealedFromHolds(kept: bool)
    ensures CanSeal(SealedFrom(kept), REPORT, GUARD)
    ensures INTENT in SealedFrom(kept) <==> kept
    ensures kept ==> SealedFrom(kept)[INTENT] == IntentFile(R.REQUEST)
    ensures PROMPT in SealedFrom(kept) && SealedFrom(kept)[PROMPT] == OtherObject(map["requestId" := Null])
  {
    PathsApart();
    hide INTENT, PROMPT, CHECKS, DIFF, R.REQUEST, R.COMMAND;
    assert REPORT.items == ITEMS && |ITEMS| == 2;
    assert ITEMS[0].stdoutRef == OUT && ITEMS[0].stderrRef == ERR;
    assert ITEMS[1].stdoutRef == PROOF_OUT && ITEMS[1].stderrRef == PROOF_ERR;
    assert OUT.RunPath? && ERR.RunPath? && PROOF_OUT.RunPath? && PROOF_ERR.RunPath?;
    forall p | p in {OUT, ERR, PROOF_OUT, PROOF_ERR} ensures InRun(SealedFrom(kept), p) {
      assert p in WITHOUT_INTENT;
    }
  }

  lemma {:induction false} NothingWeighsNothing(bundle: map<string, Content>, paths: seq<string>, size: Content -> nat)
    requires forall p | p in paths :: p in bundle
    requires forall c :: size(c) == 0
    ensures TotalOf(bundle, paths, size) == 0
  {
    if paths != [] { NothingWeighsNothing(bundle, paths[..|paths| - 1], size); }
  }

  ghost function TheSeal(kept: bool): (seal: Seal)
    ensures Sealable(seal, WorldOf(kept), 1)
  {
    ChecksAre(kept);
    SealedFromHolds(kept);
    Seal(SealedFrom(kept), L.AfterAll(L.InitialSession(SetupFor(kept).criteria, SetupFor(kept).strategy), PRE + [Taken(None)]).graph)
  }

  lemma LightSealFits(from: Files, checks: Report, diff: DiffReport, plan: Plan, size: Content -> nat)
    requires CanSeal(from, checks, diff) && |checks.items| <= 126
    requires forall c :: size(c) == 0
    ensures forall p :: p in SealedBundle(from, checks, diff, plan) <==> p in BundlePaths(SourcesOf(checks))
    ensures WithinLimits(SealedBundle(from, checks, diff, plan), checks, size)
  {
    hide SealedBundle, BundlePaths, SourcesOf, CanSeal;
    SealedBundleFacts(from, checks, diff, plan, SourcesOf(checks));
    NothingWeighsNothing(SealedBundle(from, checks, diff, plan), BundlePaths(SourcesOf(checks)), size);
  }

  lemma SealIsSmall(kept: bool)
    ensures SealFits(TheSeal(kept), WorldOf(kept), 1, R.PLAN, EnvOf(kept).size)
  {
    hide R.PLAN, SealedBundle, BundlePaths, SourcesOf, SealedFrom, WithinLimits, CanSeal, L.AfterAll, L.InitialSession, Taken;
    SealedFromHolds(kept);
    ChecksAre(kept);
    assert |REPORT.items| == 2;
    LightSealFits(SealedFrom(kept), REPORT, GUARD, R.PLAN, EnvOf(kept).size);
  }

  ghost function LeftByReviewer(kept: bool): Files {
    AfterSeal(TheSeal(kept), WorldOf(kept), 1, R.PLAN, EnvOf(kept).size)
  }

  lemma SealedKeepsPlain(from: Files, checks: Report, diff: DiffReport, plan: Plan, size: Content -> nat, p: Path)
    requires CanSeal(from, checks, diff) && p.RunPath? && p != MANIFEST
    ensures p in Sealed(from, checks, diff, plan, size) <==> p in from
    ensures p in from ==> Sealed(from, checks, diff, plan, size)[p] == from[p]
  {
    hide BundleOf, Describe, SourcesOf;
  }

  lemma AfterSealKeeps(seal: Seal, world: World, plan: Plan, size: Content -> nat, p: Path)
    requires Sealable(seal, world, 1) && p.RunPath? && p != MANIFEST && p != GRAPH
    ensures p in AfterSeal(seal, world, 1, plan, size) <==> p in seal.from
    ensures p in seal.from ==> AfterSeal(seal, world, 1, plan, size)[p] == seal.from[p]
  {
    hide Sealed, CanSeal, MANIFEST, GRAPH;
    SealedKeepsPlain(seal.from, world.checks(1), world.diff(1), plan, size, p);
  }

  lemma ObjectKept(a: Files, b: Files, p: Path)
    requires (p in a <==> p in b) && (p in b ==> a[p] == b[p])
    ensures IsObject(a, p) <==> IsObject(b, p)
    ensures Document(a, p) == Document(b, p)
  {
  }

  lemma IntentBefore(kept: bool)
    ensures IsObject(SealedFrom(kept), INTENT) <==> kept
    ensures Document(SealedFrom(kept), PROMPT).Some?
  {
    SealedFromHolds(kept);
    hide SealedFrom, INTENT, PROMPT, CanSeal;
    assert map["requestId" := Null] != map[] by { assert "requestId" in map["requestId" := Null]; }
  }

  lemma IntentKept(kept: bool)
    ensures IsObject(LeftByReviewer(kept), INTENT) <==> kept
    ensures Document(LeftByReviewer(kept), PROMPT).Some?
  {
    hide AfterSeal, Sealable, SealedFrom, L.AfterAll, L.InitialSession, Taken, IsObject, Document, WorldOf, EnvOf, R.PLAN;
    KernelPathsDiffer();
    PathsApart();
    IntentBefore(kept);
    AfterSealKeeps(TheSeal(kept), WorldOf(kept), R.PLAN, EnvOf(kept).size, INTENT);
    AfterSealKeeps(TheSeal(kept), WorldOf(kept), R.PLAN, EnvOf(kept).size, PROMPT);
    ObjectKept(LeftByReviewer(kept), SealedFrom(kept), INTENT);
    ObjectKept(LeftByReviewer(kept), SealedFrom(kept), PROMPT);
  }

  // ---------------------------------------------------------------- the run

  ghost function Accepted(kept: bool): Acceptance {
    Acceptance(1, ReviewOf(kept), TheSeal(kept), LeftByReviewer(kept))
  }

  lemma PlanIsItsOwn()
    ensures R.PLAN.hash == PlanHashOf(R.PLAN.body)
  {
  }

  lemma EndIsHonest(kept: bool)
    ensures HonestEnd(Accepted(kept), WorldOf(kept), R.PLAN, EnvOf(kept))
  {
    hide R.PLAN, SealFits, CapturableLogs, LogsElsewhere, Sealed, SealedFrom, Substantiated, Document, BLOAT_CODES,
         MandatoryChecksPassed, L.AfterAll, L.InitialSession, Taken;
    LogsAreCapturable();
    SealIsSmall(kept);
    IntentKept(kept);
    ChecksAre(kept);
    PlanIsItsOwn();
  }

  ghost function PhaseFor(kept: bool): Phase {
    Phase(map[], L.AfterAll(L.InitialSession(SetupFor(kept).criteria, SetupFor(kept).strategy), PRE), R.PLAN, false,
          EnvOf(kept).size)
  }

  ghost function HistoryOf(kept: bool): History {
    History(StepsOf(kept), PRE, [ATTEMPTED], Accepted(kept), WorldOf(kept), PhaseFor(kept))
  }

  function End(kept: bool): L.Session {
    L.AfterAll(L.InitialSession(SetupFor(kept).criteria, SetupFor(kept).strategy), StepsOf(kept))
  }

  /** The directory at the end of the run. */
  ghost function FinalFiles(kept: bool): Files {
    GateFiles(LeftByReviewer(kept), ReviewOf(kept), End(kept).graph, EnvOf(kept).trace, EnvOf(kept).size,
              EnvOf(kept).repository)
  }

  lemma ReviewerAsPlanned(kept: bool)
    ensures End(kept).strategy.reviewerRequired == kept
  {
    hide L.InitialSession, L.AfterAll, StepsOf;
    StepsAreFinal(kept);
    StrategyOfRun(L.InitialSession(SetupFor(kept).criteria, SetupFor(kept).strategy), StepsOf(kept));
    StrategyAtStart(SetupFor(kept).criteria, SetupFor(kept).strategy);
  }

  lemma StrategyAtStart(criteria: seq<ObligationId>, strategy: L.Strategy)
    ensures L.InitialSession(criteria, strategy).strategy == strategy
  {
  }

  lemma LastStepOfCycle(kept: bool)
    requires CyclePassed(WorldOf(kept), 1, R.PLAN)
    ensures |StepsOf(kept)| == 4
    ensures StepsOf(kept)[3] == CycleStep(WorldOf(kept), 1, R.PLAN, Some(ReviewOf(kept)))
  {
    ChecksAre(kept);
    hide R.PLAN, CyclePassed;
  }

  lemma AcceptanceHolds(kept: bool, written: Files, g: Graph)
    requires written == LeftByReviewer(kept)[REVIEW := ReviewFile(ReviewOf(kept))][GRAPH := GraphFile(g)]
    ensures |StepsOf(kept)| == 4
    ensures AcceptedOn(Accepted(kept), WorldOf(kept), R.PLAN, EnvOf(kept).size, kept, written, g, StepsOf(kept)[3])
  {
    hide R.PLAN, REPORT, SealedFrom, Sealed, CyclePassed, StepsOf, Sealable, TheSeal, AfterSeal;
    CyclePasses(kept);
    LastStepOfCycle(kept);
  }

  lemma HistoryReachesGate(kept: bool)
    ensures ReachedGate(HistoryOf(kept), SetupFor(kept), EnvOf(kept), FinalFiles(kept))
  {
    hide R.PLAN, REPORT, AcceptedOn, FinalSteps, NoVerificationIn, LeftByReviewer, StepsOf, GateFiles, TasksDone,
         L.AfterAll, L.InitialSession, R.TASK, WorldOf, TheSeal, RequiresAll;
    StepsAreFinal(kept);
    ReviewerAsPlanned(kept);
    TaskIsDone(kept);
    AllIsRequired(kept);
    AcceptanceHolds(kept, LeftByReviewer(kept)[REVIEW := ReviewFile(ReviewOf(kept))][GRAPH := GraphFile(End(kept).graph)],
                    End(kept).graph);
  }

  lemma RunIsProven(kept: bool)
    ensures Shows(EnvOf(kept).view) && ReachedGate(HistoryOf(kept), SetupFor(kept), EnvOf(kept), FinalFiles(kept))
    ensures IsObject(FinalFiles(kept), INTENT) <==> kept
    ensures TruthProven(FinalFiles(kept), true, EnvOf(kept).view, EnvOf(kept).size, EnvOf(kept).repository)
  {
    hide R.PLAN, REPORT, ReachedGate, HonestEnd, Shows, GateFiles, StepsOf, TruthProven, LeftByReviewer, Sealed, Document,
         NamedApart, L.IdsOf, TheSeal, WorldOf, R.TASK, End, Provable, Authentic, Conclusive;
    ViewShows();
    HistoryReachesGate(kept);
    EndIsHonest(kept);
    IntentKept(kept);
    NameIsNamed();
    PlanProvesAll(kept);
    GateFilesHold(LeftByReviewer(kept), ReviewOf(kept), End(kept).graph, EnvOf(kept).trace, EnvOf(kept).size,
                  EnvOf(kept).repository);
    HonestRunIsProven(HistoryOf(kept), SetupFor(kept), EnvOf(kept), FinalFiles(kept));
  }

  /** A prepared request whose only task is done at its first attempt, whose final checks pass, and which an independent
      review approves, ends PROVEN with its intent contract in place: every hypothesis of the tracing theorem holds, and
      the request has a list item for it to speak of. */
  lemma WitnessRunIsProven()
    ensures T.Started(R.REQUEST, R.SPACE, [R.ITEM], R.MARKS, R.FOLD, R.CONTRACT, R.REPOSITORY, [R.TASK], R.ThePrepared())
    ensures T.SetUpFrom(SetupFor(true), R.ThePrepared()) && Shows(EnvOf(true).view)
    ensures ReachedGate(HistoryOf(true), SetupFor(true), EnvOf(true), FinalFiles(true))
    ensures IsObject(FinalFiles(true), INTENT)
    ensures TruthProven(FinalFiles(true), true, EnvOf(true).view, EnvOf(true).size, EnvOf(true).repository)
    ensures Clauses.SplitLines(R.REQUEST) == ["- a"] && T.IsItem("- a", R.SPACE)
    ensures R.FOLD(T.ItemText("- a", R.SPACE)) != ""
  {
    hide T.Started, ReachedGate, TruthProven, Shows, T.IsItem, T.ItemText, Clauses.SplitLines, IsObject, EnvOf, FinalFiles,
         R.ThePrepared;
    R.RequestIsStarted();
    RunIsProven(true);
    R.OneLine();
    R.ItemOfLine();
  }

  /** The same request on the fast lane, with an intent contract that the checks do not leave in place, ends PROVEN on the
      kernel's own review, although its intent and simplicity obligations are open. */
  lemma FastLaneWitness()
    ensures ReachedGate(HistoryOf(false), SetupFor(false), EnvOf(false), FinalFiles(false))
    ensures HistoryOf(false).accepted.review.fastLane && !SetupFor(false).strategy.reviewerRequired
    ensures !AllClosed(End(false).graph)
    ensures TruthProven(FinalFiles(false), true, EnvOf(false).view, EnvOf(false).size, EnvOf(false).repository)
  {
    RunIsProven(false);
    hide ReachedGate, TruthProven, Shows, FinalFiles, NamedApart, L.AfterAll, L.InitialSession, AllClosed, StepsOf, L.IdsOf,
         Concluded, PassedIn, R.ThePrepared;
    NameIsNamed();
    RunConcluded(HistoryOf(false), SetupFor(false), EnvOf(false), FinalFiles(false));
    ClosesExactly(SetupFor(false).criteria, SetupFor(false).strategy, PRE, StepsOf(false));
  }
}
