/** What closed obligations mean at the end of any run of the kernel. */
module ObligationTheorems {
  import opened Common
  import opened EvidencePolicy
  import opened ProofGraph
  import opened VerificationPlan
  import opened Documents
  import opened ObligationLifecycle

  // ---------------------------------------------------------------- closed exactly when witnessed

  /** Evidence is never ahead of its obligation. */
  predicate Timely(g: Graph) {
    forall e | e in g.evidence :: Has(g, e.obligation) && e.revision <= RevisionOf(g, e.obligation)
  }

  /** The converse of Witnessed: an obligation with qualifying evidence is closed. */
  ghost predicate Complete(g: Graph) {
    forall i: nat, e | FirstOf(g.obligations, i) && e in g.evidence && Qualifies(e, g.obligations[i], g.runId) ::
      g.obligations[i].status == Closed
  }

  lemma FirstIsFound(obs: seq<Obligation>, i: nat)
    requires FirstOf(obs, i)
    ensures Find(obs, obs[i].id) == i
  {
  }

  lemma RecordedKeepsTimely(g: Graph, e: Evidence)
    requires Timely(g) && Recorded(g, e).Ok? && e.revision <= RevisionOf(g, e.obligation)
    ensures Timely(Recorded(g, e).value)
  {
    var h := Recorded(g, e).value;
    forall id ensures Find(h.obligations, id) == Find(g.obligations, id) {
      FindUnchanged(g.obligations, h.obligations, id);
    }
  }

  lemma RecordedEvidenceOnly(g: Graph, e: Evidence)
    requires Recorded(g, e).Ok?
    ensures Recorded(g, e).value.evidence == g.evidence + [e] && Recorded(g, e).value.runId == g.runId
  {
  }

  lemma RecordedKeepsComplete(g: Graph, e: Evidence)
    requires Complete(g) && Timely(g) && Recorded(g, e).Ok?
    requires e.revision <= RevisionOf(g, e.obligation)
    ensures Complete(Recorded(g, e).value) && Timely(Recorded(g, e).value)
  {
    RecordedKeepsTimely(g, e);
    RecordedSameRevisions(g, e);
    RecordedEvidenceOnly(g, e);
    hide Timely, RevisionOf, Has, Recorded;
    var h := Recorded(g, e).value;
    forall i: nat, w | FirstOf(h.obligations, i) && w in h.evidence && Qualifies(w, h.obligations[i], h.runId)
      ensures h.obligations[i].status == Closed
    {
      assert FirstOf(g.obligations, i);
      RecordedCloses(g, e, i);
      assert w in g.evidence || w == e;
      assert Qualifies(w, g.obligations[i], g.runId);
    }
  }

  /** The same obligations, at the same revisions. */
  predicate SameRevisions(g: Graph, h: Graph) {
    && |h.obligations| == |g.obligations|
    && forall i | 0 <= i < |g.obligations| ::
         h.obligations[i].id == g.obligations[i].id && h.obligations[i].revision == g.obligations[i].revision
  }

  lemma RecordedSameRevisions(g: Graph, e: Evidence)
    requires Recorded(g, e).Ok?
    ensures SameRevisions(g, Recorded(g, e).value)
  {
  }

  lemma {:induction false} BatchKeepsComplete(g: Graph, es: seq<Evidence>)
    requires Complete(g) && Timely(g)
    requires forall e | e in es :: e.revision <= RevisionOf(g, e.obligation)
    ensures Complete(RecordAll(g, es)) && Timely(RecordAll(g, es)) && SameRevisions(g, RecordAll(g, es))
  {
    if es != [] {
      var init, last := es[..|es| - 1], es[|es| - 1];
      BatchKeepsComplete(g, init);
      var before := RecordAll(g, init);
      FindUnchanged(g.obligations, before.obligations, last.obligation);
      assert last in es;
      if Recorded(before, last).Ok? {
        RecordedKeepsComplete(before, last);
        RecordedSameRevisions(before, last);
      }
    }
  }

  /** Obligations may be reopened at a higher revision, or added without evidence; nothing else changes. */
  predicate Reopens(g: Graph, h: Graph) {
    && h.evidence == g.evidence && h.runId == g.runId
    && |g.obligations| <= |h.obligations|
    && forall i | 0 <= i < |g.obligations| ::
         h.obligations[i] == g.obligations[i]
         || (h.obligations[i].id == g.obligations[i].id && h.obligations[i].revision > g.obligations[i].revision)
  }

  lemma PreparedReopens(s: Session, step: Step)
    ensures Reopens(s.graph, Prepared(s, step).graph)
  {
  }

  lemma ReopensKeepsTimely(g: Graph, h: Graph)
    requires Timely(g) && Reopens(g, h)
    ensures Timely(h)
  {
    forall e | e in h.evidence ensures Has(h, e.obligation) && e.revision <= RevisionOf(h, e.obligation) {
      FindUnchanged(g.obligations, h.obligations, e.obligation);
    }
  }

  lemma ReopensKeepsComplete(g: Graph, h: Graph)
    requires Complete(g) && Timely(g) && Reopens(g, h)
    ensures Complete(h)
  {
    forall i: nat, e | FirstOf(h.obligations, i) && e in h.evidence && Qualifies(e, h.obligations[i], h.runId)
      ensures h.obligations[i].status == Closed
    {
      var id := h.obligations[i].id;
      assert Has(g, id) && e.revision <= RevisionOf(g, id);
      FindUnchanged(g.obligations, h.obligations, id);
      FirstIsFound(h.obligations, i);
      assert FirstOf(g.obligations, i);
      assert h.obligations[i].revision <= g.obligations[i].revision;
    }
  }

  lemma StepEvidenceIsTimely(s: Session, step: Step)
    ensures forall e | e in StepEvidence(s, step) :: e.revision <= RevisionOf(Prepared(s, step).graph, e.obligation)
  {
    if step.Verified? {
      var rs := Requests(s.graph, step.v);
      forall e | e in StepEvidence(s, step) ensures e.revision <= RevisionOf(s.graph, e.obligation) {
        var i :| 0 <= i < |rs| && NumberedEvidence(s.graph, rs)[i] == e;
      }
    }
  }

  lemma {:induction false} RunIsComplete(criteria: seq<ObligationId>, strategy: Strategy, steps: seq<Step>)
    ensures var g := AfterAll(InitialSession(criteria, strategy), steps).graph; Complete(g) && Timely(g)
  {
    var s := InitialSession(criteria, strategy);
    if steps != [] {
      var n := |steps| - 1;
      RunIsComplete(criteria, strategy, steps[..n]);
      var before := AfterAll(s, steps[..n]);
      PreparedReopens(before, steps[n]);
      ReopensKeepsTimely(before.graph, Prepared(before, steps[n]).graph);
      ReopensKeepsComplete(before.graph, Prepared(before, steps[n]).graph);
      StepEvidenceIsTimely(before, steps[n]);
      BatchKeepsComplete(Prepared(before, steps[n]).graph, StepEvidence(before, steps[n]));
    }
  }

  /** Over every run, activations included: an obligation is closed exactly when the evidence recorded so far
      holds a piece that qualifies for it at its present revision. */
  lemma ClosedExactlyWhenWitnessed(criteria: seq<ObligationId>, strategy: Strategy, steps: seq<Step>, i: nat)
    requires FirstOf(AfterAll(InitialSession(criteria, strategy), steps).graph.obligations, i)
    ensures var g := AfterAll(InitialSession(criteria, strategy), steps).graph;
            g.obligations[i].status == Closed <==> exists e | e in g.evidence :: Qualifies(e, g.obligations[i], g.runId)
  {
    RunInvariant(criteria, strategy, steps);
    RunIsComplete(criteria, strategy, steps);
  }

  // ---------------------------------------------------------------- who closes what

  /** What the verification that closed this obligation must have shown. */
  predicate Earned(id: ObligationId, v: Verification) {
    match id
    case IntentAlignmentId => ModelReviewed(v) && OfReview(v.review.value.verdict) == EvidencePass
    case SimplicityId => ModelReviewed(v) && OfSimplicity(v.review.value.simplicity) == EvidencePass
    case DeterministicChecksId => v.checks == ReportPass
    case RecoveryProgressId => v.checks == ReportPass
    case LowerScopeIntegrityId => v.diff == ReportPass || (id in v.passed && v.checks == ReportPass)
    case _ => id in v.passed && v.checks == ReportPass
  }

  lemma RequestKinds(g: Graph, v: Verification, r: Request)
    requires r in Requests(g, v)
    ensures r.id == RecoveryProgressId ==> Has(g, RecoveryProgressId)
    ensures r.authority == ModelReview ==>
              ModelReviewed(v) && ((r.id == IntentAlignmentId && r.verdict == IntentVerdict(v))
                                   || (r.id == SimplicityId && r.verdict == SimplicityEvidence(v)))
    ensures r.authority == DiffGuard ==>
              r.id in {LowerScopeIntegrityId, IntentAlignmentId, SimplicityId}
              && (r.id == LowerScopeIntegrityId ==> r.verdict == OfReport(v.diff))
    ensures r.authority == DeterministicCheck ==>
              r.verdict == OfReport(v.checks) && (r.id in v.passed || r.id in {DeterministicChecksId, RecoveryProgressId})
    ensures r.authority in {ModelReview, DiffGuard, DeterministicCheck}
  {
    if r in CriterionRequests(g.obligations, v.passed, OfReport(v.checks)) {
      var i :| 0 <= i < |g.obligations| && g.obligations[i].id == r.id;
      assert Find(g.obligations, r.id) <= i;
    }
  }

  lemma WhoCloses(o: Obligation, g: Graph, v: Verification, e: Evidence)
    requires o.claim == DefaultClaim(o.id) && Qualifies(e, o, "")
    requires e in NumberedEvidence(g, Requests(g, v))
    ensures Earned(o.id, v) && e.revision == RevisionOf(g, o.id)
    ensures o.id == RecoveryProgressId ==> Has(g, RecoveryProgressId)
  {
    var rs := Requests(g, v);
    var i :| 0 <= i < |rs| && NumberedEvidence(g, rs)[i] == e;
    RequestKinds(g, v, rs[i]);
  }

  /** The request by which a verification closes what it earned. */
  function ClosingRequest(id: ObligationId, v: Verification): Request {
    match id
    case IntentAlignmentId => Request(id, ModelReview, EvidencePass)
    case SimplicityId => Request(id, ModelReview, EvidencePass)
    case LowerScopeIntegrityId => Request(id, if v.diff == ReportPass then DiffGuard else DeterministicCheck, EvidencePass)
    case _ => Request(id, DeterministicCheck, EvidencePass)
  }

  lemma EarnedIsRequested(g: Graph, v: Verification, i: nat)
    requires i < |g.obligations| && Earned(g.obligations[i].id, v)
    ensures ClosingRequest(g.obligations[i].id, v) in Requests(g, v)
  {
    var id := g.obligations[i].id;
    assert Has(g, id);
    if id in v.passed && v.checks == ReportPass {
      assert Request(id, DeterministicCheck, EvidencePass) in CriterionRequests(g.obligations, v.passed, OfReport(v.checks));
    }
  }

  lemma EarnedQualifies(g: Graph, v: Verification, i: nat, n: nat)
    requires FirstOf(g.obligations, i) && g.obligations[i].claim == DefaultClaim(g.obligations[i].id)
    requires Earned(g.obligations[i].id, v)
    ensures Qualifies(EvidenceOf(g, ClosingRequest(g.obligations[i].id, v), n), g.obligations[i], "")
  {
    FirstIsFound(g.obligations, i);
  }

  lemma EarnedHasEvidence(g: Graph, v: Verification, i: nat)
    requires FirstOf(g.obligations, i) && g.obligations[i].claim == DefaultClaim(g.obligations[i].id)
    requires Earned(g.obligations[i].id, v)
    ensures exists e | e in NumberedEvidence(g, Requests(g, v)) :: Qualifies(e, g.obligations[i], "")
  {
    hide Requests, Qualifies, Earned, EvidenceOf;
    var o, rs := g.obligations[i], Requests(g, v);
    EarnedIsRequested(g, v, i);
    var k :| 0 <= k < |rs| && rs[k] == ClosingRequest(o.id, v);
    EarnedQualifies(g, v, i, |g.evidence| + 1 + k);
    assert NumberedEvidence(g, rs)[k] in NumberedEvidence(g, rs);
  }

  /** One verification closes exactly the obligations it earned, whatever else it recorded. */
  lemma VerificationCloses(s: Session, v: Verification, i: nat)
    requires Kernel(s.graph) && FirstOf(s.graph.obligations, i)
    ensures var h := After(s, Verified(v)).graph;
            && SameFrame(s.graph, h)
            && (h.obligations[i].status == Closed <==>
                  s.graph.obligations[i].status == Closed || Earned(s.graph.obligations[i].id, v))
  {
    hide Requests, Qualifies, Earned, RecordAll, NumberedEvidence;
    var g, o := s.graph, s.graph.obligations[i];
    var es := NumberedEvidence(g, Requests(g, v));
    ClosedIff(g, es, i);
    if Earned(o.id, v) { EarnedHasEvidence(g, v, i); }
    forall e | e in es && Qualifies(e, o, "") ensures Earned(o.id, v) {
      WhoCloses(o, g, v, e);
    }
  }

  predicate UniqueIds(g: Graph) {
    forall i, j | 0 <= i < j < |g.obligations| :: g.obligations[i].id != g.obligations[j].id
  }

  /** Step k of the run is a verification that earned this obligation's closing at the given revision. */
  ghost predicate EarnedAt(id: ObligationId, revision: int, s: Session, steps: seq<Step>, k: nat) {
    && k < |steps| && steps[k].Verified? && Earned(id, steps[k].v)
    && RevisionOf(AfterAll(s, steps[..k]).graph, id) == revision
    && (id == RecoveryProgressId ==> Has(AfterAll(s, steps[..k]).graph, id))
  }

  ghost predicate WasEarned(id: ObligationId, revision: int, s: Session, steps: seq<Step>) {
    exists k :: EarnedAt(id, revision, s, steps, k)
  }

  lemma StepEarns(o: Obligation, e: Evidence, s: Session, steps: seq<Step>, k: nat)
    requires k < |steps| && RecordedAt(e, s, steps, k)
    requires o.claim == DefaultClaim(o.id) && o.id != PromptContractId && Qualifies(e, o, "")
    ensures EarnedAt(o.id, o.revision, s, steps, k)
  {
    hide AfterAll, Requests, NumberedEvidence, Earned, RevisionOf, Has;
    var before := AfterAll(s, steps[..k]);
    match steps[k] {
      case Verified(v) => WhoCloses(o, before.graph, v, e);
      case PromptApplied(_) =>
      case RecoveryActivated =>
    }
  }

  lemma WitnessEarns(g: Graph, s: Session, steps: seq<Step>, o: Obligation)
    requires Kernel(g) && Witnessed(g) && Provenance(g, s, steps)
    requires o in g.obligations && o.status == Closed && o.id != PromptContractId
    ensures WasEarned(o.id, o.revision, s, steps)
  {
    var i :| 0 <= i < |g.obligations| && g.obligations[i] == o;
    var e :| e in g.evidence && Qualifies(e, g.obligations[i], g.runId);
    var k :| 0 <= k < |steps| && RecordedAt(e, s, steps, k);
    StepEarns(o, e, s, steps, k);
  }

  lemma ClosedWasEarned(criteria: seq<ObligationId>, strategy: Strategy, steps: seq<Step>, o: Obligation)
    requires o in AfterAll(InitialSession(criteria, strategy), steps).graph.obligations
    requires o.status == Closed && o.id != PromptContractId
    ensures WasEarned(o.id, o.revision, InitialSession(criteria, strategy), steps)
  {
    RunInvariant(criteria, strategy, steps);
    var s := InitialSession(criteria, strategy);
    WitnessEarns(AfterAll(s, steps).graph, s, steps, o);
  }

  // ---------------------------------------------------------------- recovery

  lemma InitialRecovery(criteria: seq<ObligationId>, strategy: Strategy)
    ensures Has(InitialSession(criteria, strategy).graph, RecoveryProgressId) <==> RecoveryProgressId in criteria
  {
    var obs := InitialSession(criteria, strategy).graph.obligations;
    if RecoveryProgressId in criteria {
      var i :| 0 <= i < |criteria| && criteria[i] == RecoveryProgressId;
      assert obs[i + 4].id == RecoveryProgressId;
    }
    var k := Find(obs, RecoveryProgressId);
    if k < |obs| { assert criteria[k - 4] == RecoveryProgressId; }
  }

  lemma StepRecovery(s: Session, step: Step)
    requires Kernel(s.graph)
    ensures Has(After(s, step).graph, RecoveryProgressId) <==>
              Has(s.graph, RecoveryProgressId) || step == RecoveryActivated
  {
    var p := Prepared(s, step).graph;
    PreparedGrows(s, step);
    PreparedRecovery(s, step);
    ClosedIff(p, StepEvidence(s, step), 0);
    FindUnchanged(p.obligations, After(s, step).graph.obligations, RecoveryProgressId);
  }

  lemma {:induction false} KernelOverSteps(s: Session, steps: seq<Step>)
    requires Kernel(s.graph) && Witnessed(s.graph)
    ensures Kernel(AfterAll(s, steps).graph) && Witnessed(AfterAll(s, steps).graph)
  {
    if steps != [] {
      var n := |steps| - 1;
      KernelOverSteps(s, steps[..n]);
      StepKeeps(AfterAll(s, steps[..n]), steps[n]);
    }
  }

  lemma InInitOrLast<T>(xs: seq<T>, x: T)
    requires xs != []
    ensures x in xs <==> x in xs[..|xs| - 1] || x == xs[|xs| - 1]
  {
    assert xs == xs[..|xs| - 1] + [xs[|xs| - 1]];
  }

  predicate Recovering(s: Session) {
    Has(s.graph, RecoveryProgressId)
  }

  lemma {:induction false} RecoveryOverSteps(s: Session, steps: seq<Step>)
    requires Kernel(s.graph) && Witnessed(s.graph)
    ensures Recovering(AfterAll(s, steps)) <==> RecoveryActivated in steps || Recovering(s)
  {
    if steps != [] {
      var n := |steps| - 1;
      RecoveryOverSteps(s, steps[..n]);
      KernelOverSteps(s, steps[..n]);
      StepRecovery(AfterAll(s, steps[..n]), steps[n]);
      InInitOrLast(steps, RecoveryActivated);
    }
  }

  lemma RecoveryPresence(criteria: seq<ObligationId>, strategy: Strategy, steps: seq<Step>)
    ensures Has(AfterAll(InitialSession(criteria, strategy), steps).graph, RecoveryProgressId) <==>
              RecoveryActivated in steps || RecoveryProgressId in criteria
  {
    InitialRecovery(criteria, strategy);
    RecoveryOverSteps(InitialSession(criteria, strategy), steps);
  }

  lemma PreparedRecovery(s: Session, step: Step)
    ensures Has(Prepared(s, step).graph, RecoveryProgressId) <==>
              Has(s.graph, RecoveryProgressId) || step == RecoveryActivated
  {
    var g, h := s.graph.obligations, Prepared(s, step).graph.obligations;
    FindUnchanged(g, h, RecoveryProgressId);
    if step == RecoveryActivated && !Has(s.graph, RecoveryProgressId) {
      assert h[|g|].id == RecoveryProgressId;
      assert Find(h, RecoveryProgressId) <= |g|;
    }
  }

  /** Once recovery has been activated in a run, whatever was recorded since, activating it again changes nothing. */
  lemma {:induction false} ActivationIsIdempotent(criteria: seq<ObligationId>, strategy: Strategy, steps: seq<Step>)
    requires RecoveryActivated in steps
    ensures var s := AfterAll(InitialSession(criteria, strategy), steps); Activated(s) == s
    ensures AfterAll(InitialSession(criteria, strategy), steps).strategy == Upgraded(strategy, true)
  {
    RecoveryPresence(criteria, strategy, steps);
    StrategyOfRun(InitialSession(criteria, strategy), steps);
  }

  function Upgraded(strategy: Strategy, activated: bool): Strategy {
    if activated && (strategy.tier == T0 || strategy.tier == T1) then Strategy(T2, true) else strategy
  }

  lemma StrategyOfStep(s: Session, step: Step)
    ensures After(s, step).strategy == Upgraded(s.strategy, step == RecoveryActivated)
  {
  }

  lemma {:induction false} StrategyOfRun(s: Session, steps: seq<Step>)
    ensures AfterAll(s, steps).strategy == Upgraded(s.strategy, RecoveryActivated in steps)
  {
    if steps != [] {
      StrategyOfRun(s, steps[..|steps| - 1]);
      StrategyOfStep(AfterAll(s, steps[..|steps| - 1]), steps[|steps| - 1]);
      InInitOrLast(steps, RecoveryActivated);
    }
  }

  // ---------------------------------------------------------------- a run with nothing left open

  ghost predicate AllClosed(g: Graph) {
    forall o | o in g.obligations :: o.required ==> o.status == Closed
  }

  /** An independent model review approved both the intent and the simplicity at their final revisions,
      the checks passed, and the plan's gate passed every criterion. */
  ghost predicate EverythingEarned(criteria: seq<ObligationId>, g: Graph, s: Session, steps: seq<Step>) {
    && WasEarned(IntentAlignmentId, RevisionOf(g, IntentAlignmentId), s, steps)
    && WasEarned(SimplicityId, RevisionOf(g, SimplicityId), s, steps)
    && WasEarned(DeterministicChecksId, RevisionOf(g, DeterministicChecksId), s, steps)
    && WasEarned(LowerScopeIntegrityId, RevisionOf(g, LowerScopeIntegrityId), s, steps)
    && (forall id | id in criteria && id != PromptContractId :: exists revision :: WasEarned(id, revision, s, steps))
  }

  lemma ObligationEarned(g: Graph, s: Session, steps: seq<Step>, i: nat)
    requires Kernel(g) && Witnessed(g) && Provenance(g, s, steps) && AllClosed(g)
    requires i < |g.obligations| && g.obligations[i].id != PromptContractId
    ensures WasEarned(g.obligations[i].id, g.obligations[i].revision, s, steps)
  {
    assert g.obligations[i] in g.obligations;
    WitnessEarns(g, s, steps, g.obligations[i]);
  }

  lemma KernelFinds(g: Graph)
    requires Kernel(g)
    ensures RevisionOf(g, IntentAlignmentId) == g.obligations[0].revision
    ensures RevisionOf(g, DeterministicChecksId) == g.obligations[1].revision
    ensures RevisionOf(g, LowerScopeIntegrityId) == g.obligations[2].revision
    ensures RevisionOf(g, SimplicityId) == g.obligations[3].revision
  {
    FirstIsFound(g.obligations, 0);
    FirstIsFound(g.obligations, 1);
    FirstIsFound(g.obligations, 2);
    FirstIsFound(g.obligations, 3);
  }

  lemma AllEarned(criteria: seq<ObligationId>, g: Graph, h: Graph, s: Session, steps: seq<Step>)
    requires Kernel(g) && Witnessed(g) && Provenance(g, s, steps) && Grows(h, g) && AllClosed(g)
    requires |h.obligations| == |criteria| + 4
    requires forall i | 0 <= i < |criteria| :: h.obligations[i + 4].id == criteria[i]
    ensures EverythingEarned(criteria, g, s, steps)
  {
    KernelFinds(g);
    ObligationEarned(g, s, steps, 0);
    ObligationEarned(g, s, steps, 1);
    ObligationEarned(g, s, steps, 2);
    ObligationEarned(g, s, steps, 3);
    forall id | id in criteria && id != PromptContractId ensures exists revision :: WasEarned(id, revision, s, steps) {
      var i :| 0 <= i < |criteria| && criteria[i] == id;
      ObligationEarned(g, s, steps, i + 4);
      assert WasEarned(id, g.obligations[i + 4].revision, s, steps);
    }
  }

  /** The checks passed at some step after recovery was activated. */
  ghost predicate PassedAfterRecovery(steps: seq<Step>) {
    exists a, k | 0 <= a < k < |steps| ::
      steps[a] == RecoveryActivated && steps[k].Verified? && steps[k].v.checks == ReportPass
  }

  ghost predicate PassedWithRecovery(s: Session, steps: seq<Step>, k: nat) {
    && k < |steps| && steps[k].Verified? && steps[k].v.checks == ReportPass
    && Has(AfterAll(s, steps[..k]).graph, RecoveryProgressId)
  }

  lemma RecoveryWasEarned(g: Graph, s: Session, steps: seq<Step>)
    requires Kernel(g) && Witnessed(g) && Provenance(g, s, steps) && AllClosed(g) && Has(g, RecoveryProgressId)
    ensures exists k :: PassedWithRecovery(s, steps, k)
  {
    var i := Find(g.obligations, RecoveryProgressId);
    ObligationEarned(g, s, steps, i);
    var k :| EarnedAt(RecoveryProgressId, g.obligations[i].revision, s, steps, k);
    assert PassedWithRecovery(s, steps, k);
  }

  lemma ActivatedBefore(criteria: seq<ObligationId>, strategy: Strategy, steps: seq<Step>, k: nat)
    requires PassedWithRecovery(InitialSession(criteria, strategy), steps, k) && RecoveryProgressId !in criteria
    ensures PassedAfterRecovery(steps)
  {
    RecoveryPresence(criteria, strategy, steps[..k]);
    var a :| 0 <= a < k && steps[..k][a] == RecoveryActivated;
    assert steps[a] == RecoveryActivated;
  }

  lemma RecoveryClosedAfterwards(criteria: seq<ObligationId>, strategy: Strategy, g: Graph, s: Session, steps: seq<Step>)
    requires s == InitialSession(criteria, strategy)
    requires Kernel(g) && Witnessed(g) && Provenance(g, s, steps) && AllClosed(g) && Has(g, RecoveryProgressId)
    requires RecoveryProgressId !in criteria
    ensures PassedAfterRecovery(steps)
  {
    RecoveryWasEarned(g, s, steps);
    var k :| PassedWithRecovery(s, steps, k);
    ActivatedBefore(criteria, strategy, steps, k);
  }

  /** A run that ends with every required obligation closed earned them all, the intent and the simplicity by
      an independent model review; and if recovery was ever activated, the checks passed afterwards. */
  lemma AllClosedMeans(criteria: seq<ObligationId>, strategy: Strategy, steps: seq<Step>)
    requires AllClosed(AfterAll(InitialSession(criteria, strategy), steps).graph)
    ensures var s := InitialSession(criteria, strategy);
            EverythingEarned(criteria, AfterAll(s, steps).graph, s, steps)
    ensures RecoveryActivated in steps && RecoveryProgressId !in criteria ==> PassedAfterRecovery(steps)
  {
    var s := InitialSession(criteria, strategy);
    RunInvariant(criteria, strategy, steps);
    AllEarned(criteria, AfterAll(s, steps).graph, s.graph, s, steps);
    if RecoveryActivated in steps && RecoveryProgressId !in criteria {
      RecoveryPresence(criteria, strategy, steps);
      RecoveryClosedAfterwards(criteria, strategy, AfterAll(s, steps).graph, s, steps);
    }
  }

  /** A run whose only reviews were deterministic fast-lane ones always leaves the intent obligation open. */
  lemma FastLaneLeavesIntentOpen(criteria: seq<ObligationId>, strategy: Strategy, steps: seq<Step>)
    requires forall k | 0 <= k < |steps| && steps[k].Verified? :: !ModelReviewed(steps[k].v)
    ensures var g := AfterAll(InitialSession(criteria, strategy), steps).graph;
            g.obligations != [] && g.obligations[0].id == IntentAlignmentId && g.obligations[0].status == Open
  {
    RunInvariant(criteria, strategy, steps);
    var s := InitialSession(criteria, strategy);
    var o := AfterAll(s, steps).graph.obligations[0];
    if o.status == Closed {
      ClosedWasEarned(criteria, strategy, steps, o);
    }
  }

  // ---------------------------------------------------------------- escalation

  /** On a light tier, activating recovery hands both semantic obligations to a model review: whichever a deterministic
      guard was to close is open again at its next revision, and the strategy asks for a reviewer. On the other tiers
      nothing is reopened. No other obligation changes. */
  lemma EscalationReopens(s: Session)
    requires Kernel(s.graph)
    ensures var light, before, after := s.strategy.tier == T0 || s.strategy.tier == T1, s.graph, Activated(s).graph;
            && (light ==> Activated(s).strategy == Strategy(T2, true))
            && (!light ==> Activated(s).strategy == s.strategy)
            && |after.obligations| >= |before.obligations| && after.evidence == before.evidence
            && forall i | 0 <= i < |before.obligations| ::
                 var o, p := before.obligations[i], after.obligations[i];
                 if light && (o.id == IntentAlignmentId || o.id == SimplicityId) && o.requiredAuthority != ModelReview then
                   && p.requiredAuthority == ModelReview && p.status == Open && p.revision == o.revision + 1
                   && p == o.(requiredAuthority := p.requiredAuthority, status := p.status, revision := p.revision,
                              lastReason := p.lastReason)
                 else p == o
    ensures s.strategy.tier == T0 || s.strategy.tier == T1 ==>
              && Activated(s).graph.obligations[0].requiredAuthority == ModelReview
              && Activated(s).graph.obligations[3].requiredAuthority == ModelReview
  {
  }
}
