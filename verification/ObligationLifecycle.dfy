/** How the obligations of a run are opened, escalated and closed, as values: the run is a list of steps. */
module ObligationLifecycle {
  import opened Common
  import opened EvidencePolicy
  import opened ProofGraph
  import opened VerificationPlan
  import opened Documents

  datatype Tier = T0 | T1 | T2 | T3

  datatype Strategy = Strategy(tier: Tier, reviewerRequired: bool)

  datatype Session = Session(graph: Graph, strategy: Strategy)

  /** The obligation a criterion id names; the kernel's own ids can be named too. */
  function IdOf(name: string): ObligationId {
    if name == "PROMPT-CONTRACT" then PromptContractId
    else if name == "intent-alignment" then IntentAlignmentId
    else if name == "scope-integrity" then LowerScopeIntegrityId
    else if name == "SCOPE-INTEGRITY" then UpperScopeIntegrityId
    else if name == "simplicity" then SimplicityId
    else if name == "deterministic-checks" then DeterministicChecksId
    else if name == "recovery-progress" then RecoveryProgressId
    else Named(name)
  }

  function IdsOf(names: seq<string>): (ids: seq<ObligationId>)
    ensures |ids| == |names| && forall i | 0 <= i < |ids| :: ids[i] == IdOf(names[i])
  {
    seq(|names|, i requires 0 <= i < |names| => IdOf(names[i]))
  }

  function ReviewAuthority(tier: Tier): Authority {
    if tier == T2 || tier == T3 then ModelReview else DiffGuard
  }

  function InitialObligations(criteria: seq<ObligationId>, tier: Tier): (obs: seq<Obligation>)
    ensures |obs| == |criteria| + 4
    ensures forall i | 0 <= i < |criteria| :: obs[i + 4] == NewObligation(criteria[i], DeterministicCheck)
  {
    [NewObligation(IntentAlignmentId, ReviewAuthority(tier)),
     NewObligation(DeterministicChecksId, DeterministicCheck),
     NewObligation(LowerScopeIntegrityId, DiffGuard),
     NewObligation(SimplicityId, ReviewAuthority(tier))]
    + seq(|criteria|, i requires 0 <= i < |criteria| => NewObligation(criteria[i], DeterministicCheck))
  }

  function InitialSession(criteria: seq<ObligationId>, strategy: Strategy): Session {
    Session(Graph(InitialObligations(criteria, strategy.tier), [], ""), strategy)
  }

  predicate Has(g: Graph, id: ObligationId) {
    Find(g.obligations, id) < |g.obligations|
  }

  // ---------------------------------------------------------------- recovery

  function Escalate(o: Obligation): Obligation {
    if (o.id == IntentAlignmentId || o.id == SimplicityId) && o.requiredAuthority != ModelReview then
      o.(requiredAuthority := ModelReview, revision := o.revision + 1, status := Open,
         lastReason := Some(RecoveryEscalatedWorkload))
    else o
  }

  function EscalateAll(obs: seq<Obligation>): (r: seq<Obligation>)
    ensures |r| == |obs| && forall i | 0 <= i < |obs| :: r[i] == Escalate(obs[i])
  {
    seq(|obs|, i requires 0 <= i < |obs| => Escalate(obs[i]))
  }

  function WithRecovery(g: Graph): Graph {
    if Has(g, RecoveryProgressId) then g
    else g.(obligations := g.obligations + [NewObligation(RecoveryProgressId, DeterministicCheck)])
  }

  function Reclassified(s: Session): Session {
    if s.strategy.tier == T0 || s.strategy.tier == T1 then
      Session(s.graph.(obligations := EscalateAll(s.graph.obligations)), Strategy(T2, true))
    else s
  }

  function Activated(s: Session): Session {
    Reclassified(s.(graph := WithRecovery(s.graph)))
  }

  // ---------------------------------------------------------------- prompt contract

  function WithPromptContract(g: Graph): (r: Graph)
    ensures Has(r, PromptContractId)
  {
    if Has(g, PromptContractId) then g
    else
      var k := Find(g.obligations, PromptContractId);
      var obs := g.obligations + [NewObligation(PromptContractId, DeterministicCheck)];
      assert obs[|g.obligations|].id == PromptContractId;
      g.(obligations := obs)
  }

  function PromptEvidenceOf(g: Graph, runName: string): Evidence
    requires Has(g, PromptContractId)
  {
    Evidence(PromptEvidence, PromptContractId, DeterministicCheck,
             g.obligations[Find(g.obligations, PromptContractId)].revision, EvidencePass,
             CoreDeterministic, PromptContractApplied, if g.runId != "" then g.runId else runName, None)
  }

  /** The evidence the prompt contract adds: none once its obligation is closed. */
  function PromptBatch(g: Graph, runName: string): seq<Evidence>
    requires Has(g, PromptContractId)
  {
    if g.obligations[Find(g.obligations, PromptContractId)].status == Closed then []
    else [PromptEvidenceOf(g, runName)]
  }

  // ---------------------------------------------------------------- verification

  function OfReport(v: ReportVerdict): EvidenceVerdict {
    match v
    case ReportPass => EvidencePass
    case ReportFail => NotPass("FAIL")
    case ReportOther(name) => NotPass(name)
  }

  function OfName(name: string): EvidenceVerdict {
    if name == "PASS" then EvidencePass else NotPass(name)
  }

  function OfReview(v: ReviewVerdict): EvidenceVerdict {
    match v
    case Approved => EvidencePass
    case FixRequired => NotPass("FIX_REQUIRED")
    case OtherReview(name) => OfName(name)
  }

  function OfSimplicity(v: SimplicityVerdict): EvidenceVerdict {
    match v
    case Minimal => EvidencePass
    case Overbuilt => NotPass("OVERBUILT")
    case CannotVerify => NotPass("CANNOT_VERIFY")
    case OtherSimplicity(name) => OfName(name)
  }

  /** One record call of the verification step. */
  datatype Request = Request(id: ObligationId, authority: Authority, verdict: EvidenceVerdict)

  function CriterionRequests(obs: seq<Obligation>, passed: set<ObligationId>, verdict: EvidenceVerdict)
    : (rs: seq<Request>)
    ensures forall r | r in rs ::
              && r.authority == DeterministicCheck && r.verdict == verdict && r.id in passed
              && exists i | 0 <= i < |obs| :: obs[i].id == r.id
    ensures forall i | 0 <= i < |obs| && obs[i].id in passed :: Request(obs[i].id, DeterministicCheck, verdict) in rs
  {
    if obs == [] then []
    else
      var n := |obs| - 1;
      CriterionRequests(obs[..n], passed, verdict)
      + if obs[n].id in passed then [Request(obs[n].id, DeterministicCheck, verdict)] else []
  }

  /** What one verification shows: which criteria the plan's gate passed, the verdicts, the review if any. */
  datatype Verification = Verification(
    passed: set<ObligationId>,
    checks: ReportVerdict,
    diff: ReportVerdict,
    review: Option<Review>)

  predicate ModelReviewed(v: Verification) {
    v.review.Some? && !v.review.value.fastLane
  }

  function JudgeAuthority(v: Verification): Authority {
    if ModelReviewed(v) then ModelReview else DiffGuard
  }

  function IntentVerdict(v: Verification): EvidenceVerdict {
    if v.review.Some? then OfReview(v.review.value.verdict) else OfReport(v.diff)
  }

  function SimplicityEvidence(v: Verification): EvidenceVerdict {
    if v.review.Some? then OfSimplicity(v.review.value.simplicity) else OfReport(v.diff)
  }

  function GuardRequests(checks: ReportVerdict, diff: ReportVerdict): seq<Request> {
    [Request(DeterministicChecksId, DeterministicCheck, OfReport(checks)),
     Request(LowerScopeIntegrityId, DiffGuard, OfReport(diff))]
  }

  function RecoveryRequests(g: Graph, verdict: EvidenceVerdict): seq<Request> {
    if Has(g, RecoveryProgressId) then [Request(RecoveryProgressId, DeterministicCheck, verdict)] else []
  }

  function ReviewRequests(v: Verification): seq<Request> {
    [Request(IntentAlignmentId, JudgeAuthority(v), IntentVerdict(v)),
     Request(SimplicityId, JudgeAuthority(v), SimplicityEvidence(v))]
  }

  function Requests(g: Graph, v: Verification): seq<Request> {
    GuardRequests(v.checks, v.diff)
    + CriterionRequests(g.obligations, v.passed, OfReport(v.checks))
    + RecoveryRequests(g, OfReport(v.checks))
    + ReviewRequests(v)
  }

  function RevisionOf(g: Graph, id: ObligationId): int {
    if Has(g, id) then g.obligations[Find(g.obligations, id)].revision else 0
  }

  function EvidenceOf(g: Graph, r: Request, n: nat): Evidence {
    Evidence(Numbered(n), r.id, r.authority, RevisionOf(g, r.id), r.verdict,
             DefaultOrigin(r.authority), DefaultClaim(r.id), "", None)
  }

  function NumberedEvidence(g: Graph, rs: seq<Request>): (es: seq<Evidence>)
    ensures |es| == |rs|
    ensures forall i | 0 <= i < |rs| :: es[i] == EvidenceOf(g, rs[i], |g.evidence| + 1 + i)
  {
    seq(|rs|, i requires 0 <= i < |rs| => EvidenceOf(g, rs[i], |g.evidence| + 1 + i))
  }

  function PassedIds(plan: Plan, checks: Report): set<ObligationId>
    requires AuthoritativePassedCriteria(plan, checks).Ok?
  {
    set name | name in AuthoritativePassedCriteria(plan, checks).value :: IdOf(name)
  }

  // ---------------------------------------------------------------- runs

  datatype Step =
    | PromptApplied(runName: string)
    | RecoveryActivated
    | Verified(v: Verification)

  /** The graph just before the step's evidence is recorded. */
  function Prepared(s: Session, step: Step): Session {
    match step
    case PromptApplied(_) => s.(graph := WithPromptContract(s.graph))
    case RecoveryActivated => Activated(s)
    case Verified(_) => s
  }

  function StepEvidence(s: Session, step: Step): seq<Evidence> {
    match step
    case PromptApplied(runName) => PromptBatch(WithPromptContract(s.graph), runName)
    case RecoveryActivated => []
    case Verified(v) => NumberedEvidence(s.graph, Requests(s.graph, v))
  }

  function After(s: Session, step: Step): Session {
    var p := Prepared(s, step);
    p.(graph := RecordAll(p.graph, StepEvidence(s, step)))
  }

  function AfterAll(s: Session, steps: seq<Step>): Session {
    if steps == [] then s else After(AfterAll(s, steps[..|steps| - 1]), steps[|steps| - 1])
  }

  // ---------------------------------------------------------------- what every step keeps

  /** The kernel's four obligations come first; all obligations are required and make their id's claim. */
  predicate Kernel(g: Graph) {
    && g.runId == ""
    && |g.obligations| >= 4
    && g.obligations[0].id == IntentAlignmentId && g.obligations[1].id == DeterministicChecksId
    && g.obligations[2].id == LowerScopeIntegrityId && g.obligations[3].id == SimplicityId
    && forall i | 0 <= i < |g.obligations| ::
         g.obligations[i].required && g.obligations[i].claim == DefaultClaim(g.obligations[i].id)
  }

  /** Obligations are never dropped, renamed or made optional, and revisions never go back. */
  predicate Grows(g: Graph, h: Graph) {
    && g.runId == h.runId
    && |g.obligations| <= |h.obligations|
    && forall i | 0 <= i < |g.obligations| ::
         && g.obligations[i].id == h.obligations[i].id
         && g.obligations[i].claim == h.obligations[i].claim
         && g.obligations[i].required == h.obligations[i].required
         && g.obligations[i].revision <= h.obligations[i].revision
  }

  lemma FindUnchanged(a: seq<Obligation>, b: seq<Obligation>, id: ObligationId)
    requires |a| <= |b| && forall i | 0 <= i < |a| :: a[i].id == b[i].id
    ensures Find(a, id) < |a| ==> Find(b, id) == Find(a, id)
    ensures |a| == |b| ==> Find(b, id) == Find(a, id)
  {
  }

  lemma RecordedEvidence(g: Graph, es: seq<Evidence>)
    ensures forall e | e in RecordAll(g, es).evidence :: e in g.evidence || e in es
  {
  }

  lemma {:induction false} RecordAllKeepsWitnesses(g: Graph, es: seq<Evidence>)
    requires Witnessed(g)
    ensures Witnessed(RecordAll(g, es))
  {
    if es != [] {
      var before := RecordAll(g, es[..|es| - 1]);
      RecordAllKeepsWitnesses(g, es[..|es| - 1]);
      if Recorded(before, es[|es| - 1]).Ok? { RecordKeepsWitnesses(before, es[|es| - 1]); }
    }
  }

  lemma PreparedGrows(s: Session, step: Step)
    requires Kernel(s.graph)
    ensures Grows(s.graph, Prepared(s, step).graph) && Kernel(Prepared(s, step).graph)
    ensures Prepared(s, step).graph.evidence == s.graph.evidence
  {
  }

  lemma PreparedKeepsWitnesses(s: Session, step: Step)
    requires Kernel(s.graph) && Witnessed(s.graph)
    ensures Witnessed(Prepared(s, step).graph)
  {
    var g, h := s.graph, Prepared(s, step).graph;
    forall i | 0 <= i < |h.obligations| && h.obligations[i].status == Closed
      ensures exists e | e in h.evidence :: Qualifies(e, h.obligations[i], h.runId)
    {
      assert i < |g.obligations| && h.obligations[i] == g.obligations[i];
    }
  }

  lemma StepKeeps(s: Session, step: Step)
    requires Kernel(s.graph) && Witnessed(s.graph)
    ensures Kernel(After(s, step).graph) && Witnessed(After(s, step).graph) && Grows(s.graph, After(s, step).graph)
    ensures forall e | e in After(s, step).graph.evidence :: e in s.graph.evidence || e in StepEvidence(s, step)
  {
    hide Prepared, StepEvidence, RecordAll, Witnessed;
    var p := Prepared(s, step).graph;
    PreparedGrows(s, step);
    PreparedKeepsWitnesses(s, step);
    RecordAllKeepsWitnesses(p, StepEvidence(s, step));
    ClosedIff(p, StepEvidence(s, step), 0);
    RecordedEvidence(p, StepEvidence(s, step));
  }

  /** Every piece of evidence was recorded by some step of the run, from the state that step found. */
  ghost predicate Provenance(g: Graph, s: Session, steps: seq<Step>) {
    forall e | e in g.evidence :: exists k | 0 <= k < |steps| :: RecordedAt(e, s, steps, k)
  }

  ghost predicate RecordedAt(e: Evidence, s: Session, steps: seq<Step>, k: nat)
    requires k < |steps|
  {
    e in StepEvidence(AfterAll(s, steps[..k]), steps[k])
  }

  lemma ProvenanceExtends(g: Graph, h: Graph, s: Session, steps: seq<Step>)
    requires steps != [] && Provenance(g, s, steps[..|steps| - 1])
    requires forall e | e in h.evidence :: e in g.evidence || RecordedAt(e, s, steps, |steps| - 1)
    ensures Provenance(h, s, steps)
  {
    var init := steps[..|steps| - 1];
    forall e | e in h.evidence ensures exists k | 0 <= k < |steps| :: RecordedAt(e, s, steps, k) {
      if e in g.evidence {
        var k :| 0 <= k < |init| && RecordedAt(e, s, init, k);
        assert init[..k] == steps[..k];
        assert RecordedAt(e, s, steps, k);
      }
    }
  }

  /** What holds after any run of the kernel: closed obligations have witnesses, witnesses have steps. */
  lemma {:induction false} RunInvariant(criteria: seq<ObligationId>, strategy: Strategy, steps: seq<Step>)
    ensures var s := InitialSession(criteria, strategy);
            var g := AfterAll(s, steps).graph;
            Kernel(g) && Witnessed(g) && Grows(s.graph, g) && Provenance(g, s, steps)
  {
    var s := InitialSession(criteria, strategy);
    if steps != [] {
      var n := |steps| - 1;
      RunInvariant(criteria, strategy, steps[..n]);
      StepKeeps(AfterAll(s, steps[..n]), steps[n]);
      ProvenanceExtends(AfterAll(s, steps[..n]).graph, AfterAll(s, steps).graph, s, steps);
    }
  }
}
