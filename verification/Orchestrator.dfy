/** The kernel object: it owns the proof graph and the strategy, and every change to them is a step of the run. */
module Orchestrator {
  import opened Common
  import opened EvidencePolicy
  import opened ProofGraph
  import opened VerificationPlan
  import opened Documents
  import opened LiveEvidence
  import opened Assurance
  import opened Truth
  import opened ObligationLifecycle

  datatype Failure =
    | CoreEvidenceCaptureFailed
    | NothingToAggregate
    | FinalVerificationFailed
    | RoleFailed
    | ReviewArtifactMissing
    | FinalReviewRejected
    | InternalError

  function VerificationOf(plan: Plan, checks: Report, diff: DiffReport, review: Option<Review>): Verification
    requires AuthoritativePassedCriteria(plan, checks).Ok?
  {
    Verification(PassedIds(plan, checks), checks.verdict, diff.verdict, review)
  }

  lemma InitialExtends(criteria: seq<ObligationId>, i: nat, tier: Tier)
    requires i < |criteria|
    ensures InitialObligations(criteria[..i + 1], tier)
            == InitialObligations(criteria[..i], tier) + [NewObligation(criteria[i], DeterministicCheck)]
  {
  }

  ghost predicate DistinctObjects(obligations: seq<ProofObligation>) {
    forall j, k | 0 <= j < k < |obligations| :: obligations[j] != obligations[k]
  }

  /** The kernel's own four obligations, as distinct objects. */
  method KernelObjects(tier: Tier) returns (obligations: seq<ProofObligation>)
    ensures fresh(obligations) && DistinctObjects(obligations)
    ensures Values(obligations) == InitialObligations([], tier)
  {
    var reviewAuthority := ReviewAuthority(tier);
    var intent := new ProofObligation(IntentAlignmentId, reviewAuthority);
    var checks := new ProofObligation(DeterministicChecksId, DeterministicCheck);
    var scope := new ProofObligation(LowerScopeIntegrityId, DiffGuard);
    var simplicity := new ProofObligation(SimplicityId, reviewAuthority);
    obligations := [intent, checks, scope, simplicity];
  }

  lemma ValuesExtend(obligations: seq<ProofObligation>, o: ProofObligation)
    ensures Values(obligations + [o]) == Values(obligations) + [o.Value()]
  {
  }

  /** The kernel's four obligations and one for each acceptance criterion, as distinct objects. */
  method InitialObjects(criteria: seq<ObligationId>, tier: Tier) returns (obligations: seq<ProofObligation>)
    ensures fresh(obligations) && DistinctObjects(obligations)
    ensures Values(obligations) == InitialObligations(criteria, tier)
  {
    obligations := KernelObjects(tier);
    var i := 0;
    assert criteria[..i] == [];
    while i < |criteria|
      invariant 0 <= i <= |criteria|
      invariant fresh(obligations) && DistinctObjects(obligations)
      invariant Values(obligations) == InitialObligations(criteria[..i], tier)
    {
      var o := new ProofObligation(criteria[i], DeterministicCheck);
      InitialExtends(criteria, i, tier);
      ValuesExtend(obligations, o);
      obligations := obligations + [o];
      i := i + 1;
    }
    assert criteria[..i] == criteria;
  }

  /** Reopens the semantic obligations that a deterministic guard was to close. */
  method EscalateObjects(obligations: seq<ProofObligation>)
    requires DistinctObjects(obligations)
    modifies obligations
    ensures Values(obligations) == EscalateAll(old(Values(obligations)))
  {
    var i := 0;
    while i < |obligations|
      invariant 0 <= i <= |obligations|
      invariant forall j | 0 <= j < i :: obligations[j].Value() == Escalate(old(obligations[j].Value()))
      invariant forall j | i <= j < |obligations| :: obligations[j].Value() == old(obligations[j].Value())
    {
      var o := obligations[i];
      if (o.id == IntentAlignmentId || o.id == SimplicityId) && o.requiredAuthority != ModelReview {
        o.requiredAuthority := ModelReview;
        o.revision := o.revision + 1;
        o.status := Open;
        o.lastReason := Some(RecoveryEscalatedWorkload);
      }
      i := i + 1;
    }
  }

  lemma RunExtends(s: Session, steps: seq<Step>, step: Step)
    ensures AfterAll(s, steps + [step]) == After(AfterAll(s, steps), step)
  {
    assert (steps + [step])[..|steps|] == steps;
  }

  lemma AfterPrompt(s: Session, runName: string)
    ensures After(s, PromptApplied(runName)) ==
              s.(graph := RecordAll(WithPromptContract(s.graph), PromptBatch(WithPromptContract(s.graph), runName)))
  {
  }

  lemma PromptRecorded(g: Graph, runName: string)
    requires Has(g, PromptContractId)
    ensures g.obligations[Find(g.obligations, PromptContractId)].status == Closed ==> RecordAll(g, PromptBatch(g, runName)) == g
    ensures g.obligations[Find(g.obligations, PromptContractId)].status != Closed ==>
              Recorded(g, PromptEvidenceOf(g, runName)) == Ok(RecordAll(g, PromptBatch(g, runName)))
  {
    hide DefaultOrigin, DefaultClaim, Judge;
    if g.obligations[Find(g.obligations, PromptContractId)].status != Closed {
      SingleEvidence(g, PromptEvidenceOf(g, runName));
    }
  }

  predicate PromptIsClosed(g: Graph)
    requires Has(g, PromptContractId)
  {
    g.obligations[Find(g.obligations, PromptContractId)].status == Closed
  }

  /** A closed prompt obligation leaves nothing to record. */
  lemma PromptKeepsClosed(g: Graph, runName: string)
    ensures var prepared := WithPromptContract(g);
            PromptIsClosed(prepared) ==> prepared == g && RecordAll(prepared, PromptBatch(prepared, runName)) == g
  {
  }

  lemma SingleEvidence(g: Graph, e: Evidence)
    requires Recorded(g, e).Ok?
    ensures RecordAll(g, [e]) == Recorded(g, e).value
  {
    assert [e][..0] == [];
    assert RecordAll(g, []) == g;
  }

  lemma NumberedExtends(g: Graph, done: seq<Request>, r: Request)
    requires g.obligations != [] && Has(g, r.id) && !r.authority.UnsupportedAuthority?
    ensures var before := RecordAll(g, NumberedEvidence(g, done));
            var e := EvidenceOf(g, r, |g.evidence| + |done| + 1);
            && Has(before, r.id) && EvidenceOf(before, r, |g.evidence| + |done| + 1) == e
            && Recorded(before, e) == Ok(RecordAll(g, NumberedEvidence(g, done + [r])))
  {
    var es, e := NumberedEvidence(g, done), EvidenceOf(g, r, |g.evidence| + |done| + 1);
    assert NumberedEvidence(g, done + [r]) == es + [e];
    assert (es + [e])[..|es|] == es;
    ClosedIff(g, es, 0);
    FindUnchanged(g.obligations, RecordAll(g, es).obligations, r.id);
  }

  /** The graph after recording the evidence of these requests. */
  ghost predicate Recording(before: Graph, current: Graph, done: seq<Request>) {
    current == RecordAll(before, NumberedEvidence(before, done))
  }

  lemma RecordingSame(before: Graph, current: Graph, done: seq<Request>)
    requires before.obligations != [] && Recording(before, current, done)
    ensures SameFrame(before, current)
  {
    ClosedIff(before, NumberedEvidence(before, done), 0);
  }

  /** These requests and those of the first n obligations. */
  ghost function Upto(done: seq<Request>, obs: seq<Obligation>, n: nat, passed: set<ObligationId>, verdict: EvidenceVerdict)
    : seq<Request>
    requires n <= |obs|
  {
    done + CriterionRequests(obs[..n], passed, verdict)
  }

  lemma UptoNext(done: seq<Request>, obs: seq<Obligation>, n: nat, passed: set<ObligationId>, verdict: EvidenceVerdict)
    requires n < |obs|
    ensures Upto(done, obs, n + 1, passed, verdict) ==
              if obs[n].id in passed
              then Upto(done, obs, n, passed, verdict) + [Request(obs[n].id, DeterministicCheck, verdict)]
              else Upto(done, obs, n, passed, verdict)
  {
    assert obs[..n + 1][..n] == obs[..n];
  }

  lemma UptoEnds(done: seq<Request>, obs: seq<Obligation>, passed: set<ObligationId>, verdict: EvidenceVerdict)
    ensures Upto(done, obs, 0, passed, verdict) == done
    ensures Upto(done, obs, |obs|, passed, verdict) == done + CriterionRequests(obs, passed, verdict)
  {
    assert obs[..|obs|] == obs;
  }

  ghost predicate RecordedUpto(before: Graph, current: Graph, done: seq<Request>, n: nat,
                               passed: set<ObligationId>, verdict: EvidenceVerdict, sequence: nat)
  {
    && n <= |before.obligations|
    && Recording(before, current, Upto(done, before.obligations, n, passed, verdict))
    && sequence == |before.evidence| + |Upto(done, before.obligations, n, passed, verdict)|
  }

  lemma RecordingNone(g: Graph)
    ensures Recording(g, g, [])
  {
    assert NumberedEvidence(g, []) == [];
  }

  lemma KernelHas(g: Graph)
    requires Kernel(g)
    ensures Has(g, IntentAlignmentId) && Has(g, DeterministicChecksId) && Has(g, LowerScopeIntegrityId) && Has(g, SimplicityId)
  {
  }

  lemma VerifiedStep(before: Session, v: Verification, g: Graph)
    requires Recording(before.graph, g, Requests(before.graph, v))
    ensures After(before, Verified(v)) == before.(graph := g)
  {
  }

  lemma FoundBy(g: Graph, i: nat)
    requires i < |g.obligations|
    ensures Has(g, g.obligations[i].id)
  {
  }

  lemma ActivationExtends(s: Session, steps: seq<Step>)
    ensures AfterAll(s, steps + [RecoveryActivated]) == Activated(AfterAll(s, steps))
  {
    RunExtends(s, steps, RecoveryActivated);
  }

  class Orchestrator {
    const criteria: seq<ObligationId>
    const graph: ProofGraphStore
    const dir: RunDirectory
    const goalMode: bool
    const maxGoalCycles: nat
    const maxReplans: nat
    var strategy: Strategy
    var goalCycles: nat
    const plan: Plan
    ghost const initial: Strategy
    ghost var steps: seq<Step>
    /** The obligation objects of this run's graph. */
    ghost var owned: set<ProofObligation>

    ghost function State(): Session
      reads this, graph, graph.obligations
    {
      Session(graph.Value(), strategy)
    }

    ghost predicate Owning()
      reads this, graph
    {
      graph.Valid() && forall i | 0 <= i < |graph.obligations| :: graph.obligations[i] in owned
    }

    /** The state is the outcome of the steps taken so far. */
    ghost predicate Valid()
      reads this, graph, graph.obligations
    {
      Owning() && State() == AfterAll(InitialSession(criteria, initial), steps)
    }

    /** The directory is this one, with the graph as it is now. */
    ghost predicate Wrote(files: Files)
      reads this, dir, graph, graph.obligations
    {
      dir.files == files[GRAPH := GraphFile(graph.Value())]
    }

    /** The graph on file is the graph as it is. */
    ghost predicate Synced()
      reads this, dir, graph, graph.obligations
    {
      Wrote(dir.files)
    }

    constructor (criteria: seq<ObligationId>, strategy: Strategy, plan: Plan, dir: RunDirectory,
                 goalMode: bool, maxGoalCycles: nat, maxReplans: nat)
      ensures Valid() && steps == [] && fresh(graph) && fresh(owned)
      ensures this.criteria == criteria && this.initial == strategy == this.strategy && this.dir == dir
      ensures this.plan == plan && this.goalMode == goalMode && goalCycles == 0
      ensures this.maxGoalCycles == maxGoalCycles && this.maxReplans == maxReplans
    {
      var obligations := InitialObjects(criteria, strategy.tier);
      var store := new ProofGraphStore(obligations);
      this.criteria, this.graph, this.dir, this.plan := criteria, store, dir, plan;
      this.goalMode, this.maxGoalCycles, this.maxReplans, this.goalCycles := goalMode, maxGoalCycles, maxReplans, 0;
      this.strategy, this.initial, this.steps := strategy, strategy, [];
      this.owned := set o | o in obligations;
    }

    method PersistProofGraph()
      modifies dir
      ensures dir.files == old(dir.files)[GRAPH := GraphFile(graph.Value())]
    {
      var snapshot := graph.ToDict();
      dir.files := dir.files[GRAPH := GraphFile(snapshot)];
    }

    method FindObligation(id: ObligationId) returns (k: nat)
      ensures k == Find(graph.Value().obligations, id)
    {
      k := 0;
      while k < |graph.obligations| && graph.obligations[k].id != id
        invariant 0 <= k <= |graph.obligations|
        invariant forall j | 0 <= j < k :: graph.obligations[j].id != id
      {
        k := k + 1;
      }
    }

    /** Closes a step whose effect is in place. */
    method FinishStep(ghost step: Step, ghost before: Session)
      requires Owning() && before == AfterAll(InitialSession(criteria, initial), steps)
      requires State() == After(before, step)
      modifies this`steps, dir
      ensures Valid() && steps == old(steps) + [step] && State() == old(State())
      ensures dir.files == old(dir.files)[GRAPH := GraphFile(graph.Value())]
    {
      RunExtends(InitialSession(criteria, initial), steps, step);
      steps := steps + [step];
      PersistProofGraph();
    }

    method HasObligation(id: ObligationId) returns (found: bool)
      ensures found <==> Has(graph.Value(), id)
    {
      var k := FindObligation(id);
      return k < |graph.obligations|;
    }

    method AppendObligation(o: ProofObligation)
      requires Owning() && o !in graph.obligations
      modifies graph, this`owned
      ensures Owning() && owned == old(owned) + {o}
      ensures graph.Value() == old(graph.Value()).(obligations := old(graph.Value()).obligations + [o.Value()])
    {
      ValuesExtend(graph.obligations, o);
      graph.obligations := graph.obligations + [o];
      owned := owned + {o};
    }

    method OpenRecovery()
      requires Owning()
      modifies graph, this`owned
      ensures Owning() && fresh(owned - old(owned))
      ensures graph.Value() == WithRecovery(old(graph.Value()))
    {
      var found := HasObligation(RecoveryProgressId);
      if !found {
        var o := new ProofObligation(RecoveryProgressId, DeterministicCheck);
        AppendObligation(o);
      }
    }

    method Reclassify()
      requires Owning()
      modifies this`strategy, owned
      ensures Owning() && State() == Reclassified(old(State()))
    {
      if strategy.tier == T0 || strategy.tier == T1 {
        strategy := Strategy(T2, true);
        EscalateObjects(graph.obligations);
      }
    }

    /** Opens the recovery obligation and, on a light workload, hands the semantic obligations to a model review. */
    method ActivateRecoveryProtocol()
      requires Valid()
      modifies this`strategy, this`steps, this`owned, graph, owned, dir
      ensures Valid() && steps == old(steps) + [RecoveryActivated] && fresh(owned - old(owned))
      ensures State() == Activated(old(State()))
      ensures dir.files == old(dir.files)[GRAPH := GraphFile(graph.Value())]
    {
      ActivationExtends(InitialSession(criteria, initial), steps);
      hide AfterAll, EscalateAll, InitialSession, WithRecovery, Reclassified, Kernel;
      OpenRecovery();
      Reclassify();
      steps := steps + [RecoveryActivated];
      PersistProofGraph();
    }

    method OpenPromptContract()
      requires Owning()
      modifies graph, this`owned
      ensures Owning() && fresh(owned - old(owned))
      ensures graph.Value() == WithPromptContract(old(graph.Value()))
    {
      var found := HasObligation(PromptContractId);
      if !found {
        var o := new ProofObligation(PromptContractId, DeterministicCheck);
        AppendObligation(o);
      }
    }

    method RecordPrompt(runName: string)
      requires Owning() && Has(graph.Value(), PromptContractId)
      modifies graph`evidence, owned, dir
      ensures Owning()
      ensures graph.Value() == RecordAll(old(graph.Value()), PromptBatch(old(graph.Value()), runName))
      ensures dir.files == if PromptIsClosed(old(graph.Value())) then old(dir.files)
                           else old(dir.files)[GRAPH := GraphFile(graph.Value())]
    {
      PromptRecorded(graph.Value(), runName);
      hide RecordAll, Recorded, PromptBatch;
      var k := FindObligation(PromptContractId);
      var o := graph.obligations[k];
      if o.status == Closed { return; }
      var e := Evidence(PromptEvidence, o.id, DeterministicCheck, o.revision, EvidencePass, CoreDeterministic,
                        PromptContractApplied, if graph.runId != "" then graph.runId else runName, None);
      assert e == PromptEvidenceOf(graph.Value(), runName);
      var r := graph.Record(e);
      PersistProofGraph();
    }

    /** Adds the prompt obligation if it is absent and closes it unless it is already closed. */
    method ApplyPrompt(runName: string)
      requires Owning()
      modifies this`owned, graph, owned, dir
      ensures Owning() && fresh(owned - old(owned))
      ensures graph.Value() == RecordAll(WithPromptContract(old(graph.Value())),
                                         PromptBatch(WithPromptContract(old(graph.Value())), runName))
      ensures old(Synced()) ==> Wrote(old(dir.files))
    {
      PromptKeepsClosed(graph.Value(), runName);
      hide WithPromptContract, PromptBatch, RecordAll, Has, PromptIsClosed, Find;
      OpenPromptContract();
      RecordPrompt(runName);
    }

    method RecordPromptContractProof(runName: string)
      requires Valid()
      modifies this`steps, this`owned, graph, owned, dir
      ensures Valid() && steps == old(steps) + [PromptApplied(runName)] && fresh(owned - old(owned))
      ensures strategy == old(strategy)
      ensures old(Synced()) ==> Wrote(old(dir.files))
    {
      RunExtends(InitialSession(criteria, initial), steps, PromptApplied(runName));
      AfterPrompt(State(), runName);
      hide AfterAll, After, WithPromptContract, PromptBatch, RecordAll, InitialSession;
      ApplyPrompt(runName);
      steps := steps + [PromptApplied(runName)];
    }

    /** One record call, at the revision its obligation has now. */
    method RecordRequest(r: Request, sequence: nat)
      requires Owning() && Has(graph.Value(), r.id) && !r.authority.UnsupportedAuthority?
      modifies graph`evidence, owned
      ensures Owning() && Recorded(old(graph.Value()), EvidenceOf(old(graph.Value()), r, sequence)) == Ok(graph.Value())
    {
      var k := FindObligation(r.id);
      var e := Evidence(Numbered(sequence), r.id, r.authority, graph.obligations[k].revision, r.verdict,
                        DefaultOrigin(r.authority), DefaultClaim(r.id), "", None);
      assert e == EvidenceOf(graph.Value(), r, sequence);
      var recorded := graph.Record(e);
    }

    method RecordNext(r: Request, sequence: nat, ghost before: Graph, ghost done: seq<Request>)
      returns (next: nat)
      requires Owning() && before.obligations != [] && Has(before, r.id) && !r.authority.UnsupportedAuthority?
      requires Recording(before, graph.Value(), done) && sequence == |before.evidence| + |done|
      modifies graph`evidence, owned
      ensures Owning() && Recording(before, graph.Value(), done + [r]) && next == sequence + 1
    {
      hide RecordAll, NumberedEvidence, Recorded, Has, EvidenceOf;
      NumberedExtends(before, done, r);
      RecordRequest(r, sequence + 1);
      next := sequence + 1;
    }

    /** The i-th obligation's turn: recorded if the gate passed its criterion. */
    method RecordCriterion(i: nat, passed: set<ObligationId>, verdict: EvidenceVerdict, sequence: nat,
                           ghost before: Graph, ghost done: seq<Request>)
      returns (next: nat)
      requires Owning() && i < |graph.obligations| == |before.obligations|
      requires RecordedUpto(before, graph.Value(), done, i, passed, verdict, sequence)
      modifies graph`evidence, owned
      ensures Owning() && RecordedUpto(before, graph.Value(), done, i + 1, passed, verdict, next)
    {
      ghost var sofar := Upto(done, before.obligations, i, passed, verdict);
      RecordingSame(before, graph.Value(), sofar);
      var id := graph.obligations[i].id;
      assert id == graph.Value().obligations[i].id == before.obligations[i].id;
      UptoNext(done, before.obligations, i, passed, verdict);
      next := sequence;
      if id in passed {
        FoundBy(before, i);
        next := RecordNext(Request(id, DeterministicCheck, verdict), sequence, before, sofar);
      }
    }

    /** The criteria the gate passed, in the order of their obligations. */
    method RecordCriteria(passed: set<ObligationId>, verdict: EvidenceVerdict, sequence: nat,
                          ghost before: Graph, ghost done: seq<Request>)
      returns (next: nat)
      requires Owning() && before.obligations != [] && |graph.obligations| == |before.obligations|
      requires RecordedUpto(before, graph.Value(), done, 0, passed, verdict, sequence)
      modifies graph`evidence, owned
      ensures Owning() && RecordedUpto(before, graph.Value(), done, |before.obligations|, passed, verdict, next)
    {
      next := sequence;
      var i := 0;
      while i < |graph.obligations|
        invariant Owning() && 0 <= i <= |graph.obligations| == |before.obligations|
        invariant RecordedUpto(before, graph.Value(), done, i, passed, verdict, next)
      {
        next := RecordCriterion(i, passed, verdict, next, before, done);
        i := i + 1;
      }
    }

    method RecordGuards(checks: ReportVerdict, diff: ReportVerdict, ghost before: Graph) returns (next: nat)
      requires Owning() && graph.Value() == before && Kernel(before) && |graph.evidence| == |before.evidence|
      modifies graph`evidence, owned
      ensures Owning() && Recording(before, graph.Value(), GuardRequests(checks, diff))
      ensures next == |before.evidence| + 2
    {
      hide Recording, Has, Requests;
      RecordingNone(before);
      KernelHas(before);
      var first := Request(DeterministicChecksId, DeterministicCheck, OfReport(checks));
      var second := Request(LowerScopeIntegrityId, DiffGuard, OfReport(diff));
      next := RecordNext(first, |graph.evidence|, before, []);
      assert [] + [first] == [first] && [first] + [second] == GuardRequests(checks, diff);
      next := RecordNext(second, next, before, [first]);
    }

    method RecordRecovery(verdict: EvidenceVerdict, sequence: nat, ghost before: Graph, ghost done: seq<Request>)
      returns (next: nat)
      requires Owning() && before.obligations != []
      requires Recording(before, graph.Value(), done) && sequence == |before.evidence| + |done|
      modifies graph`evidence, owned
      ensures Owning() && Recording(before, graph.Value(), done + RecoveryRequests(before, verdict))
      ensures next == |before.evidence| + |done + RecoveryRequests(before, verdict)|
    {
      RecordingSame(before, graph.Value(), done);
      FindUnchanged(before.obligations, graph.Value().obligations, RecoveryProgressId);
      next := sequence;
      var found := HasObligation(RecoveryProgressId);
      if found {
        next := RecordNext(Request(RecoveryProgressId, DeterministicCheck, verdict), sequence, before, done);
      } else {
        assert done + [] == done;
      }
    }

    method RecordReview(v: Verification, sequence: nat, ghost before: Graph, ghost done: seq<Request>)
      requires Owning() && Kernel(before)
      requires Recording(before, graph.Value(), done) && sequence == |before.evidence| + |done|
      modifies graph`evidence, owned
      ensures Owning() && Recording(before, graph.Value(), done + ReviewRequests(v))
    {
      KernelHas(before);
      ghost var first := Request(IntentAlignmentId, JudgeAuthority(v), IntentVerdict(v));
      var next := RecordNext(Request(IntentAlignmentId, JudgeAuthority(v), IntentVerdict(v)), sequence, before, done);
      next := RecordNext(Request(SimplicityId, JudgeAuthority(v), SimplicityEvidence(v)), next, before, done + [first]);
      assert done + [first] + [Request(SimplicityId, JudgeAuthority(v), SimplicityEvidence(v))] == done + ReviewRequests(v);
    }

    /** The whole batch of one verification; it stops half-way when the gate cannot digest the report. */
    method RecordBatch(checks: Report, diff: DiffReport, review: Option<Review>) returns (r: Result<(), PlanError>)
      requires Owning() && Kernel(graph.Value())
      modifies graph`evidence, owned
      ensures Owning() && (r.Ok? <==> AuthoritativePassedCriteria(plan, checks).Ok?)
      ensures r.Ok? ==>
                Recording(old(graph.Value()), graph.Value(),
                          Requests(old(graph.Value()), VerificationOf(plan, checks, diff, review)))
    {
      ghost var before := graph.Value();
      var next := RecordGuards(checks.verdict, diff.verdict, before);
      ghost var done := GuardRequests(checks.verdict, diff.verdict);
      var gate := AuthoritativePassedCriteria(plan, checks);
      if gate.Err? { return Err(gate.error); }
      var v := VerificationOf(plan, checks, diff, review);
      RecordingSame(before, graph.Value(), done);
      UptoEnds(done, before.obligations, v.passed, OfReport(v.checks));
      next := RecordCriteria(v.passed, OfReport(v.checks), next, before, done);
      done := done + CriterionRequests(before.obligations, v.passed, OfReport(v.checks));
      next := RecordRecovery(OfReport(v.checks), next, before, done);
      done := done + RecoveryRequests(before, OfReport(v.checks));
      RecordReview(v, next, before, done);
      return Ok(());
    }

    /** One final verification (and review, if there is one) evaluated against every obligation. */
    method RecordVerificationProof(checks: Report, diff: DiffReport, review: Option<Review>)
      returns (r: Result<(), PlanError>)
      requires Valid()
      modifies this`steps, graph`evidence, owned, dir
      ensures r.Ok? <==> AuthoritativePassedCriteria(plan, checks).Ok?
      ensures r.Ok? ==> Valid() && steps == old(steps) + [Verified(VerificationOf(plan, checks, diff, review))]
      ensures r.Ok? ==> dir.files == old(dir.files)[GRAPH := GraphFile(graph.Value())]
    {
      RunInvariant(criteria, initial, steps);
      ghost var before := State();
      r := RecordBatch(checks, diff, review);
      if r.Ok? {
        ghost var v := VerificationOf(plan, checks, diff, review);
        VerifiedStep(before, v, graph.Value());
        FinishStep(Verified(v), before);
      }
    }
  }
}
