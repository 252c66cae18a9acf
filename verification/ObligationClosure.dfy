/** Exactly when a run leaves nothing open. */
module ObligationClosure {
  import opened Common
  import opened EvidencePolicy
  import opened ProofGraph
  import opened Documents
  import opened VerificationPlan
  import opened ObligationLifecycle
  import opened ObligationTheorems

  /** Criteria as a compiled intent has them: none named like the kernel's own obligations, and no two alike. */
  predicate NamedApart(criteria: seq<ObligationId>) {
    && (forall i | 0 <= i < |criteria| :: criteria[i].Named?)
    && (forall i, j | 0 <= i < j < |criteria| :: criteria[i] != criteria[j])
  }

  const OWN_IDS: set<ObligationId> :=
    {IntentAlignmentId, DeterministicChecksId, LowerScopeIntegrityId, SimplicityId, PromptContractId, RecoveryProgressId}

  /** Every obligation is the kernel's own or a criterion's, and no id occurs twice. */
  predicate Orderly(g: Graph, criteria: seq<ObligationId>) {
    && UniqueIds(g)
    && forall i | 0 <= i < |g.obligations| :: g.obligations[i].id in OWN_IDS || g.obligations[i].id in criteria
  }

  // ---------------------------------------------------------------- the ids of a run

  lemma InitiallyOrderly(criteria: seq<ObligationId>, strategy: Strategy)
    requires NamedApart(criteria)
    ensures Orderly(InitialSession(criteria, strategy).graph, criteria)
  {
    var obs := InitialObligations(criteria, strategy.tier);
    forall i: int | 4 <= i < |obs| ensures obs[i].id == criteria[i - 4] {
      assert obs[(i - 4) + 4] == NewObligation(criteria[i - 4], DeterministicCheck);
    }
  }

  lemma SameIdsOrderly(g: Graph, h: Graph, criteria: seq<ObligationId>)
    requires Orderly(g, criteria) && |h.obligations| == |g.obligations|
    requires forall i | 0 <= i < |g.obligations| :: h.obligations[i].id == g.obligations[i].id
    ensures Orderly(h, criteria)
  {
  }

  lemma AppendOrderly(g: Graph, h: Graph, o: Obligation, criteria: seq<ObligationId>)
    requires Orderly(g, criteria) && o.id in OWN_IDS && !Has(g, o.id) && h.obligations == g.obligations + [o]
    ensures Orderly(h, criteria)
  {
    forall i | 0 <= i < |g.obligations| ensures g.obligations[i].id != o.id {
    }
  }

  lemma PreparedOrderly(s: Session, step: Step, criteria: seq<ObligationId>)
    requires Orderly(s.graph, criteria)
    ensures Orderly(Prepared(s, step).graph, criteria)
  {
    hide Orderly;
    match step {
      case Verified(_) =>
      case PromptApplied(_) =>
        if !Has(s.graph, PromptContractId) {
          AppendOrderly(s.graph, WithPromptContract(s.graph), NewObligation(PromptContractId, DeterministicCheck), criteria);
        }
      case RecoveryActivated =>
        var g := WithRecovery(s.graph);
        if !Has(s.graph, RecoveryProgressId) {
          AppendOrderly(s.graph, g, NewObligation(RecoveryProgressId, DeterministicCheck), criteria);
        }
        SameIdsOrderly(g, Activated(s).graph, criteria);
    }
  }

  lemma {:induction false} RunOrderly(criteria: seq<ObligationId>, strategy: Strategy, steps: seq<Step>)
    requires NamedApart(criteria)
    ensures Orderly(AfterAll(InitialSession(criteria, strategy), steps).graph, criteria)
  {
    hide InitialSession, Orderly, Prepared, RecordAll, StepEvidence;
    var s := InitialSession(criteria, strategy);
    if steps == [] {
      InitiallyOrderly(criteria, strategy);
    } else {
      var n := |steps| - 1;
      RunOrderly(criteria, strategy, steps[..n]);
      var before := AfterAll(s, steps[..n]);
      PreparedOrderly(before, steps[n], criteria);
      RunInvariant(criteria, strategy, steps[..n]);
      PreparedGrows(before, steps[n]);
      var p := Prepared(before, steps[n]).graph;
      ClosedIff(p, StepEvidence(before, steps[n]), 0);
      SameIdsOrderly(p, After(before, steps[n]).graph, criteria);
    }
  }

  // ---------------------------------------------------------------- the prompt obligation

  /** The prompt obligation is there, first under its id, and closed. */
  predicate PromptClosedAt(g: Graph, i: int) {
    && 0 <= i < |g.obligations| && FirstOf(g.obligations, i)
    && g.obligations[i].id == PromptContractId && g.obligations[i].status == Closed
  }

  lemma PromptStepCloses(s: Session, runName: string)
    requires Kernel(s.graph)
    ensures exists i :: PromptClosedAt(After(s, PromptApplied(runName)).graph, i)
  {
    var g := WithPromptContract(s.graph);
    var i := Find(g.obligations, PromptContractId);
    assert FirstOf(g.obligations, i);
    PreparedGrows(s, PromptApplied(runName));
    var batch := PromptBatch(g, runName);
    ClosedIff(g, batch, i);
    if g.obligations[i].status != Closed {
      assert batch == [PromptEvidenceOf(g, runName)];
      PromptQualifies(g, runName, i);
    }
    assert After(s, PromptApplied(runName)).graph == RecordAll(g, batch);
    assert PromptClosedAt(RecordAll(g, batch), i);
  }

  lemma PromptQualifies(g: Graph, runName: string, i: nat)
    requires Has(g, PromptContractId) && FirstOf(g.obligations, i) && g.obligations[i].id == PromptContractId
    requires g.obligations[i].claim == DefaultClaim(PromptContractId) && g.runId == ""
    ensures Qualifies(PromptEvidenceOf(g, runName), g.obligations[i], g.runId)
  {
    FirstIsFound(g.obligations, i);
  }

  lemma PreparedKeepsPrompt(s: Session, step: Step, i: int)
    requires PromptClosedAt(s.graph, i)
    ensures PromptClosedAt(Prepared(s, step).graph, i)
  {
  }

  lemma StepKeepsPrompt(s: Session, step: Step, i: int)
    requires PromptClosedAt(s.graph, i)
    ensures PromptClosedAt(After(s, step).graph, i)
  {
    hide Prepared, RecordAll, StepEvidence, Qualifies;
    PreparedKeepsPrompt(s, step, i);
    ClosedIff(Prepared(s, step).graph, StepEvidence(s, step), i);
  }

  lemma {:induction false} RunKeepsPrompt(criteria: seq<ObligationId>, strategy: Strategy, steps: seq<Step>)
    requires steps != [] && steps[0].PromptApplied?
    ensures exists i :: PromptClosedAt(AfterAll(InitialSession(criteria, strategy), steps).graph, i)
  {
    hide InitialSession, After, PromptClosedAt;
    var s, n := InitialSession(criteria, strategy), |steps| - 1;
    assert AfterAll(s, steps) == After(AfterAll(s, steps[..n]), steps[n]);
    if n == 0 {
      RunInvariant(criteria, strategy, steps[..0]);
      PromptStepCloses(AfterAll(s, steps[..0]), steps[0].runName);
    } else {
      RunKeepsPrompt(criteria, strategy, steps[..n]);
      var i :| PromptClosedAt(AfterAll(s, steps[..n]).graph, i);
      StepKeepsPrompt(AfterAll(s, steps[..n]), steps[n], i);
    }
  }

  // ---------------------------------------------------------------- the final verifications

  ghost predicate OnlyVerifications(steps: seq<Step>, from: nat) {
    from <= |steps| && forall k | from <= k < |steps| :: steps[k].Verified?
  }

  /** Some verification from this position on earned the obligation's closing. */
  ghost predicate EarnedSince(id: ObligationId, steps: seq<Step>, from: nat) {
    exists k | from <= k < |steps| :: steps[k].Verified? && Earned(id, steps[k].v)
  }

  lemma EarnedSinceNext(id: ObligationId, steps: seq<Step>, from: nat)
    requires from < |steps| && steps[|steps| - 1].Verified?
    ensures EarnedSince(id, steps, from) <==>
              EarnedSince(id, steps[..|steps| - 1], from) || Earned(id, steps[|steps| - 1].v)
  {
    hide Earned;
    var init := steps[..|steps| - 1];
    if EarnedSince(id, init, from) {
      var k :| from <= k < |init| && init[k].Verified? && Earned(id, init[k].v);
      assert steps[k] == init[k];
    }
    if k :| from <= k < |steps| - 1 && steps[k].Verified? && Earned(id, steps[k].v) {
      assert init[k] == steps[k];
    }
  }

  /** Over verifications alone an obligation is closed exactly when it was before or one of them earned it. */
  lemma {:induction false} ClosedOverVerifications(s: Session, steps: seq<Step>, from: nat, i: nat)
    requires OnlyVerifications(steps, from) && Kernel(s.graph) && Witnessed(s.graph)
    requires FirstOf(AfterAll(s, steps[..from]).graph.obligations, i)
    ensures SameFrame(AfterAll(s, steps[..from]).graph, AfterAll(s, steps).graph)
    ensures var before, o := AfterAll(s, steps[..from]).graph.obligations[i], AfterAll(s, steps).graph.obligations[i];
            o.status == Closed <==> before.status == Closed || EarnedSince(before.id, steps, from)
    decreases |steps|
  {
    hide After, Earned, EarnedSince, Kernel, Witnessed;
    if |steps| == from {
      assert steps[..from] == steps;
      NothingEarned(AfterAll(s, steps).graph.obligations[i].id, steps);
      SameFrameReflexive(AfterAll(s, steps).graph);
    } else {
      var n := |steps| - 1;
      var init := steps[..n];
      assert init[..from] == steps[..from];
      ClosedOverVerifications(s, init, from, i);
      KernelOverSteps(s, init);
      FirstOfSame(AfterAll(s, steps[..from]).graph, AfterAll(s, init).graph, i);
      VerificationCloses(AfterAll(s, init), steps[n].v, i);
      EarnedSinceNext(AfterAll(s, steps[..from]).graph.obligations[i].id, steps, from);
      SameFrameThrough(AfterAll(s, steps[..from]).graph, AfterAll(s, init).graph, AfterAll(s, steps).graph);
    }
  }

  lemma NothingEarned(id: ObligationId, steps: seq<Step>)
    ensures !EarnedSince(id, steps, |steps|)
  {
  }

  lemma SameFrameReflexive(g: Graph)
    ensures SameFrame(g, g)
  {
  }

  lemma SameFrameThrough(a: Graph, b: Graph, c: Graph)
    requires SameFrame(a, b) && SameFrame(b, c)
    ensures SameFrame(a, c)
  {
  }

  lemma FirstOfSame(g: Graph, h: Graph, i: nat)
    requires SameFrame(g, h) && FirstOf(g.obligations, i)
    ensures FirstOf(h.obligations, i) && h.obligations[i].id == g.obligations[i].id
  {
  }

  ghost predicate NoneVerified(steps: seq<Step>) {
    forall k | 0 <= k < |steps| :: !steps[k].Verified?
  }

  lemma OpenBeforeVerification(criteria: seq<ObligationId>, strategy: Strategy, pre: seq<Step>, o: Obligation)
    requires NoneVerified(pre) && o in AfterAll(InitialSession(criteria, strategy), pre).graph.obligations
    requires o.id != PromptContractId
    ensures o.status != Closed
  {
    hide AfterAll, InitialSession, Earned, RevisionOf, Has;
    forall k ensures !EarnedAt(o.id, o.revision, InitialSession(criteria, strategy), pre, k) {
    }
    if o.status == Closed { ClosedWasEarned(criteria, strategy, pre, o); }
  }

  /** A run's final phase: verifications only, only the last with a review, which approved what it judged. */
  ghost predicate Concluded(pre: seq<Step>, steps: seq<Step>) {
    && pre <= steps && 0 < |pre| < |steps| && pre[0].PromptApplied? && NoneVerified(pre)
    && (forall k | |pre| <= k < |steps| ::
          steps[k].Verified? && steps[k].v.checks == ReportPass && (k < |steps| - 1 ==> steps[k].v.review.None?))
    && var v := steps[|steps| - 1].v;
       v.diff == ReportPass && v.review.Some? && v.review.value.verdict == Approved && v.review.value.simplicity == Minimal
  }

  /** Some verification's gate passed the criterion. */
  ghost predicate PassedIn(id: ObligationId, pre: seq<Step>, steps: seq<Step>) {
    exists k | |pre| <= k < |steps| :: steps[k].Verified? && id in steps[k].v.passed
  }

  lemma EarnedInFinalPhase(pre: seq<Step>, steps: seq<Step>, id: ObligationId)
    requires Concluded(pre, steps)
    ensures id in {IntentAlignmentId, SimplicityId} ==>
              (EarnedSince(id, steps, |pre|) <==> ModelReviewed(steps[|steps| - 1].v))
    ensures id in {DeterministicChecksId, LowerScopeIntegrityId, RecoveryProgressId} ==> EarnedSince(id, steps, |pre|)
    ensures id.Named? ==> (EarnedSince(id, steps, |pre|) <==> PassedIn(id, pre, steps))
  {
    var last := |steps| - 1;
    assert steps[last].Verified?;
    if Earned(id, steps[last].v) { assert EarnedSince(id, steps, |pre|); }
    if id in {IntentAlignmentId, SimplicityId} && EarnedSince(id, steps, |pre|) {
      var k :| |pre| <= k < |steps| && steps[k].Verified? && Earned(id, steps[k].v);
      assert k == last;
    }
  }

  lemma ClosedAtEnd(criteria: seq<ObligationId>, strategy: Strategy, pre: seq<Step>, steps: seq<Step>, i: nat)
    requires Concluded(pre, steps) && i < |AfterAll(InitialSession(criteria, strategy), steps).graph.obligations|
    requires NamedApart(criteria)
    ensures var o := AfterAll(InitialSession(criteria, strategy), steps).graph.obligations[i];
            && (o.id in OWN_IDS || o.id in criteria)
            && (o.status == Closed <==> o.id == PromptContractId || EarnedSince(o.id, steps, |pre|))
  {
    hide InitialSession, AfterAll, EarnedSince, Kernel, Witnessed, NamedApart, OWN_IDS;
    var s := InitialSession(criteria, strategy);
    var g, h := AfterAll(s, pre).graph, AfterAll(s, steps).graph;
    assert steps[..|pre|] == pre;
    StartHolds(criteria, strategy);
    RunOrderly(criteria, strategy, steps);
    FirstSame(s, pre, steps);
    RunOrderly(criteria, strategy, pre);
    UniqueIsFirst(g, i);
    ClosedOverVerifications(s, steps, |pre|, i);
    assert g.obligations[i] in g.obligations;
    if g.obligations[i].id == PromptContractId {
      RunKeepsPrompt(criteria, strategy, pre);
      var k :| PromptClosedAt(g, k);
      SameIdSamePlace(g, i, k);
    } else {
      OpenBeforeVerification(criteria, strategy, pre, g.obligations[i]);
    }
  }

  lemma StartHolds(criteria: seq<ObligationId>, strategy: Strategy)
    ensures Kernel(InitialSession(criteria, strategy).graph) && Witnessed(InitialSession(criteria, strategy).graph)
  {
    RunInvariant(criteria, strategy, []);
  }

  /** The final phase adds no obligation. */
  lemma FirstSame(s: Session, pre: seq<Step>, steps: seq<Step>)
    requires Concluded(pre, steps) && Kernel(s.graph) && Witnessed(s.graph)
    ensures SameFrame(AfterAll(s, pre).graph, AfterAll(s, steps).graph)
  {
    hide AfterAll, EarnedSince;
    assert steps[..|pre|] == pre;
    KernelOverSteps(s, pre);
    assert FirstOf(AfterAll(s, pre).graph.obligations, 0);
    ClosedOverVerifications(s, steps, |pre|, 0);
  }

  lemma UniqueIsFirst(g: Graph, i: nat)
    requires UniqueIds(g) && i < |g.obligations|
    ensures FirstOf(g.obligations, i)
  {
  }

  lemma SameIdSamePlace(g: Graph, i: nat, k: int)
    requires UniqueIds(g) && i < |g.obligations| && PromptClosedAt(g, k) && g.obligations[i].id == PromptContractId
    ensures k == i
  {
  }

  /** Whether an obligation ends closed, by its id. */
  ghost predicate EndsClosed(id: ObligationId, pre: seq<Step>, steps: seq<Step>)
    requires steps != [] && steps[|steps| - 1].Verified?
  {
    if id in {IntentAlignmentId, SimplicityId} then ModelReviewed(steps[|steps| - 1].v)
    else id.Named? ==> PassedIn(id, pre, steps)
  }

  lemma EndsClosedIff(criteria: seq<ObligationId>, strategy: Strategy, pre: seq<Step>, steps: seq<Step>, i: nat)
    requires NamedApart(criteria) && Concluded(pre, steps)
    requires i < |AfterAll(InitialSession(criteria, strategy), steps).graph.obligations|
    ensures steps[|steps| - 1].Verified?
    ensures var o := AfterAll(InitialSession(criteria, strategy), steps).graph.obligations[i];
            && (o.id in OWN_IDS || o.id in criteria)
            && (o.status == Closed <==> EndsClosed(o.id, pre, steps))
  {
    hide InitialSession, AfterAll, EarnedSince, PassedIn, ModelReviewed;
    ClosedAtEnd(criteria, strategy, pre, steps, i);
    EarnedInFinalPhase(pre, steps, AfterAll(InitialSession(criteria, strategy), steps).graph.obligations[i].id);
  }

  /** A concluded run leaves nothing open exactly when an independent model review concluded it and every criterion was
      passed by the gate of one of its verifications. */
  lemma ClosesExactly(criteria: seq<ObligationId>, strategy: Strategy, pre: seq<Step>, steps: seq<Step>)
    requires NamedApart(criteria) && Concluded(pre, steps)
    ensures AllClosed(AfterAll(InitialSession(criteria, strategy), steps).graph) <==>
              ModelReviewed(steps[|steps| - 1].v) && forall id | id in criteria :: PassedIn(id, pre, steps)
  {
    LastVerifies(pre, steps);
    RunInvariant(criteria, strategy, steps);
    CriteriaArePresent(criteria, strategy, steps);
    hide InitialSession, AfterAll, PassedIn, ModelReviewed, Concluded, EndsClosed, Kernel, NamedApart, AllClosed, OWN_IDS;
    var g := AfterAll(InitialSession(criteria, strategy), steps).graph;
    forall i | 0 <= i < |g.obligations|
      ensures g.obligations[i].id in OWN_IDS || g.obligations[i].id in criteria
      ensures g.obligations[i].status == Closed <==> EndsClosed(g.obligations[i].id, pre, steps)
    {
      EndsClosedIff(criteria, strategy, pre, steps, i);
    }
    ClosedById(g, criteria, pre, steps);
  }

  lemma ClosedById(g: Graph, criteria: seq<ObligationId>, pre: seq<Step>, steps: seq<Step>)
    requires Kernel(g) && NamedApart(criteria) && steps != [] && steps[|steps| - 1].Verified?
    requires forall i | 0 <= i < |g.obligations| ::
               && (g.obligations[i].id in OWN_IDS || g.obligations[i].id in criteria)
               && (g.obligations[i].status == Closed <==> EndsClosed(g.obligations[i].id, pre, steps))
    requires |g.obligations| >= |criteria| + 4 && forall j | 0 <= j < |criteria| :: g.obligations[j + 4].id == criteria[j]
    ensures AllClosed(g) <==>
              ModelReviewed(steps[|steps| - 1].v) && forall id | id in criteria :: PassedIn(id, pre, steps)
  {
    hide PassedIn, ModelReviewed, AllClosed;
    AllByIndex(g);
    assert EndsClosed(g.obligations[0].id, pre, steps) <==> ModelReviewed(steps[|steps| - 1].v);
    forall id | id in criteria && AllClosed(g) ensures PassedIn(id, pre, steps) {
      var j :| 0 <= j < |criteria| && criteria[j] == id;
      assert g.obligations[j + 4].id == id;
    }
  }

  lemma LastVerifies(pre: seq<Step>, steps: seq<Step>)
    requires Concluded(pre, steps)
    ensures steps != [] && steps[|steps| - 1].Verified?
  {
  }

  lemma AllByIndex(g: Graph)
    requires Kernel(g)
    ensures AllClosed(g) <==> forall i | 0 <= i < |g.obligations| :: g.obligations[i].status == Closed
  {
    if AllClosed(g) {
      forall i | 0 <= i < |g.obligations| ensures g.obligations[i].status == Closed {
        assert g.obligations[i] in g.obligations;
      }
    }
  }

  lemma CriteriaArePresent(criteria: seq<ObligationId>, strategy: Strategy, steps: seq<Step>)
    ensures var g := AfterAll(InitialSession(criteria, strategy), steps).graph;
            |g.obligations| >= |criteria| + 4 && forall j | 0 <= j < |criteria| :: g.obligations[j + 4].id == criteria[j]
  {
    hide AfterAll;
    RunInvariant(criteria, strategy, steps);
    var start := InitialSession(criteria, strategy).graph;
    forall j | 0 <= j < |criteria|
      ensures |start.obligations| == |criteria| + 4 && start.obligations[j + 4].id == criteria[j]
    {
    }
  }
}
