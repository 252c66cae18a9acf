/** The proof graph: mutable obligations, append-only evidence, and when evidence closes an obligation. */
module ProofGraph {
  import opened Common
  import opened EvidencePolicy

  datatype ObligationId =
    | PromptContractId
    | IntentAlignmentId
    | LowerScopeIntegrityId
    | UpperScopeIntegrityId
    | SimplicityId
    | DeterministicChecksId
    | RecoveryProgressId
    | Named(name: string)

  datatype EvidenceVerdict = EvidencePass | NotPass(name: string)

  datatype EvidenceId = Numbered(n: nat) | PromptEvidence

  datatype Evidence = Evidence(
    id: EvidenceId,
    obligation: ObligationId,
    authority: Authority,
    revision: int,
    verdict: EvidenceVerdict,
    origin: Origin,
    claim: ClaimType,
    runId: string,
    invocationId: Option<string>)

  datatype Status = Open | Closed

  datatype Reason =
    | StaleEvidence
    | EvidenceDidNotPass
    | EvidenceClaimTypeMismatch
    | EvidenceRunMismatch
    | HostReceiptInvocationMissing
    | Ineligible(reason: PolicyReason)
    | RecoveryEscalatedWorkload

  /** The value of one obligation at one moment. */
  datatype Obligation = Obligation(
    id: ObligationId,
    requiredAuthority: Authority,
    claim: ClaimType,
    required: bool,
    revision: int,
    status: Status,
    evidenceIds: seq<EvidenceId>,
    lastReason: Option<Reason>)

  /** The value of the whole graph at one moment. */
  datatype Graph = Graph(obligations: seq<Obligation>, evidence: seq<Evidence>, runId: string)

  datatype GraphError = UnsupportedAuthorityError | UnknownObligation | DuplicateObligation

  /** The claim an obligation or a piece of evidence makes when it names none. */
  function DefaultClaim(id: ObligationId): ClaimType {
    match id
    case PromptContractId => PromptContractApplied
    case IntentAlignmentId => IntentAlignment
    case LowerScopeIntegrityId => ScopeIntegrity
    case UpperScopeIntegrityId => ScopeIntegrity
    case SimplicityId => Simplicity
    case _ => ProductBehavior
  }

  function DefaultOrigin(authority: Authority): Origin {
    match authority
    case DiffGuard => CoreDiffGuard
    case ModelReview => ParentReview
    case ExternalAuthority => ParentExternalObservation
    case _ => CoreDeterministic
  }

  function NewObligation(id: ObligationId, requiredAuthority: Authority): Obligation {
    Obligation(id, requiredAuthority, DefaultClaim(id), true, 0, Open, [], None)
  }

  /** The first obligation with this id, or the number of obligations when there is none. */
  function Find(obs: seq<Obligation>, id: ObligationId): (k: nat)
    ensures k <= |obs|
    ensures forall j | 0 <= j < k :: obs[j].id != id
    ensures k < |obs| ==> obs[k].id == id
  {
    if obs == [] || obs[0].id == id then 0 else 1 + Find(obs[1..], id)
  }

  /** One obligation after one piece of evidence about it. */
  function Judge(o: Obligation, e: Evidence, runId: string): Obligation {
    var noted := o.(evidenceIds := o.evidenceIds + [e.id]);
    if e.revision != o.revision then noted.(lastReason := Some(StaleEvidence))
    else if e.verdict != EvidencePass then noted.(lastReason := Some(EvidenceDidNotPass))
    else if e.claim != o.claim then noted.(lastReason := Some(EvidenceClaimTypeMismatch))
    else if runId != "" && e.runId != runId then noted.(lastReason := Some(EvidenceRunMismatch))
    else if e.origin == ParentHostReceipt && (e.invocationId == None || e.invocationId == Some("")) then
      noted.(lastReason := Some(HostReceiptInvocationMissing))
    else
      var eligibility := CanClose(o.claim, e.origin, e.authority);
      if !eligibility.allowed then noted.(lastReason := Some(Ineligible(eligibility.reason)))
      else noted.(status := Closed, lastReason := None)
  }

  function Recorded(g: Graph, e: Evidence): Result<Graph, GraphError> {
    if e.authority.UnsupportedAuthority? then Err(UnsupportedAuthorityError)
    else
      var k := Find(g.obligations, e.obligation);
      if k == |g.obligations| then Err(UnknownObligation)
      else Ok(g.(obligations := g.obligations[k := Judge(g.obligations[k], e, g.runId)],
                 evidence := g.evidence + [e]))
  }

  // ---------------------------------------------------------------- heap form

  class ProofObligation {
    const id: ObligationId
    const claim: ClaimType
    const required: bool
    var requiredAuthority: Authority
    var revision: int
    var status: Status
    var evidenceIds: seq<EvidenceId>
    var lastReason: Option<Reason>

    constructor (id: ObligationId, requiredAuthority: Authority)
      ensures Value() == NewObligation(id, requiredAuthority)
    {
      this.id := id;
      this.claim := DefaultClaim(id);
      this.required := true;
      this.requiredAuthority := requiredAuthority;
      this.revision, this.status, this.evidenceIds, this.lastReason := 0, Open, [], None;
    }

    function Value(): Obligation
      reads this
    {
      Obligation(id, requiredAuthority, claim, required, revision, status, evidenceIds, lastReason)
    }
  }

  ghost function Values(obs: seq<ProofObligation>): (vs: seq<Obligation>)
    reads obs
    ensures |vs| == |obs| && forall i | 0 <= i < |obs| :: vs[i] == obs[i].Value()
  {
    seq(|obs|, i requires 0 <= i < |obs| reads obs => obs[i].Value())
  }

  class ProofGraphStore {
    var obligations: seq<ProofObligation>
    var evidence: seq<Evidence>
    const runId: string

    /** The obligations are distinct objects. */
    ghost predicate Valid()
      reads this
    {
      forall i, j | 0 <= i < j < |obligations| :: obligations[i] != obligations[j]
    }

    ghost function Value(): Graph
      reads this, obligations
    {
      Graph(Values(obligations), evidence, runId)
    }

    constructor (obligations: seq<ProofObligation>)
      requires forall i, j | 0 <= i < j < |obligations| :: obligations[i] != obligations[j]
      ensures Valid() && this.obligations == obligations
      ensures Value() == Graph(Values(obligations), [], "")
    {
      this.obligations := obligations;
      this.evidence := [];
      this.runId := "";
    }

    /** A snapshot of the graph, as it is persisted. */
    method ToDict() returns (g: Graph)
      ensures g == Value()
    {
      var values: seq<Obligation> := [];
      var i := 0;
      while i < |obligations|
        invariant 0 <= i == |values| <= |obligations|
        invariant forall j | 0 <= j < i :: values[j] == obligations[j].Value()
      {
        values := values + [obligations[i].Value()];
        i := i + 1;
      }
      assert values == Values(obligations);
      return Graph(values, evidence, runId);
    }

    method AddObligation(o: ProofObligation) returns (r: Result<(), GraphError>)
      requires Valid() && o !in obligations
      modifies this`obligations
      ensures Valid()
      ensures r.Ok? <==> Find(old(Value()).obligations, o.id) == old(|obligations|)
      ensures r.Ok? ==> obligations == old(obligations) + [o]
      ensures r.Err? ==> r.error == DuplicateObligation && obligations == old(obligations)
    {
      var k := 0;
      while k < |obligations|
        invariant 0 <= k <= |obligations|
        invariant forall j | 0 <= j < k :: obligations[j].id != o.id
      {
        if obligations[k].id == o.id { return Err(DuplicateObligation); }
        k := k + 1;
      }
      obligations := obligations + [o];
      return Ok(());
    }

    /** A failed recording changes nothing; a successful one is Recorded. */
    method Record(e: Evidence) returns (r: Result<(), GraphError>)
      requires Valid()
      modifies this`evidence, obligations
      ensures Valid() && obligations == old(obligations)
      ensures match Recorded(old(Value()), e)
              case Ok(g) => r.Ok? && Value() == g
              case Err(error) => r == Err(error) && Value() == old(Value())
    {
      if e.authority.UnsupportedAuthority? { return Err(UnsupportedAuthorityError); }
      var k := 0;
      while k < |obligations| && obligations[k].id != e.obligation
        invariant 0 <= k <= |obligations|
        invariant forall j | 0 <= j < k :: obligations[j].id != e.obligation
      {
        k := k + 1;
      }
      assert k == Find(Value().obligations, e.obligation);
      if k == |obligations| { return Err(UnknownObligation); }
      var o := obligations[k];
      evidence := evidence + [e];
      Apply(o, e);
      assert forall i | 0 <= i < |obligations| && i != k :: obligations[i].Value() == old(obligations[i].Value());
      assert Values(obligations) == old(Values(obligations))[k := Judge(old(o.Value()), e, runId)];
      return Ok(());
    }

    method Apply(o: ProofObligation, e: Evidence)
      modifies o
      ensures o.Value() == Judge(old(o.Value()), e, runId)
    {
      o.evidenceIds := o.evidenceIds + [e.id];
      if e.revision != o.revision {
        o.lastReason := Some(StaleEvidence);
        return;
      }
      if e.verdict != EvidencePass {
        o.lastReason := Some(EvidenceDidNotPass);
        return;
      }
      if e.claim != o.claim {
        o.lastReason := Some(EvidenceClaimTypeMismatch);
        return;
      }
      if runId != "" && e.runId != runId {
        o.lastReason := Some(EvidenceRunMismatch);
        return;
      }
      if e.origin == ParentHostReceipt && (e.invocationId == None || e.invocationId == Some("")) {
        o.lastReason := Some(HostReceiptInvocationMissing);
        return;
      }
      var eligibility := CanClose(o.claim, e.origin, e.authority);
      if !eligibility.allowed {
        o.lastReason := Some(Ineligible(eligibility.reason));
        return;
      }
      o.status := Closed;
      o.lastReason := None;
    }
  }

  // ---------------------------------------------------------------- what recording means

  /** Evidence that entitles an obligation to be closed. */
  predicate Qualifies(e: Evidence, o: Obligation, runId: string) {
    && e.obligation == o.id
    && e.revision == o.revision
    && e.verdict == EvidencePass
    && e.claim == o.claim
    && (runId == "" || e.runId == runId)
    && (e.origin == ParentHostReceipt ==> e.invocationId.Some? && e.invocationId.value != "")
    && e.origin in AllowedOrigins(o.claim)
    && e.authority in AuthorityMinimum(o.claim)
  }

  /** Recording a batch; evidence that is refused leaves the graph as it was. */
  function RecordAll(g: Graph, es: seq<Evidence>): Graph {
    if es == [] then g
    else
      var before := RecordAll(g, es[..|es| - 1]);
      match Recorded(before, es[|es| - 1])
      case Ok(after) => after
      case Err(_) => before
  }

  /** Everything recording leaves alone. */
  predicate SameFrame(g: Graph, h: Graph) {
    && g.runId == h.runId
    && |g.obligations| == |h.obligations|
    && forall i | 0 <= i < |g.obligations| ::
         && g.obligations[i].id == h.obligations[i].id
         && g.obligations[i].claim == h.obligations[i].claim
         && g.obligations[i].required == h.obligations[i].required
         && g.obligations[i].revision == h.obligations[i].revision
         && g.obligations[i].requiredAuthority == h.obligations[i].requiredAuthority
  }

  lemma JudgeCloses(o: Obligation, e: Evidence, runId: string)
    requires e.obligation == o.id
    ensures Judge(o, e, runId).status == Closed <==> o.status == Closed || Qualifies(e, o, runId)
  {
  }

  predicate FirstOf(obs: seq<Obligation>, i: nat) {
    i < |obs| && forall j | 0 <= j < i :: obs[j].id != obs[i].id
  }

  lemma RecordedCloses(g: Graph, e: Evidence, i: nat)
    requires FirstOf(g.obligations, i) && Recorded(g, e).Ok?
    ensures var h := Recorded(g, e).value;
            SameFrame(g, h) &&
            (h.obligations[i].status == Closed <==>
             g.obligations[i].status == Closed || Qualifies(e, g.obligations[i], g.runId))
  {
    var k := Find(g.obligations, e.obligation);
    JudgeCloses(g.obligations[k], e, g.runId);
  }

  lemma RefusedNeverQualifies(g: Graph, e: Evidence, i: nat)
    requires FirstOf(g.obligations, i) && Recorded(g, e).Err?
    ensures !Qualifies(e, g.obligations[i], g.runId)
  {
  }

  /** An obligation is closed after a batch exactly when it was closed before
      or the batch holds some qualifying evidence; nothing else about it moved. */
  lemma {:induction false} ClosedIff(g: Graph, es: seq<Evidence>, i: nat)
    requires FirstOf(g.obligations, i)
    ensures SameFrame(g, RecordAll(g, es))
    ensures RecordAll(g, es).obligations[i].status == Closed <==>
              g.obligations[i].status == Closed || exists e | e in es :: Qualifies(e, g.obligations[i], g.runId)
  {
    if es != [] {
      var init, last := es[..|es| - 1], es[|es| - 1];
      ClosedIff(g, init, i);
      var before := RecordAll(g, init);
      assert es == init + [last];
      assert forall e :: Qualifies(e, before.obligations[i], g.runId) == Qualifies(e, g.obligations[i], g.runId);
      if Recorded(before, last).Ok? {
        RecordedCloses(before, last, i);
      } else {
        RefusedNeverQualifies(before, last, i);
      }
    }
  }

  /** The closed set depends only on which evidence was recorded: not on order, not on repeats. */
  lemma ClosedSetIgnoresOrder(g: Graph, es: seq<Evidence>, fs: seq<Evidence>, i: nat)
    requires FirstOf(g.obligations, i)
    requires forall e :: e in es <==> e in fs
    ensures SameFrame(g, RecordAll(g, es)) && SameFrame(g, RecordAll(g, fs))
    ensures RecordAll(g, es).obligations[i].status == RecordAll(g, fs).obligations[i].status
  {
    ClosedIff(g, es, i);
    ClosedIff(g, fs, i);
    var o := g.obligations[i];
    assert (exists e | e in es :: Qualifies(e, o, g.runId)) <==> (exists e | e in fs :: Qualifies(e, o, g.runId));
  }

  /** Every closed obligation has a witness among the recorded evidence, at its present revision. */
  ghost predicate Witnessed(g: Graph) {
    forall i | 0 <= i < |g.obligations| && g.obligations[i].status == Closed ::
      exists e | e in g.evidence :: Qualifies(e, g.obligations[i], g.runId)
  }

  lemma RecordKeepsWitnesses(g: Graph, e: Evidence)
    requires Witnessed(g) && Recorded(g, e).Ok?
    ensures Witnessed(Recorded(g, e).value)
  {
    var k := Find(g.obligations, e.obligation);
    var h := Recorded(g, e).value;
    JudgeCloses(g.obligations[k], e, g.runId);
    forall i | 0 <= i < |h.obligations| && h.obligations[i].status == Closed
      ensures exists w | w in h.evidence :: Qualifies(w, h.obligations[i], h.runId)
    {
      if g.obligations[i].status == Closed {
        var w :| w in g.evidence && Qualifies(w, g.obligations[i], g.runId);
        assert w in h.evidence && Qualifies(w, h.obligations[i], h.runId);
      } else {
        assert e in h.evidence && Qualifies(e, h.obligations[i], h.runId);
      }
    }
  }
}
