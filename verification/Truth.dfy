/** The truth gate: the last decision of a run, made from the files of its directory alone. */
module Truth {
  import opened Common
  import opened EvidencePolicy
  import opened ProofGraph
  import opened VerificationPlan
  import opened Documents
  import opened LiveEvidence
  import opened Assurance

  const PROMPT: Path := RunPath("prompt-compilation.json")
  const INTENT: Path := RunPath("intent-contract.json")
  const GRAPH: Path := RunPath("proof-graph.json")
  const RUN: Path := RunPath("run.json")
  const PROVENANCE: Path := RunPath("run-provenance.json")

  datatype Finding =
    | LiveEvidenceInvalid(reason: Rejection)
    | PromptContractMissing
    | CheckEvidenceMissing
    | CheckEvidenceEmpty
    | ChecksFailed
    | DiffMissing
    | DiffFailed
    | ReviewEvidenceMissing
    | ReviewNotApproved
    | ModelTraceMissing
    | ModelRoutingUnproven
    | ProofGraphMissing
    | ObligationUnproven(id: ObligationId)
    | ObligationOpen(id: ObligationId)
    | FromClaims(claim: ClaimFinding)
    | FromSimplicity(simplicity: SimplicityFinding)

  datatype Scope = AuthenticatedHost | LocalDeterministic | UnprovenScope

  datatype TruthReport = TruthReport(verdict: Verdict, scope: Scope, blockers: seq<Finding>, unproven: seq<Finding>)

  datatype Crash = UnreadableDocument

  // ---------------------------------------------------------------- reading the run directory

  predicate IsObject(files: Files, path: Path) {
    path in files && !files[path].NotAnObject?
  }

  /** An object with at least one field; anything else is as good as absent. */
  function Document(files: Files, path: Path): Option<Content> {
    if IsObject(files, path) && files[path] != OtherObject(map[]) then Some(files[path]) else None
  }

  const LOADED: set<Path> := {RUN, PROVENANCE, PROMPT, CHECKS, DIFF, REVIEW, TRACE, INTENT, GRAPH}

  /** The reads that nothing catches: one of these files is there and is not an object. */
  predicate Crashes(files: Files) {
    exists p | p in LOADED :: p in files && files[p].NotAnObject?
  }

  predicate NeedsCore(files: Files, requireCore: bool) {
    requireCore || MANIFEST in files
  }

  /** The reports the verdict rests on: the sealed ones when the sealed evidence is valid. */
  ghost function CheckDocument(files: Files, requireCore: bool, size: Content -> nat, repository: RepositoryView)
    : Option<Content>
  {
    if NeedsCore(files, requireCore) && CoreValid(files, size, repository) then Some(files[BundlePath(BUNDLE_CHECKS)])
    else Document(files, CHECKS)
  }

  ghost function DiffDocument(files: Files, requireCore: bool, size: Content -> nat, repository: RepositoryView)
    : Option<Content>
  {
    if NeedsCore(files, requireCore) && CoreValid(files, size, repository) then Some(files[BundlePath(BUNDLE_DIFF)])
    else Document(files, DIFF)
  }

  function ObligationsOf(graph: Option<Content>): seq<Obligation> {
    if graph.Some? && graph.value.GraphFile? then graph.value.graph.obligations else []
  }

  // ---------------------------------------------------------------- claim scope

  datatype ClaimState = NotRequired | ClaimOpen | ClaimClosed

  predicate Requires(g: Graph, claim: ClaimType) {
    exists o | o in g.obligations :: o.required && o.claim == claim
  }

  function Summary(g: Graph, claim: ClaimType): ClaimState {
    if !Requires(g, claim) then NotRequired
    else if forall o | o in g.obligations && o.required && o.claim == claim :: o.status == Closed then ClaimClosed
    else ClaimOpen
  }

  function ClaimAt(files: Files, claim: ClaimType): ClaimState {
    if INTENT in files && IsObject(files, INTENT) && GRAPH in files && files[GRAPH].GraphFile? then
      Summary(files[GRAPH].graph, claim)
    else NotRequired
  }

  function ClaimScope(files: Files): Scope {
    if ClaimAt(files, HostExecution) == ClaimClosed then AuthenticatedHost
    else if forall c | c in {PromptContractApplied, ProductBehavior, ScopeIntegrity} :: ClaimAt(files, c) != ClaimOpen
    then LocalDeterministic
    else UnprovenScope
  }

  /** The obligations the scope is read from: none without an intent contract. */
  function ScopedObligations(files: Files): seq<Obligation> {
    if IsObject(files, INTENT) && GRAPH in files && files[GRAPH].GraphFile? then files[GRAPH].graph.obligations else []
  }

  /** The scope, told from the obligations one by one: the host is authenticated when it is required and every such
      obligation is closed; without that, an open obligation for the prompt, the product or the scope leaves it unproven. */
  lemma ScopeExactly(files: Files)
    ensures var obligations := ScopedObligations(files);
            && (ClaimScope(files) == AuthenticatedHost <==>
                  && (exists o | o in obligations :: o.required && o.claim == HostExecution)
                  && (forall o | o in obligations :: o.required && o.claim == HostExecution ==> o.status == Closed))
            && (ClaimScope(files) == UnprovenScope <==>
                  && ClaimScope(files) != AuthenticatedHost
                  && exists o | o in obligations :: OpenRequired(o)
                       && (o.claim == PromptContractApplied || o.claim == ProductBehavior || o.claim == ScopeIntegrity))
  {
    var g := Graph(ScopedObligations(files), [], "");
    forall c ensures ClaimAt(files, c) == Summary(g, c) {
    }
    forall c ensures Summary(g, c) == ClaimOpen <==> exists o | o in g.obligations :: OpenRequired(o) && o.claim == c {
    }
    var local := {PromptContractApplied, ProductBehavior, ScopeIntegrity};
    hide ClaimAt, Summary;
    if c :| c in local && ClaimAt(files, c) == ClaimOpen {
      assert ClaimScope(files) != LocalDeterministic;
      var o :| o in g.obligations && OpenRequired(o) && o.claim == c;
    } else {
      assert ClaimScope(files) != UnprovenScope;
      forall o | o in g.obligations && OpenRequired(o) ensures o.claim !in local {
        assert Summary(g, o.claim) == ClaimOpen;
      }
    }
  }

  // ---------------------------------------------------------------- when each verdict is due

  predicate ChecksPass(document: Option<Content>) {
    document.Some? && document.value.ReportFile?
    && document.value.report.items != [] && document.value.report.verdict == ReportPass
  }

  predicate DiffPasses(document: Option<Content>) {
    document.Some? && document.value.DiffFile? && document.value.diff.verdict == ReportPass
  }

  predicate ReviewApproves(document: Option<Content>) {
    document.Some? && document.value.ReviewFile? && document.value.review.verdict == Approved
  }

  predicate TraceSettled(document: Option<Content>) {
    document.Some? && (document.value.TraceFile? && document.value.trace.routingClaimed ==> document.value.trace.routingObserved)
  }

  predicate OpenRequired(o: Obligation) {
    o.required && o.status != Closed
  }

  /** Every condition of PROVEN. */
  ghost predicate TruthProven(files: Files, requireCore: bool, view: View, size: Content -> nat,
                              repository: RepositoryView)
  {
    && (NeedsCore(files, requireCore) ==> CoreValid(files, size, repository))
    && ChecksPass(CheckDocument(files, requireCore, size, repository))
    && DiffPasses(DiffDocument(files, requireCore, size, repository))
    && ReviewApproves(Document(files, REVIEW))
    && TraceSettled(Document(files, TRACE))
    && (IsObject(files, INTENT) ==>
          && Document(files, PROMPT).Some? && Document(files, GRAPH).Some?
          && forall o | o in ObligationsOf(Document(files, GRAPH)) :: !OpenRequired(o))
    && ClaimsProven(files, view)
    && SimplicityProven(files)
  }

  /** Every way to FAILED; a required obligation left open fails the run unless its claim is semantic. */
  ghost predicate TruthFailed(files: Files, requireCore: bool, view: View, size: Content -> nat,
                              repository: RepositoryView)
  {
    || (NeedsCore(files, requireCore) && !CoreValid(files, size, repository))
    || !ChecksPass(CheckDocument(files, requireCore, size, repository))
    || !DiffPasses(DiffDocument(files, requireCore, size, repository))
    || (Document(files, REVIEW).Some? && !ReviewApproves(Document(files, REVIEW)))
    || (IsObject(files, INTENT) &&
          (|| Document(files, PROMPT).None? || Document(files, GRAPH).None?
           || exists o | o in ObligationsOf(Document(files, GRAPH)) :: OpenRequired(o) && !Semantic(o.claim)))
    || ClaimsBlocked(files, view)
    || SimplicityBlocked(files)
  }

  // ---------------------------------------------------------------- the gate

  method JudgeObligations(obligations: seq<Obligation>) returns (blockers: seq<Finding>, unproven: seq<Finding>)
    ensures blockers == [] && unproven == [] <==> forall o | o in obligations :: !OpenRequired(o)
    ensures blockers != [] <==> exists o | o in obligations :: OpenRequired(o) && !Semantic(o.claim)
  {
    blockers, unproven := [], [];
    var i := 0;
    while i < |obligations|
      invariant 0 <= i <= |obligations|
      invariant blockers == [] && unproven == [] <==> forall j | 0 <= j < i :: !OpenRequired(obligations[j])
      invariant blockers != [] <==> exists j | 0 <= j < i :: OpenRequired(obligations[j]) && !Semantic(obligations[j].claim)
    {
      var o := obligations[i];
      if OpenRequired(o) {
        if Semantic(o.claim) {
          unproven := unproven + [ObligationUnproven(o.id)];
        } else {
          blockers := blockers + [ObligationOpen(o.id)];
        }
      }
      i := i + 1;
    }
  }

  /** The findings from checks, diff, review and trace. */
  method JudgeDocuments(checks: Option<Content>, diff: Option<Content>, review: Option<Content>, trace: Option<Content>)
    returns (blockers: seq<Finding>, unproven: seq<Finding>)
    ensures blockers == [] <==>
              ChecksPass(checks) && DiffPasses(diff) && (review.None? || ReviewApproves(review))
    ensures unproven == [] <==> review.Some? && TraceSettled(trace)
  {
    blockers, unproven := [], [];
    if checks.None? {
      blockers := blockers + [CheckEvidenceMissing];
    } else if !checks.value.ReportFile? || checks.value.report.items == [] {
      blockers := blockers + [CheckEvidenceEmpty];
    } else if checks.value.report.verdict != ReportPass {
      blockers := blockers + [ChecksFailed];
    }
    if diff.None? {
      blockers := blockers + [DiffMissing];
    } else if !DiffPasses(diff) {
      blockers := blockers + [DiffFailed];
    }
    if review.None? {
      unproven := unproven + [ReviewEvidenceMissing];
    } else if !ReviewApproves(review) {
      blockers := blockers + [ReviewNotApproved];
    }
    if trace.None? {
      unproven := unproven + [ModelTraceMissing];
    } else if !TraceSettled(trace) {
      unproven := unproven + [ModelRoutingUnproven];
    }
  }

  function Rejections(reasons: set<Rejection>): (fs: seq<Finding>)
    ensures fs == [] <==> reasons == {}
  {
    EveryRejectionListed();
    RejectionList(ALL_REJECTIONS, reasons)
  }

  const ALL_REJECTIONS: seq<Rejection> := [
    SchemaViolation, BundleLimitExceeded, PathSecurityViolation, PathCollision, MissingArtifact, UnexpectedArtifact,
    HashMismatch, SizeMismatch, MalformedJson, CoreEvidenceMissing, SourceMismatch, PlanMismatch,
    MandatoryCheckMissing, EvaluatorChanged, SemanticInvalid
  ]

  lemma EveryRejectionListed()
    ensures forall r: Rejection :: r in ALL_REJECTIONS
  {
    forall r: Rejection ensures r in ALL_REJECTIONS {
      var k := match r
        case SchemaViolation => 0
        case BundleLimitExceeded => 1
        case PathSecurityViolation => 2
        case PathCollision => 3
        case MissingArtifact => 4
        case UnexpectedArtifact => 5
        case HashMismatch => 6
        case SizeMismatch => 7
        case MalformedJson => 8
        case CoreEvidenceMissing => 9
        case SourceMismatch => 10
        case PlanMismatch => 11
        case MandatoryCheckMissing => 12
        case EvaluatorChanged => 13
        case SemanticInvalid => 14;
      assert ALL_REJECTIONS[k] == r;
    }
  }

  function RejectionList(all: seq<Rejection>, reasons: set<Rejection>): (fs: seq<Finding>)
    ensures fs == [] <==> forall r | r in all :: r !in reasons
  {
    if all == [] then []
    else (if all[0] in reasons then [LiveEvidenceInvalid(all[0])] else []) + RejectionList(all[1..], reasons)
  }

  function ClaimFindings(fs: seq<ClaimFinding>): (r: seq<Finding>)
    ensures |r| == |fs|
  {
    seq(|fs|, i requires 0 <= i < |fs| => FromClaims(fs[i]))
  }

  function SimplicityFindings(fs: seq<SimplicityFinding>): (r: seq<Finding>)
    ensures |r| == |fs|
  {
    seq(|fs|, i requires 0 <= i < |fs| => FromSimplicity(fs[i]))
  }

  /** The findings about the intent contract: its prompt, its graph, its obligations. */
  method JudgeIntent(files: Files) returns (blockers: seq<Finding>, unproven: seq<Finding>)
    ensures blockers == [] && unproven == [] <==>
              (IsObject(files, INTENT) ==>
                 && Document(files, PROMPT).Some? && Document(files, GRAPH).Some?
                 && forall o | o in ObligationsOf(Document(files, GRAPH)) :: !OpenRequired(o))
    ensures blockers != [] <==>
              IsObject(files, INTENT) &&
              (|| Document(files, PROMPT).None? || Document(files, GRAPH).None?
               || exists o | o in ObligationsOf(Document(files, GRAPH)) :: OpenRequired(o) && !Semantic(o.claim))
  {
    blockers, unproven := [], [];
    if !IsObject(files, INTENT) { return; }
    var graph := Document(files, GRAPH);
    blockers, unproven := JudgeObligations(ObligationsOf(graph));
    if graph.None? { blockers := [ProofGraphMissing] + blockers; }
    if Document(files, PROMPT).None? { blockers := [PromptContractMissing] + blockers; }
  }

  /** The sealed evidence, when the run needs it: its verdict and the reports it puts in place of the loose ones. */
  method CoreDocuments(files: Files, requireCore: bool, size: Content -> nat, repository: RepositoryView)
    returns (blockers: seq<Finding>, checks: Option<Content>, diff: Option<Content>)
    ensures blockers == [] <==> (NeedsCore(files, requireCore) ==> CoreValid(files, size, repository))
    ensures checks == CheckDocument(files, requireCore, size, repository)
    ensures diff == DiffDocument(files, requireCore, size, repository)
  {
    blockers, checks, diff := [], Document(files, CHECKS), Document(files, DIFF);
    if NeedsCore(files, requireCore) {
      var core := ValidateCoreEvidence(files, size, repository);
      match core {
        case Valid(report, diffReport, _) => checks, diff := Some(ReportFile(report)), Some(DiffFile(diffReport));
        case Rejected(reasons) => blockers := Rejections(reasons);
      }
    }
  }

  function VerdictFor(blockers: seq<Finding>, unproven: seq<Finding>): Verdict {
    if blockers != [] then Failed else if unproven != [] then Partial else Proven
  }

  method BuildTruthReport(files: Files, requireCore: bool, view: View, size: Content -> nat,
                          repository: RepositoryView)
    returns (r: Result<TruthReport, Crash>)
    ensures r.Err? <==> Crashes(files)
    ensures r.Ok? ==> (r.value.verdict == Proven <==> TruthProven(files, requireCore, view, size, repository))
    ensures r.Ok? ==> (r.value.verdict == Failed <==> TruthFailed(files, requireCore, view, size, repository))
    ensures r.Ok? ==> r.value.scope == ClaimScope(files)
  {
    if Crashes(files) { return Err(UnreadableDocument); }
    var coreBlockers, checks, diff := CoreDocuments(files, requireCore, size, repository);
    var claimAudit := AuditClaims(files, view);
    var simplicityBlocking, simplicityUnproven := AuditSimplicity(files);
    var documentBlockers, documentUnproven :=
      JudgeDocuments(checks, diff, Document(files, REVIEW), Document(files, TRACE));
    var intentBlockers, intentUnproven := JudgeIntent(files);
    var blockers := coreBlockers + documentBlockers + intentBlockers
                    + ClaimFindings(claimAudit.blocking) + SimplicityFindings(simplicityBlocking);
    var unproven := documentUnproven + intentUnproven
                    + ClaimFindings(claimAudit.unproven) + SimplicityFindings(simplicityUnproven);
    return Ok(TruthReport(VerdictFor(blockers, unproven), ClaimScope(files), blockers, unproven));
  }

  // ---------------------------------------------------------------- what the verdicts mean

  /** PROVEN and FAILED exclude each other, so the three verdicts are told apart by the files alone. */
  lemma VerdictsExclude(files: Files, requireCore: bool, view: View, size: Content -> nat, repository: RepositoryView)
    requires TruthProven(files, requireCore, view, size, repository)
    ensures !TruthFailed(files, requireCore, view, size, repository)
  {
    if CLAIMS in files && HasLedger(files) {
      forall c | c in files[CLAIMS].claims ensures !Blocks(files, c, view) {
        assert Supported(files, c, view);
      }
    }
  }

  /** A proven run whose graph is the kernel's own never reports an unproven scope. */
  lemma ProvenScope(files: Files, requireCore: bool, view: View, size: Content -> nat, repository: RepositoryView)
    requires TruthProven(files, requireCore, view, size, repository)
    ensures ClaimScope(files) != UnprovenScope
    ensures GRAPH in files && files[GRAPH].GraphFile? && !Requires(files[GRAPH].graph, HostExecution) ==>
              ClaimScope(files) == LocalDeterministic
  {
    if IsObject(files, INTENT) && GRAPH in files && files[GRAPH].GraphFile? {
      var g := files[GRAPH].graph;
      assert Document(files, GRAPH) == Some(files[GRAPH]);
      forall c ensures Summary(g, c) != ClaimOpen {
        assert forall o | o in g.obligations && o.required && o.claim == c :: !OpenRequired(o);
      }
    }
  }
}
