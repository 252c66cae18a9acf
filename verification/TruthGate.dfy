/** The truth gate on the kernel's own files: its ledger, its last writes, and when its verdict is PROVEN. */
module TruthGate {
  import opened Common
  import opened JsonPointer
  import opened ProofGraph
  import opened EvidencePolicy
  import opened VerificationPlan
  import opened Documents
  import opened LiveEvidence
  import opened Assurance
  import opened Truth
  import opened ObligationTheorems

  // ---------------------------------------------------------------- the kernel's own claims

  /** A claim on a sealed report when the sealed evidence is valid, an admission of ignorance otherwise. */
  function SealedClaim(coreValid: bool, category: Category, bundlePath: string): Claim {
    if coreValid then FieldClaim(category, BundlePath(bundlePath), "verdict", Str("PASS")) else UnknownOf(category)
  }

  function RoutingClaims(trace: Trace): seq<Claim> {
    if !trace.routingClaimed then []
    else if trace.routingObserved then [FieldClaim(ModelRoutingCategory, TRACE, "routingObserved", Bool(true))]
    else [UnknownOf(ModelRoutingCategory)]
  }

  function LedgerFor(coreValid: bool, trace: Trace): (claims: seq<Claim>)
    ensures |claims| >= 4
  {
    [SealedClaim(coreValid, CheckResult, BUNDLE_CHECKS),
     SealedClaim(coreValid, ChangeScope, BUNDLE_DIFF),
     FieldClaim(ReviewResult, REVIEW, "verdict", Str("APPROVED")),
     FieldClaim(SimplicityCategory, REVIEW, "simplicityVerdict", Str("MINIMAL"))] + RoutingClaims(trace)
  }

  /** The files hold the kernel's ledger and the documents it is about. */
  ghost predicate HoldsLedger(files: Files, coreValid: bool, trace: Trace) {
    && CLAIMS in files && files[CLAIMS] == ClaimsFile(LedgerFor(coreValid, trace))
    && TRACE in files && files[TRACE] == TraceFile(trace)
    && REVIEW in files && files[REVIEW].ReviewFile?
    && (coreValid ==> HoldsDocuments(files))
  }

  lemma SealedClaimSupported(files: Files, coreValid: bool, category: Category, bundlePath: string, view: View, condition: bool)
    requires coreValid ==>
               && BundlePath(bundlePath) in files && SafeArtifact(BundlePath(bundlePath))
               && ShowsField(Parsed(files[BundlePath(bundlePath)], view), "verdict", Str("PASS"), condition)
    ensures Supported(files, SealedClaim(coreValid, category, bundlePath), view) <==> coreValid && condition
    ensures SealedClaim(coreValid, category, bundlePath).category == category
  {
    if coreValid {
      FieldClaimSupported(files, category, BundlePath(bundlePath), "verdict", Str("PASS"), view, condition);
    }
  }

  /** Every claim of the ledger is supported exactly when the documents deserve it. */
  ghost predicate LedgerSupported(files: Files, coreValid: bool, trace: Trace, view: View) {
    forall i | 0 <= i < |LedgerFor(coreValid, trace)| :: Supported(files, LedgerFor(coreValid, trace)[i], view)
  }

  predicate Deserved(files: Files, coreValid: bool, trace: Trace)
    requires REVIEW in files && files[REVIEW].ReviewFile? && (coreValid ==> HoldsDocuments(files))
  {
    && coreValid
    && files[BundlePath(BUNDLE_CHECKS)].report.verdict == ReportPass
    && files[BundlePath(BUNDLE_DIFF)].diff.verdict == ReportPass
    && files[REVIEW].review.verdict == Approved
    && files[REVIEW].review.simplicity == Minimal
    && (trace.routingClaimed ==> trace.routingObserved)
  }

  lemma UnknownUnsupported(files: Files, category: Category, view: View)
    ensures !Supported(files, UnknownOf(category), view)
  {
  }

  lemma RoutingSupported(files: Files, trace: Trace, view: View)
    requires Shows(view) && TRACE in files && files[TRACE] == TraceFile(trace)
    ensures (forall i | 0 <= i < |RoutingClaims(trace)| :: Supported(files, RoutingClaims(trace)[i], view)) <==>
              (trace.routingClaimed ==> trace.routingObserved)
  {
    hide Supported, Evaluate, FieldClaim, UnknownOf;
    FieldClaimSupported(files, ModelRoutingCategory, TRACE, "routingObserved", Bool(true), view, trace.routingObserved);
    UnknownUnsupported(files, ModelRoutingCategory, view);
    if trace.routingClaimed {
      var routing := RoutingClaims(trace);
      assert |routing| == 1;
      assert routing[0] == if trace.routingObserved then FieldClaim(ModelRoutingCategory, TRACE, "routingObserved", Bool(true))
                           else UnknownOf(ModelRoutingCategory);
    }
  }

  lemma FirstFour(files: Files, coreValid: bool, trace: Trace, view: View)
    ensures LedgerSupported(files, coreValid, trace, view) <==>
              && Supported(files, SealedClaim(coreValid, CheckResult, BUNDLE_CHECKS), view)
              && Supported(files, SealedClaim(coreValid, ChangeScope, BUNDLE_DIFF), view)
              && Supported(files, FieldClaim(ReviewResult, REVIEW, "verdict", Str("APPROVED")), view)
              && Supported(files, FieldClaim(SimplicityCategory, REVIEW, "simplicityVerdict", Str("MINIMAL")), view)
              && forall i | 0 <= i < |RoutingClaims(trace)| :: Supported(files, RoutingClaims(trace)[i], view)
  {
    hide Supported, SealedClaim, FieldClaim, RoutingClaims;
    var ledger, routing := LedgerFor(coreValid, trace), RoutingClaims(trace);
    assert forall i | 0 <= i < |routing| :: routing[i] == ledger[i + 4];
    assert forall i | 4 <= i < |ledger| :: ledger[i] == routing[i - 4];
    assert ledger[0] == SealedClaim(coreValid, CheckResult, BUNDLE_CHECKS);
    assert ledger[1] == SealedClaim(coreValid, ChangeScope, BUNDLE_DIFF);
    assert ledger[2] == FieldClaim(ReviewResult, REVIEW, "verdict", Str("APPROVED"));
    assert ledger[3] == FieldClaim(SimplicityCategory, REVIEW, "simplicityVerdict", Str("MINIMAL"));
  }

  lemma LedgerDeserved(files: Files, coreValid: bool, trace: Trace, view: View)
    requires Shows(view) && HoldsLedger(files, coreValid, trace)
    ensures LedgerSupported(files, coreValid, trace, view) <==> Deserved(files, coreValid, trace)
  {
    hide Supported, SealedClaim, FieldClaim, RoutingClaims, LedgerFor, LedgerSupported;
    var review := files[REVIEW].review;
    FirstFour(files, coreValid, trace, view);
    SealedClaimSupported(files, coreValid, CheckResult, BUNDLE_CHECKS, view,
                         coreValid && files[BundlePath(BUNDLE_CHECKS)].report.verdict == ReportPass);
    SealedClaimSupported(files, coreValid, ChangeScope, BUNDLE_DIFF, view,
                         coreValid && files[BundlePath(BUNDLE_DIFF)].diff.verdict == ReportPass);
    FieldClaimSupported(files, ReviewResult, REVIEW, "verdict", Str("APPROVED"), view, review.verdict == Approved);
    FieldClaimSupported(files, SimplicityCategory, REVIEW, "simplicityVerdict", Str("MINIMAL"), view,
                        review.simplicity == Minimal);
    RoutingSupported(files, trace, view);
  }

  lemma LedgerCategories(coreValid: bool, trace: Trace, files: Files)
    requires TRACE in files && files[TRACE] == TraceFile(trace)
    ensures forall category | IsRequired(files, category) ::
              exists i | 0 <= i < |LedgerFor(coreValid, trace)| :: LedgerFor(coreValid, trace)[i].category == category
  {
    var ledger := LedgerFor(coreValid, trace);
    assert ledger[0].category == CheckResult && ledger[1].category == ChangeScope;
    assert ledger[2].category == ReviewResult && ledger[3].category == SimplicityCategory;
    if trace.routingClaimed {
      assert ledger[4] == RoutingClaims(trace)[0];
      assert ledger[4].category == ModelRoutingCategory;
    }
  }

  /** The kernel's own ledger is proven exactly when the sealed reports, the review and the routing are. */
  lemma LedgerProven(files: Files, coreValid: bool, trace: Trace, view: View)
    requires Shows(view) && HoldsLedger(files, coreValid, trace)
    ensures ClaimsProven(files, view) <==> Deserved(files, coreValid, trace)
  {
    hide Supported, LedgerFor, IsRequired, Shows;
    LedgerDeserved(files, coreValid, trace, view);
    LedgerCategories(coreValid, trace, files);
    var ledger := LedgerFor(coreValid, trace);
    assert files[CLAIMS].claims == ledger;
    assert (forall c | c in ledger :: Supported(files, c, view)) <==> LedgerSupported(files, coreValid, trace, view);
    forall category | IsRequired(files, category) ensures exists c | c in ledger :: c.category == category {
      var i :| 0 <= i < |ledger| && ledger[i].category == category;
      assert ledger[i] in ledger;
    }
  }

  // ---------------------------------------------------------------- the truth gate on the kernel's files

  /** The run directory the truth gate reads: the trace and the ledger are written last. */
  ghost function Finalized(files: Files, trace: Trace, size: Content -> nat, repository: RepositoryView): Files {
    var traced := files[TRACE := TraceFile(trace)];
    traced[CLAIMS := ClaimsFile(LedgerFor(CoreValid(traced, size, repository), trace))]
  }

  method FinalizeTruth(dir: RunDirectory, trace: Trace, view: View, size: Content -> nat, repository: RepositoryView)
    returns (r: Result<TruthReport, Crash>)
    modifies dir
    ensures dir.files == Finalized(old(dir.files), trace, size, repository)
    ensures r.Err? <==> Crashes(dir.files)
    ensures r.Ok? ==> (r.value.verdict == Proven <==> TruthProven(dir.files, true, view, size, repository))
    ensures r.Ok? ==> (r.value.verdict == Failed <==> TruthFailed(dir.files, true, view, size, repository))
    ensures r.Ok? ==> r.value.scope == ClaimScope(dir.files)
  {
    hide TruthProven, TruthFailed, Crashes, CoreValid, ClaimScope, LedgerFor;
    dir.files := dir.files[TRACE := TraceFile(trace)];
    var core := ValidateCoreEvidence(dir.files, size, repository);
    dir.files := dir.files[CLAIMS := ClaimsFile(LedgerFor(core.Valid?, trace))];
    r := BuildTruthReport(dir.files, true, view, size, repository);
  }

  lemma KernelPathsDiffer()
    ensures {CLAIMS, TRACE, REVIEW, GRAPH} !! {INTENT, PROMPT, DIFF, CHECKS, MANIFEST}
    ensures CLAIMS != TRACE && CLAIMS != REVIEW && CLAIMS != GRAPH && TRACE != REVIEW && TRACE != GRAPH && REVIEW != GRAPH
  {
    assert |CLAIMS.text| == 11 && |TRACE.text| == 24 && |REVIEW.text| == 11 && |GRAPH.text| == 16;
    assert |INTENT.text| == 20 && |PROMPT.text| == 23 && |DIFF.text| == 15 && |CHECKS.text| == 18 && |MANIFEST.text| == 18;
    assert CLAIMS.text[0] == 'c' && REVIEW.text[0] == 'r';
  }

  /** The directory when the truth gate opens it, given what the reviewer left and what the kernel then wrote. */
  ghost function GateFiles(left: Files, review: Review, g: Graph, trace: Trace, size: Content -> nat,
                           repository: RepositoryView): Files
  {
    Finalized(left[REVIEW := ReviewFile(review)][GRAPH := GraphFile(g)], trace, size, repository)
  }

  ghost function TracedFiles(left: Files, review: Review, g: Graph, trace: Trace): Files {
    left[REVIEW := ReviewFile(review)][GRAPH := GraphFile(g)][TRACE := TraceFile(trace)]
  }

  lemma GateFilesHold(left: Files, review: Review, g: Graph, trace: Trace, size: Content -> nat, repository: RepositoryView)
    ensures var files := GateFiles(left, review, g, trace, size, repository);
            var coreValid := CoreValid(TracedFiles(left, review, g, trace), size, repository);
            && HoldsLedger(files, coreValid, trace) && files[REVIEW] == ReviewFile(review)
            && GRAPH in files && files[GRAPH] == GraphFile(g)
            && (forall p: Path | p.BundlePath? || p in {INTENT, PROMPT, DIFF, CHECKS, MANIFEST} ::
                  (p in files <==> p in left) && (p in left ==> files[p] == left[p]))
  {
    hide LedgerFor, BundleValid, SourcesMatch, Substantiated;
    KernelPathsDiffer();
  }

  /** What PROVEN takes of the sealed reports, the routing and the simplicity of the change. */
  ghost predicate ReportsProve(files: Files, trace: Trace, size: Content -> nat, repository: RepositoryView) {
    && CoreValid(files, size, repository)
    && ChecksPass(Some(files[BundlePath(BUNDLE_CHECKS)]))
    && DiffPasses(Some(files[BundlePath(BUNDLE_DIFF)]))
    && (trace.routingClaimed ==> trace.routingObserved)
    && DIFF in files && !Bloated(files)
  }

  /** Everything PROVEN takes, on the kernel's own files: no claim the kernel writes adds a condition, and the
      obligations count only while the intent contract is there. */
  ghost predicate GateOpen(files: Files, g: Graph, trace: Trace, size: Content -> nat, repository: RepositoryView) {
    && ReportsProve(files, trace, size, repository)
    && (IsObject(files, INTENT) ==> Document(files, PROMPT).Some? && AllClosed(g))
  }

  lemma GateDocuments(files: Files, review: Review, g: Graph, trace: Trace, coreValid: bool)
    requires HoldsLedger(files, coreValid, trace) && files[REVIEW] == ReviewFile(review)
    requires GRAPH in files && files[GRAPH] == GraphFile(g)
    ensures Document(files, REVIEW) == Some(ReviewFile(review)) && Document(files, TRACE) == Some(TraceFile(trace))
    ensures Document(files, GRAPH) == Some(GraphFile(g)) && ObligationsOf(Document(files, GRAPH)) == g.obligations
    ensures SimplicityOf(files) == Some(review.simplicity)
    ensures AllClosed(g) <==> forall o | o in g.obligations :: !OpenRequired(o)
  {
  }

  /** On a run the review accepted, PROVEN is issued exactly when the gate is open. */
  lemma KernelVerdict(left: Files, review: Review, g: Graph, trace: Trace, view: View, size: Content -> nat,
                      repository: RepositoryView)
    requires Shows(view) && review.verdict == Approved && review.simplicity == Minimal
    ensures var files := GateFiles(left, review, g, trace, size, repository);
            TruthProven(files, true, view, size, repository) <==>
              && GateOpen(files, g, trace, size, repository)
              && CoreValid(TracedFiles(left, review, g, trace), size, repository)
  {
    hide Bloated, ClaimsProven, LedgerFor, BundleValid, SourcesMatch, Substantiated, Shows, GateFiles, HoldsLedger;
    var files := GateFiles(left, review, g, trace, size, repository);
    var coreValid := CoreValid(TracedFiles(left, review, g, trace), size, repository);
    GateFilesHold(left, review, g, trace, size, repository);
    GateDocuments(files, review, g, trace, coreValid);
    LedgerProven(files, coreValid, trace, view);
  }
}
