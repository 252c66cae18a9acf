/** Auditing the claim ledger and the simplicity evidence against the files they cite. */
module Assurance {
  import opened Common
  import opened JsonPointer
  import opened Text
  import opened VerificationPlan
  import opened Documents
  import opened LiveEvidence

  const CLAIMS: Path := RunPath("claims.json")
  const REVIEW: Path := RunPath("review.json")
  const TRACE: Path := RunPath("model-trace-summary.json")

  /** The object a file parses to; None when reading it raises. */
  type View = Content -> Option<Json>

  datatype Verdict = Proven | Partial | Failed

  datatype EvidenceStatus = EvidenceSupported | EvidenceMissing | EvidenceInvalid | EvidenceContradicted

  predicate SafeArtifact(path: Path) {
    path.text != "" && path.text[0] != '/'
  }

  /** Reading a file as an object; anything else raises. */
  function Parsed(content: Content, view: View): Option<Json> {
    if content.NotAnObject? then None else view(content)
  }

  /** The file parses, and the pointer leads to this node of what it parses to. */
  ghost predicate Reaches(content: Content, pointer: string, view: View, node: Json) {
    Parsed(content, view).Some? && Evaluate(Parsed(content, view).value, pointer) == Ok(node)
  }

  /** The cited file is there, by a run-relative path. */
  predicate Cites(files: Files, e: ClaimEvidence) {
    SafeArtifact(e.artifact) && e.artifact in files
  }

  predicate DigestFits(files: Files, e: ClaimEvidence)
    requires Cites(files, e)
  {
    e.sha.Some? ==> e.sha.value == ShaOf(files[e.artifact])
  }

  /** The files show what the evidence says: the cited file is the one whose digest is quoted, if any is, and where the
      evidence points into it there is a node, the expected one if a value is expected. A value is expected of a node
      alone. */
  ghost predicate Shown(files: Files, e: ClaimEvidence, view: View) {
    && Cites(files, e) && DigestFits(files, e)
    && (e.equals.Some? ==> e.pointer.Some?)
    && (e.pointer.Some? ==>
          exists node :: Reaches(files[e.artifact], e.pointer.value, view, node)
                         && (e.equals.Some? ==> node == e.equals.value))
  }

  /** The files speak against the evidence: the cited file is another one, or shows another value. */
  ghost predicate Refuted(files: Files, e: ClaimEvidence, view: View) {
    && Cites(files, e)
    && (!DigestFits(files, e)
        || (e.pointer.Some? && e.equals.Some?
            && exists node :: Reaches(files[e.artifact], e.pointer.value, view, node) && node != e.equals.value))
  }

  /** The evidence could not be looked up. */
  ghost predicate NotFound(files: Files, e: ClaimEvidence, view: View) {
    && SafeArtifact(e.artifact)
    && (e.artifact in files ==>
          && DigestFits(files, e) && e.pointer.Some?
          && forall node :: !Reaches(files[e.artifact], e.pointer.value, view, node))
  }

  function AuditEvidence(files: Files, e: ClaimEvidence, view: View): (status: EvidenceStatus)
    ensures status == EvidenceSupported <==> Shown(files, e, view)
    ensures status == EvidenceContradicted <==> Refuted(files, e, view)
    ensures status == EvidenceMissing <==> NotFound(files, e, view)
  {
    if !SafeArtifact(e.artifact) then EvidenceInvalid
    else if e.artifact !in files then EvidenceMissing
    else
      var content := files[e.artifact];
      if e.sha.Some? && e.sha.value != ShaOf(content) then EvidenceContradicted
      else if e.pointer.None? then if e.equals.Some? then EvidenceInvalid else EvidenceSupported
      else
        match Parsed(content, view)
        case None => EvidenceMissing
        case Some(document) =>
          match Evaluate(document, e.pointer.value)
          case Err(_) => EvidenceMissing
          case Ok(observed) =>
            assert Reaches(content, e.pointer.value, view, observed);
            if e.equals.Some? && observed != e.equals.value then EvidenceContradicted else EvidenceSupported
  }

  datatype ClaimFinding =
    | LedgerMissing
    | LedgerInvalid
    | LedgerEmpty
    | InvalidClaim(index: nat)
    | ContradictedClaim(index: nat)
    | UnknownClaim(index: nat)
    | ClaimEvidenceMissing(index: nat)
    | ClaimEvidenceUnsupported(index: nat)
    | InferenceReasoningMissing(index: nat)
    | CategoryMissing(category: Category)

  datatype ClaimAudit = ClaimAudit(blocking: seq<ClaimFinding>, unproven: seq<ClaimFinding>, supported: set<Category>)

  /** A stated fact or inference. */
  predicate WellFormed(c: Claim) {
    (c.kind == Fact || c.kind == Inference || c.kind == Unknown) && c.hasStatement
  }

  ghost predicate Contradicted(files: Files, c: Claim, view: View) {
    exists e | e in c.evidence :: Refuted(files, e, view)
  }

  /** The files show every piece of its evidence, and there is some. */
  ghost predicate Backed(files: Files, c: Claim, view: View) {
    c.evidence != [] && forall e | e in c.evidence :: Shown(files, e, view)
  }

  ghost predicate Supported(files: Files, c: Claim, view: View) {
    && WellFormed(c) && c.kind != Unknown
    && Backed(files, c, view)
    && (c.kind == Inference ==> c.hasReasoning)
  }

  /** A claim that fails the run: malformed, or contradicted by a file it cites. */
  ghost predicate Blocks(files: Files, c: Claim, view: View) {
    !WellFormed(c) || (c.kind != Unknown && Contradicted(files, c, view))
  }

  const REQUIRED: seq<Category> := [ChangeScope, CheckResult, ModelRoutingCategory, ReviewResult, SimplicityCategory]

  predicate IsRequired(files: Files, category: Category) {
    match category
    case ModelRoutingCategory => TRACE in files && files[TRACE].TraceFile? && files[TRACE].trace.routingClaimed
    case OtherCategory(_) => false
    case _ => true
  }

  predicate HasLedger(files: Files) {
    CLAIMS in files && files[CLAIMS].ClaimsFile? && files[CLAIMS].claims != []
  }

  ghost predicate ClaimsProven(files: Files, view: View) {
    && HasLedger(files)
    && (forall c | c in files[CLAIMS].claims :: Supported(files, c, view))
    && (forall category | IsRequired(files, category) ::
          exists c | c in files[CLAIMS].claims :: c.category == category)
  }

  ghost predicate ClaimsBlocked(files: Files, view: View) {
    && CLAIMS in files
    && (HasLedger(files) ==> exists c | c in files[CLAIMS].claims :: Blocks(files, c, view))
  }

  /** What the first n claims come to. */
  ghost predicate AuditOf(a: ClaimAudit, files: Files, claims: seq<Claim>, n: nat, view: View)
    requires n <= |claims|
  {
    && (a.blocking != [] <==> exists i | 0 <= i < n :: Blocks(files, claims[i], view))
    && (a.blocking == [] && a.unproven == [] <==> forall i | 0 <= i < n :: Supported(files, claims[i], view))
    && (forall category :: category in a.supported <==>
          exists i | 0 <= i < n :: claims[i].category == category && Supported(files, claims[i], view))
  }

  /** What a claim that neither fails nor is supported lacks. */
  ghost predicate Wanting(finding: ClaimFinding, files: Files, c: Claim, index: nat, view: View) {
    match finding
    case UnknownClaim(i) => i == index && c.kind == Unknown
    case ClaimEvidenceMissing(i) => i == index && c.kind != Unknown && c.evidence == []
    case ClaimEvidenceUnsupported(i) =>
      i == index && c.kind != Unknown && exists e | e in c.evidence :: !Shown(files, e, view) && !Refuted(files, e, view)
    case InferenceReasoningMissing(i) =>
      i == index && c.kind == Inference && !c.hasReasoning && Backed(files, c, view)
    case _ => false
  }

  method AuditClaim(files: Files, c: Claim, index: nat, view: View)
    returns (blocking: Option<ClaimFinding>, unproven: Option<ClaimFinding>)
    ensures blocking.Some? <==> Blocks(files, c, view)
    ensures blocking.None? && unproven.None? <==> Supported(files, c, view)
    ensures blocking.Some? ==> blocking == Some(if !WellFormed(c) then InvalidClaim(index) else ContradictedClaim(index))
    ensures unproven.Some? ==> blocking.None? && Wanting(unproven.value, files, c, index, view)
  {
    hide Shown, Refuted, NotFound;
    if c.kind.OtherKind? || !c.hasStatement { return Some(InvalidClaim(index)), None; }
    if c.kind == Unknown { return None, Some(UnknownClaim(index)); }
    if c.evidence == [] { return None, Some(ClaimEvidenceMissing(index)); }
    if exists e :: e in c.evidence && AuditEvidence(files, e, view) == EvidenceContradicted {
      return Some(ContradictedClaim(index)), None;
    }
    if exists e :: e in c.evidence && AuditEvidence(files, e, view) != EvidenceSupported {
      return None, Some(ClaimEvidenceUnsupported(index));
    }
    if c.kind == Inference && !c.hasReasoning { return None, Some(InferenceReasoningMissing(index)); }
    return None, None;
  }

  function Listed<T>(finding: Option<T>): (s: seq<T>)
    ensures s == [] <==> finding.None?
  {
    match finding case None => [] case Some(f) => [f]
  }

  method AuditLedger(files: Files, claims: seq<Claim>, view: View) returns (a: ClaimAudit)
    ensures AuditOf(a, files, claims, |claims|, view)
  {
    a := ClaimAudit([], [], {});
    var i := 0;
    while i < |claims|
      invariant 0 <= i <= |claims|
      invariant AuditOf(a, files, claims, i, view)
    {
      var blocking, unproven := AuditClaim(files, claims[i], i, view);
      var supported := if blocking.None? && unproven.None? then {claims[i].category} else {};
      a := ClaimAudit(a.blocking + Listed(blocking), a.unproven + Listed(unproven), a.supported + supported);
      i := i + 1;
    }
  }

  /** The ledger must speak of the checks, the change, the review and the simplicity, and of routing when it is claimed. */
  lemma RequiredExactly(files: Files, category: Category)
    ensures IsRequired(files, category) <==>
              || category in {CheckResult, ChangeScope, ReviewResult, SimplicityCategory}
              || (category == ModelRoutingCategory
                  && TRACE in files && files[TRACE].TraceFile? && files[TRACE].trace.routingClaimed)
    ensures IsRequired(files, category) ==> category in REQUIRED
  {
    assert REQUIRED[0] == ChangeScope && REQUIRED[1] == CheckResult && REQUIRED[2] == ModelRoutingCategory
        && REQUIRED[3] == ReviewResult && REQUIRED[4] == SimplicityCategory;
  }

  /** Appends one finding for each required category without a supported claim. */
  method RequireCategories(files: Files, supported: set<Category>) returns (missing: seq<ClaimFinding>)
    ensures missing == [] <==> forall category | IsRequired(files, category) :: category in supported
    ensures forall f | f in missing :: f.CategoryMissing? && IsRequired(files, f.category) && f.category !in supported
  {
    missing := [];
    var i := 0;
    while i < |REQUIRED|
      invariant 0 <= i <= |REQUIRED|
      invariant missing == [] <==> forall j | 0 <= j < i :: IsRequired(files, REQUIRED[j]) ==> REQUIRED[j] in supported
      invariant forall f | f in missing :: f.CategoryMissing? && IsRequired(files, f.category) && f.category !in supported
    {
      if IsRequired(files, REQUIRED[i]) && REQUIRED[i] !in supported {
        missing := missing + [CategoryMissing(REQUIRED[i])];
      }
      i := i + 1;
    }
    assert REQUIRED[0] == ChangeScope && REQUIRED[1] == CheckResult && REQUIRED[2] == ModelRoutingCategory
        && REQUIRED[3] == ReviewResult && REQUIRED[4] == SimplicityCategory;
  }

  method AuditClaims(files: Files, view: View) returns (a: ClaimAudit)
    ensures a.blocking == [] && a.unproven == [] <==> ClaimsProven(files, view)
    ensures a.blocking != [] <==> ClaimsBlocked(files, view)
  {
    if CLAIMS !in files { return ClaimAudit([], [LedgerMissing], {}); }
    if files[CLAIMS].NotAnObject? { return ClaimAudit([LedgerInvalid], [], {}); }
    if !HasLedger(files) { return ClaimAudit([LedgerEmpty], [], {}); }
    var claims := files[CLAIMS].claims;
    a := AuditLedger(files, claims, view);
    assert a.blocking != [] <==> ClaimsBlocked(files, view);
    var missing := RequireCategories(files, a.supported);
    if a.blocking == [] && a.unproven == [] {
      assert forall c | c in claims :: Supported(files, c, view);
      assert forall category :: category in a.supported <==> exists c | c in claims :: c.category == category;
    }
    a := a.(unproven := a.unproven + missing);
  }

  // ---------------------------------------------------------------- simplicity

  datatype SimplicityFinding =
    | DiffGuardMissing
    | Bloat(code: string)
    | ReviewFoundOverbuild
    | SimplicityReviewMissing
    | SimplicityCannotVerify
    | SimplicityVerdictMissing

  const BLOAT_CODES: seq<string> := [
    "ADDED_LINE_BUDGET_EXCEEDED", "CHANGED_FILE_BUDGET_EXCEEDED", "DEPENDENCY_CHANGE_FORBIDDEN",
    "NEW_FILE_BUDGET_EXCEEDED"
  ]

  function Violations(files: Files): seq<string> {
    if DIFF in files && files[DIFF].DiffFile? then files[DIFF].diff.violations else []
  }

  function SimplicityOf(files: Files): Option<SimplicityVerdict> {
    if REVIEW in files && files[REVIEW].ReviewFile? then Some(files[REVIEW].review.simplicity) else None
  }

  predicate Bloated(files: Files) {
    exists code | code in BLOAT_CODES :: code in Violations(files)
  }

  predicate SimplicityProven(files: Files) {
    DIFF in files && !Bloated(files) && SimplicityOf(files) == Some(Minimal)
  }

  predicate SimplicityBlocked(files: Files) {
    DIFF !in files || Bloated(files) || SimplicityOf(files) == Some(Overbuilt)
  }

  /** One finding for each bloat code the diff reports, in sorted order. */
  method BloatFindings(violations: seq<string>) returns (found: seq<SimplicityFinding>)
    ensures found == [] <==> !exists code | code in BLOAT_CODES :: code in violations
  {
    found := [];
    var i := 0;
    while i < |BLOAT_CODES|
      invariant 0 <= i <= |BLOAT_CODES|
      invariant found == [] <==> forall j | 0 <= j < i :: BLOAT_CODES[j] !in violations
    {
      if BLOAT_CODES[i] in violations { found := found + [Bloat(BLOAT_CODES[i])]; }
      i := i + 1;
    }
  }

  method AuditSimplicity(files: Files) returns (blocking: seq<SimplicityFinding>, unproven: seq<SimplicityFinding>)
    ensures blocking == [] && unproven == [] <==> SimplicityProven(files)
    ensures blocking != [] <==> SimplicityBlocked(files)
  {
    blocking, unproven := [], [];
    if DIFF !in files {
      blocking := [DiffGuardMissing];
    } else {
      blocking := BloatFindings(Violations(files));
    }
    if REVIEW !in files {
      unproven := [SimplicityReviewMissing];
    } else {
      match SimplicityOf(files) {
        case Some(Overbuilt) => blocking := blocking + [ReviewFoundOverbuild];
        case Some(CannotVerify) => unproven := [SimplicityCannotVerify];
        case Some(Minimal) =>
        case _ => unproven := [SimplicityVerdictMissing];
      }
    }
  }

  // ---------------------------------------------------------------- the kernel's own claims

  /** Reading a structured document as JSON shows the fields the kernel's claims point at. */
  ghost predicate Shows(view: View) {
    && (forall r: Report :: ShowsField(view(ReportFile(r)), "verdict", Str("PASS"), r.verdict == ReportPass))
    && (forall d: DiffReport :: ShowsField(view(DiffFile(d)), "verdict", Str("PASS"), d.verdict == ReportPass))
    && (forall r: Review :: ShowsField(view(ReviewFile(r)), "verdict", Str("APPROVED"), r.verdict == Approved))
    && (forall r: Review :: ShowsField(view(ReviewFile(r)), "simplicityVerdict", Str("MINIMAL"), r.simplicity == Minimal))
    && (forall t: Trace :: ShowsField(view(TraceFile(t)), "routingObserved", Bool(true), t.routingObserved))
  }

  /** The document is an object whose field has this value exactly when the condition holds. */
  predicate ShowsField(document: Option<Json>, key: string, value: Json, condition: bool) {
    && document.Some? && document.value.Obj? && key in document.value.fields
    && (document.value.fields[key] == value <==> condition)
  }

  lemma PlainPointer(fields: map<string, Json>, key: string)
    requires key in fields && key != "" && '/' !in key && '~' !in key
    ensures Evaluate(Obj(fields), "/" + key) == Ok(fields[key])
  {
    var pointer := "/" + key;
    assert pointer[1..] == key;
    SplitJoined(key, "", '/');
    PlainTokenUnchanged(key, '1', '/');
    PlainTokenUnchanged(key, '0', '~');
    assert Walk(fields[key], [key][1..]) == Ok(fields[key]);
  }

  function FieldClaim(category: Category, artifact: Path, key: string, value: Json): Claim {
    Claim(category, Fact, true, false, [ClaimEvidence(artifact, None, Some("/" + key), Some(value))])
  }

  function UnknownOf(category: Category): Claim {
    Claim(category, Unknown, true, false, [])
  }

  /** A claim about one plain field is supported exactly when the cited file shows the claimed value. */
  lemma FieldClaimSupported(files: Files, category: Category, artifact: Path, key: string, value: Json, view: View,
                            condition: bool)
    requires SafeArtifact(artifact) && artifact in files
    requires ShowsField(Parsed(files[artifact], view), key, value, condition)
    requires key != "" && '/' !in key && '~' !in key
    ensures Supported(files, FieldClaim(category, artifact, key, value), view) <==> condition
    ensures Blocks(files, FieldClaim(category, artifact, key, value), view) <==> !condition
  {
    var c := FieldClaim(category, artifact, key, value);
    PlainPointer(view(files[artifact]).value.fields, key);
    var e := c.evidence[0];
    assert e in c.evidence;
    assert Reaches(files[artifact], e.pointer.value, view, view(files[artifact]).value.fields[key]);
  }
}
