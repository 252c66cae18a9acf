/** What the files of a run directory hold. Two files are equal bytes exactly when they are equal values. */
module Documents {
  import opened Common
  import opened JsonPointer
  import opened ProofGraph
  import opened VerificationPlan

  /** SHA-256 of a file, idealised as collision free; a manifest may also quote some other text. */
  datatype Sha = ShaOf(content: Content) | ForeignSha(text: string)

  datatype Descriptor = Descriptor(path: string, sha: Sha, size: nat)

  /** schemaOk stands for the version, key and type checks on the manifest. */
  datatype Manifest = Manifest(schemaOk: bool, artifacts: seq<Descriptor>)

  datatype DiffReport = DiffReport(verdict: ReportVerdict, violations: seq<string>)

  datatype ReviewVerdict = Approved | FixRequired | OtherReview(name: string)

  datatype SimplicityVerdict = Minimal | Overbuilt | CannotVerify | OtherSimplicity(name: string)

  datatype Review = Review(verdict: ReviewVerdict, simplicity: SimplicityVerdict, fastLane: bool)

  datatype Trace = Trace(routingClaimed: bool, routingObserved: bool)

  datatype Category = CheckResult | ChangeScope | ReviewResult | SimplicityCategory | ModelRoutingCategory | OtherCategory(name: string)

  datatype Kind = Fact | Inference | Unknown | OtherKind(name: string)

  datatype ClaimEvidence = ClaimEvidence(artifact: Path, sha: Option<Sha>, pointer: Option<string>, equals: Option<Json>)

  datatype Claim = Claim(category: Category, kind: Kind, hasStatement: bool, hasReasoning: bool, evidence: seq<ClaimEvidence>)

  datatype Content =
    | ReportFile(report: Report)
    | DiffFile(diff: DiffReport)
    | PlanFile(plan: Plan)
    | SourceMapFile(sources: map<string, Path>)
    | ManifestFile(manifest: Manifest)
    | ReviewFile(review: Review)
    | GraphFile(graph: Graph)
    | TraceFile(trace: Trace)
    | ClaimsFile(claims: seq<Claim>)
    | IntentFile(request: string)
    | OtherObject(fields: map<string, Json>)
    | NotAnObject(text: string, json: bool)  // json: an array or a scalar, and not malformed

  /** A run directory: every file by its path relative to the run. */
  type Files = map<Path, Content>
}
