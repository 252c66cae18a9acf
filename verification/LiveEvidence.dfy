/** Sealing the final verification into a manifest-backed bundle, and revalidating it. */
module LiveEvidence {
  import opened Common
  import opened Text
  import opened VerificationPlan
  import opened Documents

  const MANIFEST: Path := RunPath("live-evidence.json")
  const CHECKS: Path := RunPath("checks/checks.json")
  const DIFF: Path := RunPath("diff-guard.json")
  const BUNDLE_CHECKS: string := "checks.json"
  const BUNDLE_DIFF: string := "diff-guard.json"
  const BUNDLE_PLAN: string := "verification-plan.json"
  const BUNDLE_SOURCES: string := "source-map.json"
  const MAX_FILES: nat := 256
  const MAX_TOTAL_BYTES: nat := 64 * 1024 * 1024

  datatype Rejection =
    | SchemaViolation
    | BundleLimitExceeded
    | PathSecurityViolation
    | PathCollision
    | MissingArtifact
    | UnexpectedArtifact
    | HashMismatch
    | SizeMismatch
    | MalformedJson
    | CoreEvidenceMissing
    | SourceMismatch
    | PlanMismatch
    | MandatoryCheckMissing
    | EvaluatorChanged
    | SemanticInvalid

  class RunDirectory {
    var files: Files

    constructor ()
      ensures files == map[]
    {
      files := map[];
    }
  }

  // ---------------------------------------------------------------- path rules

  predicate Blank(text: string) {
    forall i | 0 <= i < |text| :: text[i] in {' ', '\t', '\n', '\r'}
  }

  predicate SafeRelative(path: string) {
    && path != ""
    && path[0] !in {'/', '\\'}
    && !(|path| >= 2 && path[1] == ':')
    && ".." !in Split(path, '/')
  }

  /** A safe path is run-relative, on no drive, and never steps up: no whole piece of it between slashes is "..". */
  lemma SafeExactly(path: string)
    ensures SafeRelative(path) <==>
              && path != "" && path[0] != '/' && path[0] != '\\' && (|path| >= 2 ==> path[1] != ':')
              && forall i: nat :: !IsPiece(path, '/', "..", i)
  {
    InSplit(path, "..", '/');
  }

  predicate SafeDeclared(path: string) {
    !Blank(path) && SafeRelative(path)
  }

  ghost predicate PathsValid(artifacts: seq<Descriptor>) {
    && (forall i | 0 <= i < |artifacts| :: SafeDeclared(artifacts[i].path))
    && (forall i, j | 0 <= i < j < |artifacts| :: Lower(artifacts[i].path) != Lower(artifacts[j].path))
  }

  method ValidatePaths(artifacts: seq<Descriptor>) returns (reason: Option<Rejection>)
    ensures reason == None <==> PathsValid(artifacts)
    ensures reason.Some? ==> reason.value in {PathSecurityViolation, PathCollision}
    ensures reason == Some(PathCollision) ==>
              exists i, j | 0 <= i < j < |artifacts| :: Lower(artifacts[i].path) == Lower(artifacts[j].path)
  {
    hide SafeDeclared, Lower;
    var seenRaw: set<string> := {};
    var seenFolded: set<string> := {};
    var i := 0;
    while i < |artifacts|
      invariant 0 <= i <= |artifacts|
      invariant forall j | 0 <= j < i :: SafeDeclared(artifacts[j].path)
      invariant forall j, k | 0 <= j < k < i :: Lower(artifacts[j].path) != Lower(artifacts[k].path)
      invariant forall p :: p in seenRaw <==> exists j | 0 <= j < i :: artifacts[j].path == p
      invariant forall f :: f in seenFolded <==> exists j | 0 <= j < i :: Lower(artifacts[j].path) == f
    {
      var path := artifacts[i].path;
      if !SafeDeclared(path) { return Some(PathSecurityViolation); }
      if path in seenRaw { return Some(PathCollision); }
      seenRaw := seenRaw + {path};
      var folded := Lower(path);
      if folded in seenFolded { return Some(PathCollision); }
      seenFolded := seenFolded + {folded};
      i := i + 1;
    }
    return None;
  }

  // ---------------------------------------------------------------- the structural check

  function BundleFiles(files: Files): (ps: set<string>)
    ensures forall p :: p in ps <==> BundlePath(p) in files
  {
    set path | path in files && path.BundlePath? :: path.text
  }

  predicate EndsWith(path: string, suffix: string) {
    |path| >= |suffix| && path[|path| - |suffix|..] == suffix
  }

  lemma EndsWithIs(path: string, suffix: string)
    ensures EndsWith(path, suffix) <==> exists stem :: path == stem + suffix
  {
    if EndsWith(path, suffix) { assert path == path[..|path| - |suffix|] + suffix; }
  }

  predicate FileOk(files: Files, d: Descriptor, size: Content -> nat)
    requires BundlePath(d.path) in files
  {
    var content := files[BundlePath(d.path)];
    && size(content) == d.size
    && ShaOf(content) == d.sha
    && (EndsWith(d.path, ".json") ==> IsJson(content))
  }

  /** Any JSON will do, be it an object or not. */
  predicate IsJson(content: Content) {
    content.NotAnObject? ==> content.json
  }

  function TotalSize(files: Files, artifacts: seq<Descriptor>, size: Content -> nat): nat
    requires forall d | d in artifacts :: BundlePath(d.path) in files
  {
    if artifacts == [] then 0
    else TotalSize(files, artifacts[..|artifacts| - 1], size) + size(files[BundlePath(artifacts[|artifacts| - 1].path)])
  }

  predicate Declares(artifacts: seq<Descriptor>, files: Files) {
    && (forall d | d in artifacts :: BundlePath(d.path) in files)
    && (forall p | p in BundleFiles(files) :: exists d :: d in artifacts && d.path == p)
  }

  /** When a bundle and its manifest are structurally valid. */
  ghost predicate BundleValid(files: Files, m: Manifest, size: Content -> nat) {
    && m.schemaOk
    && PathsValid(m.artifacts)
    && |m.artifacts| <= MAX_FILES
    && BundleFiles(files) != {}
    && Declares(m.artifacts, files)
    && (forall d | d in m.artifacts :: FileOk(files, d, size))
    && TotalSize(files, m.artifacts, size) <= MAX_TOTAL_BYTES
  }

  method ValidateFiles(files: Files, artifacts: seq<Descriptor>, size: Content -> nat)
    returns (reasons: set<Rejection>)
    requires forall d | d in artifacts :: BundlePath(d.path) in files
    ensures reasons == {} <==>
              && (forall d | d in artifacts :: FileOk(files, d, size))
              && TotalSize(files, artifacts, size) <= MAX_TOTAL_BYTES
  {
    reasons := {};
    var total := 0;
    var i := 0;
    while i < |artifacts|
      invariant 0 <= i <= |artifacts|
      invariant reasons == {} <==> forall j | 0 <= j < i :: FileOk(files, artifacts[j], size)
      invariant total == TotalSize(files, artifacts[..i], size)
    {
      var d := artifacts[i];
      var content := files[BundlePath(d.path)];
      if size(content) != d.size { reasons := reasons + {SizeMismatch}; }
      if ShaOf(content) != d.sha { reasons := reasons + {HashMismatch}; }
      if EndsWith(d.path, ".json") && !IsJson(content) { reasons := reasons + {MalformedJson}; }
      total := total + size(content);
      assert artifacts[..i + 1][..i] == artifacts[..i];
      i := i + 1;
    }
    assert artifacts[..i] == artifacts;
    if total > MAX_TOTAL_BYTES { reasons := reasons + {BundleLimitExceeded}; }
  }

  method ValidateBundle(files: Files, m: Manifest, size: Content -> nat) returns (reasons: set<Rejection>)
    ensures reasons == {} <==> BundleValid(files, m, size)
  {
    if !m.schemaOk || exists d :: d in m.artifacts && d.path == "" {
      if d :| d in m.artifacts && d.path == "" { }
      return {SchemaViolation};
    }
    reasons := {};
    var pathReason := ValidatePaths(m.artifacts);
    if pathReason.Some? { reasons := {pathReason.value}; }
    if |m.artifacts| > MAX_FILES { reasons := reasons + {BundleLimitExceeded}; }
    if reasons != {} { return; }
    var actual := BundleFiles(files);
    if actual == {} { return {MissingArtifact}; }
    if exists d :: d in m.artifacts && d.path !in actual { reasons := reasons + {MissingArtifact}; }
    if exists p :: p in actual && forall d | d in m.artifacts :: d.path != p {
      reasons := reasons + {UnexpectedArtifact};
    }
    if reasons != {} { return; }
    reasons := ValidateFiles(files, m.artifacts, size);
  }

  // ---------------------------------------------------------------- revalidation

  /** Fingerprint of a repository file at truth time, None when there is no such file. */
  type RepositoryView = (string, string) -> Option<string>

  predicate EvaluatorInputsMatch(plan: Plan, report: Report, repository: RepositoryView) {
    var inputs := plan.body.evaluatorInputs;
    inputs == [] ||
    (&& report.repository.Some? && report.repository.value != ""
     && forall i | 0 <= i < |inputs| ::
          && SafeRelative(inputs[i].path)
          && repository(report.repository.value, inputs[i].path) == Some(inputs[i].fingerprint))
  }

  /** The inputs do not match exactly when there are some and the report names no repository, or one of them has a path
      that is not safe or is not in the repository with the fingerprint that was frozen. */
  lemma InputsChangedExactly(plan: Plan, report: Report, repository: RepositoryView)
    ensures !EvaluatorInputsMatch(plan, report, repository) <==>
              exists input | input in plan.body.evaluatorInputs ::
                || report.repository.None? || report.repository.value == "" || !SafeRelative(input.path)
                || repository(report.repository.value, input.path) != Some(input.fingerprint)
  {
    hide SafeRelative;
    var inputs := plan.body.evaluatorInputs;
    if inputs != [] { assert inputs[0] in inputs; }
  }

  ghost predicate SourcesMatch(files: Files, sources: map<string, Path>) {
    forall b | b in sources ::
      && SafeRelative(b) && SafeRelative(sources[b].text)
      && BundlePath(b) in files && sources[b] in files
      && files[BundlePath(b)] == files[sources[b]]
  }

  predicate Decided(v: ReportVerdict) {
    v == ReportPass || v == ReportFail
  }

  datatype CoreResult = Valid(checks: Report, diff: DiffReport, plan: Plan) | Rejected(reasons: set<Rejection>)

  /** The four documents a valid bundle must hold at their own places. */
  predicate HoldsDocuments(files: Files) {
    && BundlePath(BUNDLE_SOURCES) in files && files[BundlePath(BUNDLE_SOURCES)].SourceMapFile?
    && BundlePath(BUNDLE_PLAN) in files && files[BundlePath(BUNDLE_PLAN)].PlanFile?
    && BundlePath(BUNDLE_CHECKS) in files && files[BundlePath(BUNDLE_CHECKS)].ReportFile?
    && BundlePath(BUNDLE_DIFF) in files && files[BundlePath(BUNDLE_DIFF)].DiffFile?
  }

  /** What the sealed documents themselves must satisfy. */
  predicate Substantiated(plan: Plan, checks: Report, diff: DiffReport, repository: RepositoryView) {
    && plan.hash == PlanHashOf(plan.body)
    && MandatoryChecksPassed(plan, checks)
    && EvaluatorInputsMatch(plan, checks, repository)
    && Decided(diff.verdict) && Decided(checks.verdict)
  }

  ghost predicate CoreValid(files: Files, size: Content -> nat, repository: RepositoryView) {
    && MANIFEST in files && files[MANIFEST].ManifestFile?
    && BundleValid(files, files[MANIFEST].manifest, size)
    && HoldsDocuments(files)
    && SourcesMatch(files, files[BundlePath(BUNDLE_SOURCES)].sources)
    && Substantiated(files[BundlePath(BUNDLE_PLAN)].plan, files[BundlePath(BUNDLE_CHECKS)].report,
                     files[BundlePath(BUNDLE_DIFF)].diff, repository)
  }

  method SourcesUnchanged(files: Files, sources: map<string, Path>) returns (ok: bool)
    ensures ok <==> SourcesMatch(files, sources)
  {
    var todo := sources.Keys;
    while todo != {}
      invariant todo <= sources.Keys
      invariant forall b | b in sources && b !in todo ::
        && SafeRelative(b) && SafeRelative(sources[b].text)
        && BundlePath(b) in files && sources[b] in files
        && files[BundlePath(b)] == files[sources[b]]
    {
      var b :| b in todo;
      if !SafeRelative(b) || !SafeRelative(sources[b].text) { return false; }
      if BundlePath(b) !in files || sources[b] !in files { return false; }
      if ShaOf(files[BundlePath(b)]) != ShaOf(files[sources[b]]) { return false; }
      todo := todo - {b};
    }
    return true;
  }

  method ValidateCoreEvidence(files: Files, size: Content -> nat, repository: RepositoryView)
    returns (r: CoreResult)
    ensures r.Valid? <==> CoreValid(files, size, repository)
    ensures r.Valid? ==> r == Valid(files[BundlePath(BUNDLE_CHECKS)].report, files[BundlePath(BUNDLE_DIFF)].diff,
                                    files[BundlePath(BUNDLE_PLAN)].plan)
    ensures r.Rejected? ==> r.reasons != {}
  {
    if MANIFEST !in files || !files[MANIFEST].ManifestFile? { return Rejected({CoreEvidenceMissing}); }
    var structural := ValidateBundle(files, files[MANIFEST].manifest, size);
    if structural != {} { return Rejected(structural); }
    if !HoldsDocuments(files) { return Rejected({SemanticInvalid}); }
    var plan := files[BundlePath(BUNDLE_PLAN)].plan;
    var checks := files[BundlePath(BUNDLE_CHECKS)].report;
    var diff := files[BundlePath(BUNDLE_DIFF)].diff;
    if plan.hash != PlanHashOf(plan.body) { return Rejected({PlanMismatch}); }
    var intact := SourcesUnchanged(files, files[BundlePath(BUNDLE_SOURCES)].sources);
    if !intact { return Rejected({SourceMismatch}); }
    if !MandatoryChecksPassed(plan, checks) { return Rejected({MandatoryCheckMissing}); }
    if !EvaluatorInputsMatch(plan, checks, repository) { return Rejected({EvaluatorChanged}); }
    if !Decided(diff.verdict) || !Decided(checks.verdict) { return Rejected({SemanticInvalid}); }
    return Valid(checks, diff, plan);
  }

  // ---------------------------------------------------------------- sealing

  datatype Source = Source(bundlePath: string, path: Path)

  function LogPath(index: nat, stream: string): string {
    "logs/" + (Padded(index) + ("-" + (stream + ".log")))
  }

  /** Names the two logs of the index-th check, counted from one. */
  type LogNaming = (nat, string) -> string

  function LogSources(items: seq<CheckItem>, name: LogNaming): (sources: seq<Source>)
    ensures |sources| == 2 * |items|
  {
    if items == [] then []
    else
      var last := items[|items| - 1];
      LogSources(items[..|items| - 1], name) + [Source(name(|items|, "stdoutRef"), last.stdoutRef),
                                                Source(name(|items|, "stderrRef"), last.stderrRef)]
  }

  function SourcesOf(checks: Report): seq<Source> {
    [Source(BUNDLE_CHECKS, CHECKS), Source(BUNDLE_DIFF, DIFF)] + LogSources(checks.items, LogPath)
  }

  datatype SealError = ArtifactChanged | LogOutside | LogMissing

  /** A log that can be captured: a file of the run. */
  predicate InRun(files: Files, path: Path) {
    !path.OutsidePath? && path in files
  }

  predicate LogsInRun(files: Files, checks: Report) {
    forall i | 0 <= i < |checks.items| :: InRun(files, checks.items[i].stdoutRef) && InRun(files, checks.items[i].stderrRef)
  }

  predicate CanSeal(files: Files, checks: Report, diff: DiffReport) {
    && CHECKS in files && files[CHECKS] == ReportFile(checks)
    && DIFF in files && files[DIFF] == DiffFile(diff)
    && LogsInRun(files, checks)
  }

  /** The bundle as a map from bundle path to contents: a copy of every source. */
  function Copies(files: Files, sources: seq<Source>): (m: map<string, Content>)
    requires forall s | s in sources :: s.path in files
    ensures forall p :: p in m <==> exists s :: s in sources && s.bundlePath == p
  {
    if sources == [] then map[]
    else
      var init, last := sources[..|sources| - 1], sources[|sources| - 1];
      assert sources == init + [last];
      Copies(files, init)[last.bundlePath := files[last.path]]
  }

  function SourceMapOf(sources: seq<Source>): (m: map<string, Path>)
    ensures forall p :: p in m <==> exists s :: s in sources && s.bundlePath == p
  {
    if sources == [] then map[]
    else
      var init, last := sources[..|sources| - 1], sources[|sources| - 1];
      assert sources == init + [last];
      SourceMapOf(init)[last.bundlePath := last.path]
  }

  function BundleOf(files: Files, sources: seq<Source>, plan: Plan): map<string, Content>
    requires forall s | s in sources :: s.path in files
  {
    Copies(files, sources)[BUNDLE_PLAN := PlanFile(plan)][BUNDLE_SOURCES := SourceMapFile(SourceMapOf(sources))]
  }

  function BundlePaths(sources: seq<Source>): (ps: seq<string>)
    ensures |ps| == |sources| + 2
    ensures forall i | 0 <= i < |sources| :: ps[i] == sources[i].bundlePath
    ensures ps[|sources|] == BUNDLE_PLAN && ps[|sources| + 1] == BUNDLE_SOURCES
  {
    seq(|sources|, i requires 0 <= i < |sources| => sources[i].bundlePath) + [BUNDLE_PLAN, BUNDLE_SOURCES]
  }

  function Describe(bundle: map<string, Content>, paths: seq<string>, size: Content -> nat): (ds: seq<Descriptor>)
    requires forall p | p in paths :: p in bundle
    ensures |ds| == |paths|
    ensures forall i | 0 <= i < |ds| ::
              ds[i] == Descriptor(paths[i], ShaOf(bundle[paths[i]]), size(bundle[paths[i]]))
  {
    seq(|paths|, i requires 0 <= i < |paths| =>
      Descriptor(paths[i], ShaOf(bundle[paths[i]]), size(bundle[paths[i]])))
  }

  /** Replaces the whole bundle directory, then writes the manifest. */
  function Replaced(files: Files, bundle: map<string, Content>, manifest: Manifest): (after: Files)
    ensures MANIFEST in after && after[MANIFEST] == ManifestFile(manifest)
    ensures forall p :: BundlePath(p) in after <==> p in bundle
    ensures forall p | p in bundle :: after[BundlePath(p)] == bundle[p]
    ensures forall p | p in files && p.RunPath? && p != MANIFEST :: p in after && after[p] == files[p]
    ensures forall p | p in after && p.RunPath? && p != MANIFEST :: p in files
  {
    var kept := set p | p in files && p.RunPath?;
    var added := set p | p in bundle :: BundlePath(p);
    (map p | p in kept + added :: if p.BundlePath? then bundle[p.text] else files[p])
    [MANIFEST := ManifestFile(manifest)]
  }

  lemma SourcesPresent(files: Files, checks: Report, diff: DiffReport)
    requires CanSeal(files, checks, diff)
    ensures forall s | s in SourcesOf(checks) :: s.path in files
  {
    LogSourcesPresent(files, checks.items);
  }

  lemma {:induction false} LogSourcesPresent(files: Files, items: seq<CheckItem>)
    requires forall i | 0 <= i < |items| :: items[i].stdoutRef in files && items[i].stderrRef in files
    ensures forall s | s in LogSources(items, LogPath) :: s.path in files
  {
    if items != [] { LogSourcesPresent(files, items[..|items| - 1]); }
  }

  lemma BundleHasItsPaths(files: Files, sources: seq<Source>, plan: Plan)
    requires forall s | s in sources :: s.path in files
    ensures forall p :: p in BundleOf(files, sources, plan) <==> p in BundlePaths(sources)
  {
    var ps := BundlePaths(sources);
    forall p ensures p in BundleOf(files, sources, plan) <==> p in ps {
      if s :| s in sources && s.bundlePath == p {
        var i :| 0 <= i < |sources| && sources[i] == s;
        assert ps[i] == p;
      }
      if p in ps {
        var i :| 0 <= i < |ps| && ps[i] == p;
        if i < |sources| { assert sources[i] in sources; }
      }
      assert ps[|sources|] == BUNDLE_PLAN && ps[|sources| + 1] == BUNDLE_SOURCES;
    }
  }

  /** The run directory after sealing: a function of what was there before. */
  function Sealed(files: Files, checks: Report, diff: DiffReport, plan: Plan, size: Content -> nat): Files
    requires CanSeal(files, checks, diff)
  {
    SourcesPresent(files, checks, diff);
    var sources := SourcesOf(checks);
    BundleHasItsPaths(files, sources, plan);
    var bundle := BundleOf(files, sources, plan);
    Replaced(files, bundle, Manifest(true, Describe(bundle, BundlePaths(sources), size)))
  }

  /** Why a log cannot be captured. */
  function LogError(files: Files, path: Path): (e: Option<SealError>)
    ensures e.None? <==> InRun(files, path)
    ensures e == Some(LogOutside) <==> path.OutsidePath?
  {
    if path.OutsidePath? then Some(LogOutside) else if path !in files then Some(LogMissing) else None
  }

  /** The files to capture, or what is wrong with the first log that cannot be. */
  method CollectSources(files: Files, checks: Report) returns (r: Result<seq<Source>, SealError>)
    ensures r.Ok? <==> LogsInRun(files, checks)
    ensures r.Err? ==> r.error != ArtifactChanged
    ensures r.Ok? ==> r.value == SourcesOf(checks)
  {
    hide LogPath, InRun;
    var logs: seq<Source> := [];
    var i := 0;
    while i < |checks.items|
      invariant 0 <= i <= |checks.items|
      invariant forall j | 0 <= j < i ::
        InRun(files, checks.items[j].stdoutRef) && InRun(files, checks.items[j].stderrRef)
      invariant logs == LogSources(checks.items[..i], LogPath)
    {
      var item := checks.items[i];
      var out, err := LogError(files, item.stdoutRef), LogError(files, item.stderrRef);
      if out.Some? { return Err(out.value); }
      if err.Some? { return Err(err.value); }
      logs := logs + [Source(LogPath(i + 1, "stdoutRef"), item.stdoutRef),
                      Source(LogPath(i + 1, "stderrRef"), item.stderrRef)];
      assert checks.items[..i + 1][..i] == checks.items[..i];
      i := i + 1;
    }
    assert checks.items[..i] == checks.items;
    return Ok([Source(BUNDLE_CHECKS, CHECKS), Source(BUNDLE_DIFF, DIFF)] + logs);
  }

  method BuildBundle(files: Files, sources: seq<Source>, plan: Plan) returns (bundle: map<string, Content>)
    requires forall s | s in sources :: s.path in files
    ensures bundle == BundleOf(files, sources, plan)
  {
    bundle := map[];
    var k := 0;
    while k < |sources|
      invariant 0 <= k <= |sources|
      invariant bundle == Copies(files, sources[..k])
    {
      bundle := bundle[sources[k].bundlePath := files[sources[k].path]];
      assert sources[..k + 1][..k] == sources[..k];
      k := k + 1;
    }
    assert sources[..k] == sources;
    bundle := bundle[BUNDLE_PLAN := PlanFile(plan)][BUNDLE_SOURCES := SourceMapFile(SourceMapOf(sources))];
  }

  /** Captures the reports, the logs and the plan into a fresh bundle, and returns how the bundle validates. */
  method SealCoreEvidence(dir: RunDirectory, checks: Report, diff: DiffReport, plan: Plan, size: Content -> nat,
                          repository: RepositoryView)
    returns (r: Result<CoreResult, SealError>)
    modifies dir
    ensures r.Ok? <==> CanSeal(old(dir.files), checks, diff)
    ensures r.Ok? ==> dir.files == Sealed(old(dir.files), checks, diff, plan, size)
    ensures r.Ok? ==> (r.value.Valid? <==> CoreValid(dir.files, size, repository))
    ensures r.Err? ==> dir.files == old(dir.files)
  {
    hide SourcesOf, BundleOf, Describe, Replaced, CoreValid;
    var files := dir.files;
    if CHECKS !in files || files[CHECKS] != ReportFile(checks) { return Err(ArtifactChanged); }
    if DIFF !in files || files[DIFF] != DiffFile(diff) { return Err(ArtifactChanged); }
    var collected := CollectSources(files, checks);
    if collected.Err? { return Err(collected.error); }
    var sources := collected.value;
    SourcesPresent(files, checks, diff);
    var bundle := BuildBundle(files, sources, plan);
    BundleHasItsPaths(files, sources, plan);
    var descriptors := Describe(bundle, BundlePaths(sources), size);
    dir.files := Replaced(files, bundle, Manifest(true, descriptors));
    var validated := ValidateCoreEvidence(dir.files, size, repository);
    return Ok(validated);
  }
}
