/** What sealing buys: validation succeeds exactly while the sealed bytes are intact. */
module SealTheorems {
  import opened Common
  import opened Text
  import opened VerificationPlan
  import opened Documents
  import opened LiveEvidence

  // ---------------------------------------------------------------- the names inside a bundle

  lemma NoSlashIsSafe(name: string)
    requires |name| >= 3 && '/' !in name && name[0] !in {'\\', ' ', '\t', '\n', '\r'} && name[1] != ':'
    ensures SafeDeclared(name)
  {
    SplitJoined(name, "", '/');
    assert name[0] in name;
    assert ".." != name;
  }

  lemma NoSlashAppend(a: string, b: string)
    requires '/' !in a && '/' !in b
    ensures '/' !in a + b
  {
  }

  predicate Stream(s: string) {
    s == "stdoutRef" || s == "stderrRef"
  }

  lemma LogFileIsFlat(index: nat, stream: string)
    requires Stream(stream)
    ensures '/' !in Padded(index) + ("-" + (stream + ".log"))
  {
    PaddedRoundTrip(index);
    NoSlashAppend(stream, ".log");
    NoSlashAppend("-", stream + ".log");
    NoSlashAppend(Padded(index), "-" + (stream + ".log"));
  }

  lemma LogPathIsSafe(index: nat, stream: string)
    requires Stream(stream)
    ensures SafeDeclared(LogPath(index, stream)) && LogPath(index, stream)[0] == 'l'
  {
    var file := Padded(index) + ("-" + (stream + ".log"));
    LogFileIsFlat(index, stream);
    var path := LogPath(index, stream);
    assert path == "logs" + ['/'] + file;
    SplitJoined("logs", file, '/');
    SplitJoined(file, "", '/');
    assert Split(path, '/') == ["logs", file];
    assert |file| > 4 && |".."| == 2 && |"logs"| == 4;
    assert path[0] == 'l' && path[1] == 'o';
  }

  lemma LowerAppend(a: string, b: string)
    ensures Lower(a + b) == Lower(a) + Lower(b)
  {
  }

  lemma LowerDigits(a: string)
    requires forall i | 0 <= i < |a| :: IsDigit(a[i])
    ensures Lower(a) == a
  {
  }

  /** A run of digits before a dash is determined by the whole text. */
  lemma DigitsBeforeDash(a: string, x: string, b: string, y: string)
    requires forall i | 0 <= i < |a| :: IsDigit(a[i])
    requires forall i | 0 <= i < |b| :: IsDigit(b[i])
    requires x != [] && y != [] && x[0] == '-' && y[0] == '-' && a + x == b + y
    ensures a == b && x == y
  {
    var p, q := a + x, b + y;
    assert p[|a|] == '-' && q[|b|] == '-';
    assert forall j | 0 <= j < |b| :: q[j] == b[j] && IsDigit(q[j]);
    assert forall j | 0 <= j < |a| :: p[j] == a[j] && IsDigit(p[j]);
    assert |a| == |b|;
    assert a == p[..|a|] && b == q[..|b|];
    assert x == p[|a|..] && y == q[|b|..];
  }

  function LogTail(stream: string): string {
    "-" + (stream + ".log")
  }

  lemma LowerLogPath(i: nat, s: string)
    ensures Lower(LogPath(i, s)) == Lower("logs/") + (Padded(i) + Lower(LogTail(s)))
  {
    PaddedRoundTrip(i);
    LowerAppend("logs/", Padded(i) + LogTail(s));
    LowerAppend(Padded(i), LogTail(s));
    LowerDigits(Padded(i));
  }

  /** Log names that collide when case is folded are the same name. */
  lemma LogPathsInjective(i: nat, s: string, j: nat, t: string)
    requires Stream(s) && Stream(t) && Lower(LogPath(i, s)) == Lower(LogPath(j, t))
    ensures i == j && s == t
  {
    LowerLogPath(i, s);
    LowerLogPath(j, t);
    PaddedRoundTrip(i);
    PaddedRoundTrip(j);
    var x, y := Lower(LogTail(s)), Lower(LogTail(t));
    assert Lower(LogPath(i, s))[5..] == Padded(i) + x;
    assert Lower(LogPath(j, t))[5..] == Padded(j) + y;
    DigitsBeforeDash(Padded(i), x, Padded(j), y);
    assert x[4] == s[3] && y[4] == t[3];
  }

  ghost predicate Distinct(paths: seq<string>) {
    forall i, j | 0 <= i < j < |paths| :: Lower(paths[i]) != Lower(paths[j])
  }

  function Names(sources: seq<Source>): (ps: seq<string>)
    ensures |ps| == |sources| && forall i | 0 <= i < |ps| :: ps[i] == sources[i].bundlePath
  {
    seq(|sources|, i requires 0 <= i < |sources| => sources[i].bundlePath)
  }

  function StreamAt(i: nat): string {
    if i % 2 == 0 then "stdoutRef" else "stderrRef"
  }

  /** The names of the logs of n checks, as LogSources lists them. */
  function LogNames(n: nat, name: LogNaming): (ps: seq<string>)
    ensures |ps| == 2 * n && forall i | 0 <= i < 2 * n :: ps[i] == name(i / 2 + 1, StreamAt(i))
  {
    seq(2 * n, i requires 0 <= i < 2 * n => name(i / 2 + 1, StreamAt(i)))
  }

  lemma {:induction false} NamesOfLogs(items: seq<CheckItem>, name: LogNaming)
    ensures Names(LogSources(items, name)) == LogNames(|items|, name)
  {
    if items != [] {
      var n := |items|;
      NamesOfLogs(items[..n - 1], name);
      var before, last := LogSources(items[..n - 1], name), items[n - 1];
      var more := [Source(name(n, "stdoutRef"), last.stdoutRef), Source(name(n, "stderrRef"), last.stderrRef)];
      assert Names(before + more) == Names(before) + Names(more);
    }
  }

  lemma LogNamesInjective(i: nat, j: nat)
    requires Lower(LogPath(i / 2 + 1, StreamAt(i))) == Lower(LogPath(j / 2 + 1, StreamAt(j)))
    ensures i == j
  {
    LogPathsInjective(i / 2 + 1, StreamAt(i), j / 2 + 1, StreamAt(j));
    assert "stdoutRef"[3] != "stderrRef"[3];
  }

  lemma LogNamesAreValid(n: nat)
    ensures Distinct(LogNames(n, LogPath))
    ensures forall i | 0 <= i < 2 * n :: SafeDeclared(LogNames(n, LogPath)[i]) && LogNames(n, LogPath)[i][0] == 'l'
  {
    forall i, j | 0 <= i < j < 2 * n ensures Lower(LogNames(n, LogPath)[i]) != Lower(LogNames(n, LogPath)[j]) {
      if Lower(LogNames(n, LogPath)[i]) == Lower(LogNames(n, LogPath)[j]) { LogNamesInjective(i, j); }
    }
    forall i | 0 <= i < 2 * n
      ensures SafeDeclared(LogNames(n, LogPath)[i]) && LogNames(n, LogPath)[i][0] == 'l'
    {
      LogPathIsSafe(i / 2 + 1, StreamAt(i));
    }
  }

  lemma DistinctByHead(mid: seq<string>, a: string, b: string, c: string, d: string)
    requires Distinct(mid) && forall i | 0 <= i < |mid| :: SafeDeclared(mid[i]) && mid[i][0] == 'l'
    requires SafeDeclared(a) && SafeDeclared(b) && SafeDeclared(c) && SafeDeclared(d)
    requires a[0] == 'c' && b[0] == 'd' && c[0] == 'v' && d[0] == 's'
    ensures Distinct([a, b] + mid + [c, d])
    ensures forall i | 0 <= i < |mid| + 4 :: SafeDeclared(([a, b] + mid + [c, d])[i])
  {
    var ps := [a, b] + mid + [c, d];
    var n := |mid|;
    assert forall i | 2 <= i < n + 2 :: ps[i] == mid[i - 2];
    forall i, j | 0 <= i < j < |ps| ensures Lower(ps[i]) != Lower(ps[j]) {
      if !(2 <= i && j < n + 2) {
        assert Lower(ps[i])[0] == ps[i][0] && Lower(ps[j])[0] == ps[j][0];
      }
    }
  }

  lemma FixedNameChecks() ensures SafeDeclared(BUNDLE_CHECKS) {
    NoSlashIsSafe(BUNDLE_CHECKS);
  }

  lemma FixedNameDiff() ensures SafeDeclared(BUNDLE_DIFF) {
    NoSlashIsSafe(BUNDLE_DIFF);
  }

  lemma FixedNamePlan() ensures SafeDeclared(BUNDLE_PLAN) {
    NoSlashIsSafe(BUNDLE_PLAN);
  }

  lemma FixedNameSources() ensures SafeDeclared(BUNDLE_SOURCES) {
    NoSlashIsSafe(BUNDLE_SOURCES);
  }

  lemma BundlePathsShape(checks: Report, name: LogNaming, sources: seq<Source>)
    requires sources == [Source(BUNDLE_CHECKS, CHECKS), Source(BUNDLE_DIFF, DIFF)] + LogSources(checks.items, name)
    ensures BundlePaths(sources) ==
            [BUNDLE_CHECKS, BUNDLE_DIFF] + LogNames(|checks.items|, name) + [BUNDLE_PLAN, BUNDLE_SOURCES]
  {
    NamesOfLogs(checks.items, name);
    assert Names(sources) == [BUNDLE_CHECKS, BUNDLE_DIFF] + Names(LogSources(checks.items, name));
    assert BundlePaths(sources) == Names(sources) + [BUNDLE_PLAN, BUNDLE_SOURCES];
  }

  /** The names in a sealed bundle are safe, and no two collide even when case is folded. */
  lemma BundleNamesAreValid(checks: Report)
    ensures |BundlePaths(SourcesOf(checks))| == 2 * |checks.items| + 4
    ensures forall i | 0 <= i < |BundlePaths(SourcesOf(checks))| :: SafeDeclared(BundlePaths(SourcesOf(checks))[i])
    ensures Distinct(BundlePaths(SourcesOf(checks)))
  {
    BundlePathsShape(checks, LogPath, SourcesOf(checks));
    LogNamesAreValid(|checks.items|);
    FixedNameChecks();
    FixedNameDiff();
    FixedNamePlan();
    FixedNameSources();
    DistinctByHead(LogNames(|checks.items|, LogPath), BUNDLE_CHECKS, BUNDLE_DIFF, BUNDLE_PLAN, BUNDLE_SOURCES);
  }

  // ---------------------------------------------------------------- the bundle as sealed

  ghost predicate NoRepeats(paths: seq<string>) {
    forall i, j | 0 <= i < j < |paths| :: paths[i] != paths[j]
  }

  lemma DistinctHasNoRepeats(paths: seq<string>)
    requires Distinct(paths)
    ensures NoRepeats(paths)
  {
    forall i, j | 0 <= i < j < |paths| ensures paths[i] != paths[j] {
      assert Lower(paths[i]) != Lower(paths[j]);
    }
  }

  lemma {:induction false} CopiesAt(files: Files, sources: seq<Source>, i: nat)
    requires i < |sources| && NoRepeats(Names(sources))
    requires forall s | s in sources :: s.path in files
    ensures Copies(files, sources)[sources[i].bundlePath] == files[sources[i].path]
    ensures SourceMapOf(sources)[sources[i].bundlePath] == sources[i].path
  {
    var init, last := sources[..|sources| - 1], sources[|sources| - 1];
    assert sources == init + [last];
    assert sources[i] in sources;
    if i < |init| {
      assert Names(init) == Names(sources)[..|init|];
      CopiesAt(files, init, i);
      assert Names(sources)[i] != Names(sources)[|init|];
      assert init[i] in init;
    }
  }

  /** What a sealed bundle holds, name by name. */
  ghost predicate BundleHolds(bundle: map<string, Content>, files: Files, sources: seq<Source>, plan: Plan) {
    && (forall p :: p in bundle <==> p in BundlePaths(sources))
    && (forall s | s in sources :: s.path in files && s.bundlePath in bundle && bundle[s.bundlePath] == files[s.path])
    && BUNDLE_PLAN in bundle && bundle[BUNDLE_PLAN] == PlanFile(plan)
    && BUNDLE_SOURCES in bundle && bundle[BUNDLE_SOURCES] == SourceMapFile(SourceMapOf(sources))
    && (forall s | s in sources :: s.bundlePath in SourceMapOf(sources) && SourceMapOf(sources)[s.bundlePath] == s.path)
  }

  lemma CopiesHeld(files: Files, sources: seq<Source>)
    requires NoRepeats(Names(sources))
    requires forall s | s in sources :: s.path in files
    ensures forall s | s in sources ::
              && s.bundlePath in Copies(files, sources) && Copies(files, sources)[s.bundlePath] == files[s.path]
              && s.bundlePath in SourceMapOf(sources) && SourceMapOf(sources)[s.bundlePath] == s.path
  {
    forall s | s in sources
      ensures Copies(files, sources)[s.bundlePath] == files[s.path]
      ensures SourceMapOf(sources)[s.bundlePath] == s.path
    {
      var i :| 0 <= i < |sources| && sources[i] == s;
      CopiesAt(files, sources, i);
    }
  }

  lemma UpdatesHold(m: map<string, Content>, files: Files, sources: seq<Source>, a: string, x: Content, b: string, y: Content,
                    ps: seq<string>)
    requires forall s | s in sources :: s.path in files && s.bundlePath in m && m[s.bundlePath] == files[s.path]
    requires |ps| == |sources| + 2 && NoRepeats(ps) && ps[|sources|] == a && ps[|sources| + 1] == b
    requires forall i | 0 <= i < |sources| :: ps[i] == sources[i].bundlePath
    ensures var out := m[a := x][b := y];
            && a in out && b in out && out[a] == x && out[b] == y
            && forall s | s in sources :: s.bundlePath in out && out[s.bundlePath] == files[s.path]
  {
    var n := |sources|;
    assert ps[n] != ps[n + 1];
    forall s | s in sources ensures s.bundlePath != a && s.bundlePath != b {
      var i :| 0 <= i < n && sources[i] == s;
      assert ps[i] != ps[n] && ps[i] != ps[n + 1];
    }
  }

  lemma BundleIsHeld(files: Files, sources: seq<Source>, plan: Plan)
    requires NoRepeats(BundlePaths(sources))
    requires forall s | s in sources :: s.path in files
    ensures BundleHolds(BundleOf(files, sources, plan), files, sources, plan)
  {
    BundleHasItsPaths(files, sources, plan);
    assert Names(sources) == BundlePaths(sources)[..|sources|];
    CopiesHeld(files, sources);
    UpdatesHold(Copies(files, sources), files, sources, BUNDLE_PLAN, PlanFile(plan),
                BUNDLE_SOURCES, SourceMapFile(SourceMapOf(sources)), BundlePaths(sources));
  }

  function TotalOf(bundle: map<string, Content>, paths: seq<string>, size: Content -> nat): nat
    requires forall p | p in paths :: p in bundle
  {
    if paths == [] then 0
    else TotalOf(bundle, paths[..|paths| - 1], size) + size(bundle[paths[|paths| - 1]])
  }

  /** The later files still hold the sealed bundle, byte for byte, and no other file in its directory. */
  ghost predicate BundleIntact(later: Files, bundle: map<string, Content>) {
    && BundleFiles(later) == bundle.Keys
    && forall p | p in bundle :: later[BundlePath(p)] == bundle[p]
  }

  /** Every captured file still has the contents it was captured with. */
  ghost predicate SourcesIntact(later: Files, files: Files, sources: seq<Source>)
    requires forall s | s in sources :: s.path in files
  {
    forall s | s in sources :: s.path in later && later[s.path] == files[s.path]
  }

  lemma {:induction false} TotalsAgree(later: Files, bundle: map<string, Content>, paths: seq<string>, size: Content -> nat)
    requires BundleIntact(later, bundle) && forall p | p in paths :: p in bundle
    ensures var ds := Describe(bundle, paths, size);
            (forall d | d in ds :: BundlePath(d.path) in later) &&
            TotalSize(later, ds, size) == TotalOf(bundle, paths, size)
  {
    var ds := Describe(bundle, paths, size);
    forall d | d in ds ensures BundlePath(d.path) in later {
      var i :| 0 <= i < |ds| && ds[i] == d;
      assert paths[i] in paths && paths[i] in BundleFiles(later);
    }
    if paths != [] {
      var init := paths[..|paths| - 1];
      TotalsAgree(later, bundle, init, size);
      assert ds[..|ds| - 1] == Describe(bundle, init, size);
      assert paths[|paths| - 1] in paths;
    }
  }

  lemma StructureMeansIntact(later: Files, bundle: map<string, Content>, paths: seq<string>, size: Content -> nat)
    requires forall p :: p in bundle <==> p in paths
    requires BundleValid(later, Manifest(true, Describe(bundle, paths, size)), size)
    ensures BundleIntact(later, bundle)
  {
    var ds := Describe(bundle, paths, size);
    forall p | p in bundle ensures BundlePath(p) in later && later[BundlePath(p)] == bundle[p] {
      var i :| 0 <= i < |paths| && paths[i] == p;
      assert ds[i] in ds && FileOk(later, ds[i], size);
    }
    forall p | p in BundleFiles(later) ensures p in bundle {
      var d :| d in ds && d.path == p;
      var i :| 0 <= i < |ds| && ds[i] == d;
      assert paths[i] == p;
    }
  }

  lemma IntactIsStructure(later: Files, bundle: map<string, Content>, paths: seq<string>, size: Content -> nat)
    requires forall p :: p in bundle <==> p in paths
    requires forall p | p in bundle :: EndsWith(p, ".json") ==> !bundle[p].NotAnObject?
    requires paths != [] && BundleIntact(later, bundle)
    ensures Declares(Describe(bundle, paths, size), later) && BundleFiles(later) != {}
    ensures forall d | d in Describe(bundle, paths, size) :: FileOk(later, d, size)
  {
    var ds := Describe(bundle, paths, size);
    forall d | d in ds ensures BundlePath(d.path) in later && FileOk(later, d, size) {
      var i :| 0 <= i < |ds| && ds[i] == d;
      assert paths[i] in bundle && paths[i] in BundleFiles(later);
    }
    forall p | p in BundleFiles(later) ensures exists d :: d in ds && d.path == p {
      var i :| 0 <= i < |paths| && paths[i] == p;
      assert ds[i] in ds;
    }
    assert paths[0] in bundle;
  }

  /** With the sealed manifest in place, a bundle passes the structural check exactly when it is intact
      and within the limits. */
  lemma StructureIffIntact(later: Files, bundle: map<string, Content>, paths: seq<string>, size: Content -> nat)
    requires Distinct(paths) && paths != [] && forall i | 0 <= i < |paths| :: SafeDeclared(paths[i])
    requires forall p :: p in bundle <==> p in paths
    requires forall p | p in bundle :: EndsWith(p, ".json") ==> !bundle[p].NotAnObject?
    ensures BundleValid(later, Manifest(true, Describe(bundle, paths, size)), size) <==>
              && BundleIntact(later, bundle)
              && |paths| <= MAX_FILES && TotalOf(bundle, paths, size) <= MAX_TOTAL_BYTES
  {
    var ds := Describe(bundle, paths, size);
    assert PathsValid(ds);
    if BundleValid(later, Manifest(true, ds), size) {
      StructureMeansIntact(later, bundle, paths, size);
      TotalsAgree(later, bundle, paths, size);
    }
    if BundleIntact(later, bundle) {
      IntactIsStructure(later, bundle, paths, size);
      TotalsAgree(later, bundle, paths, size);
    }
  }

  // ---------------------------------------------------------------- the theorems

  /** A run-relative file that sealing does not itself overwrite. */
  predicate Capturable(path: Path) {
    path.RunPath? && SafeRelative(path.text) && path != MANIFEST
  }

  /** The check runner wrote its logs outside the evidence directory. */
  predicate CapturableLogs(checks: Report) {
    forall i | 0 <= i < |checks.items| ::
      Capturable(checks.items[i].stdoutRef) && Capturable(checks.items[i].stderrRef)
  }

  lemma TwoPartsAreSafe(a: string, b: string)
    requires |a| >= 2 && |b| >= 3 && '/' !in a && '/' !in b && a[0] != '\\' && a[1] != ':' && |a| > 2
    ensures SafeRelative(a + ['/'] + b)
  {
    SplitJoined(a, b, '/');
    SplitJoined(b, "", '/');
    assert a[0] in a;
  }

  lemma ReportSpelling()
    ensures CHECKS.text == "checks" + ['/'] + "checks.json"
  {
  }

  lemma ReportIsCapturable()
    ensures Capturable(CHECKS)
  {
    ReportSpelling();
    TwoPartsAreSafe("checks", "checks.json");
    assert CHECKS.text[0] != MANIFEST.text[0];
  }

  lemma DiffIsCapturable()
    ensures Capturable(DIFF)
  {
    FixedNameDiff();
    assert DIFF.text[0] != MANIFEST.text[0];
  }

  lemma {:induction false} LogSourcesCapturable(items: seq<CheckItem>, name: LogNaming)
    requires forall i | 0 <= i < |items| :: Capturable(items[i].stdoutRef) && Capturable(items[i].stderrRef)
    ensures forall s | s in LogSources(items, name) :: Capturable(s.path)
  {
    if items != [] { LogSourcesCapturable(items[..|items| - 1], name); }
  }

  lemma SourcesCapturable(checks: Report)
    requires CapturableLogs(checks)
    ensures forall s | s in SourcesOf(checks) :: Capturable(s.path)
  {
    ReportIsCapturable();
    DiffIsCapturable();
    LogSourcesCapturable(checks.items, LogPath);
  }

  lemma LogNameIsNotJson(i: nat, s: string)
    ensures !EndsWith(LogPath(i, s), ".json")
  {
    var path, head := LogPath(i, s), "logs/" + (Padded(i) + ("-" + s));
    assert path == head + ".log";
    if |path| >= 5 {
      assert path[|path| - 5..][4] == 'g';
    }
  }

  lemma LogNamesAreNotJson(n: nat, p: string)
    requires p in LogNames(n, LogPath)
    ensures !EndsWith(p, ".json")
  {
    var i :| 0 <= i < 2 * n && LogNames(n, LogPath)[i] == p;
    LogNameIsNotJson(i / 2 + 1, StreamAt(i));
  }

  /** The first two sources are the report and the diff; the names in between are logs. */
  ghost predicate Layout(sources: seq<Source>, logs: seq<string>) {
    && |sources| >= 2
    && sources[0] == Source(BUNDLE_CHECKS, CHECKS) && sources[1] == Source(BUNDLE_DIFF, DIFF)
    && BundlePaths(sources) == [BUNDLE_CHECKS, BUNDLE_DIFF] + logs + [BUNDLE_PLAN, BUNDLE_SOURCES]
  }

  lemma LayoutOfSources(checks: Report)
    ensures Layout(SourcesOf(checks), LogNames(|checks.items|, LogPath))
  {
    BundlePathsShape(checks, LogPath, SourcesOf(checks));
  }

  lemma JsonNamesHoldObjects(files: Files, checks: Report, diff: DiffReport, plan: Plan,
                             bundle: map<string, Content>, sources: seq<Source>, logs: seq<string>)
    requires CanSeal(files, checks, diff) && BundleHolds(bundle, files, sources, plan) && Layout(sources, logs)
    requires forall p | p in logs :: !EndsWith(p, ".json")
    ensures forall p | p in bundle :: EndsWith(p, ".json") ==> !bundle[p].NotAnObject?
  {
    FourHoldObjects(files, checks, diff, plan, bundle, sources, logs);
    forall p | p in bundle && EndsWith(p, ".json") ensures !bundle[p].NotAnObject? {
      hide EndsWith, BundlePaths, CanSeal, SourceMapOf;
      OneOfFour(BUNDLE_CHECKS, BUNDLE_DIFF, logs, BUNDLE_PLAN, BUNDLE_SOURCES, p);
    }
  }

  lemma OneOfFour(a: string, b: string, logs: seq<string>, c: string, d: string, p: string)
    requires p in [a, b] + logs + [c, d] && p !in logs
    ensures p in {a, b, c, d}
  {
  }

  lemma FourHoldObjects(files: Files, checks: Report, diff: DiffReport, plan: Plan, bundle: map<string, Content>,
                        sources: seq<Source>, logs: seq<string>)
    requires CanSeal(files, checks, diff) && BundleHolds(bundle, files, sources, plan) && Layout(sources, logs)
    ensures forall p | p in {BUNDLE_CHECKS, BUNDLE_DIFF, BUNDLE_PLAN, BUNDLE_SOURCES} :: p in bundle && !bundle[p].NotAnObject?
  {
    hide BundlePaths, SourceMapOf, LogsInRun;
    assert sources[0] in sources && sources[1] in sources;
  }

  lemma SourcesMatchIffIntact(later: Files, bundle: map<string, Content>, files: Files, sources: seq<Source>, plan: Plan)
    requires BundleHolds(bundle, files, sources, plan) && BundleIntact(later, bundle)
    requires forall s | s in sources :: SafeRelative(s.bundlePath) && SafeRelative(s.path.text)
    ensures SourcesMatch(later, SourceMapOf(sources)) <==> SourcesIntact(later, files, sources)
  {
    var named := SourceMapOf(sources);
    forall s | s in sources
      ensures s.bundlePath in named && named[s.bundlePath] == s.path
      ensures BundlePath(s.bundlePath) in later && later[BundlePath(s.bundlePath)] == files[s.path]
    {
      assert s.bundlePath in BundleFiles(later);
    }
  }

  /** The bundle that sealing makes out of these files. */
  function SealedBundle(files: Files, checks: Report, diff: DiffReport, plan: Plan): map<string, Content>
    requires CanSeal(files, checks, diff)
  {
    SourcesPresent(files, checks, diff);
    BundleOf(files, SourcesOf(checks), plan)
  }

  predicate WithinLimits(bundle: map<string, Content>, checks: Report, size: Content -> nat)
    requires forall p :: p in bundle <==> p in BundlePaths(SourcesOf(checks))
  {
    2 * |checks.items| + 4 <= MAX_FILES && TotalOf(bundle, BundlePaths(SourcesOf(checks)), size) <= MAX_TOTAL_BYTES
  }

  /** Everything the manifest vouches for still reads as it did when it was sealed. */
  ghost predicate Intact(later: Files, files: Files, checks: Report, diff: DiffReport, plan: Plan)
    requires CanSeal(files, checks, diff)
  {
    SourcesPresent(files, checks, diff);
    && BundleIntact(later, SealedBundle(files, checks, diff, plan))
    && SourcesIntact(later, files, SourcesOf(checks))
  }

  lemma SealedBundleFacts(files: Files, checks: Report, diff: DiffReport, plan: Plan, sources: seq<Source>)
    requires CanSeal(files, checks, diff) && sources == SourcesOf(checks)
    ensures BundleHolds(SealedBundle(files, checks, diff, plan), files, sources, plan)
    ensures Distinct(BundlePaths(sources)) && |BundlePaths(sources)| == 2 * |checks.items| + 4
    ensures forall i | 0 <= i < |BundlePaths(sources)| :: SafeDeclared(BundlePaths(sources)[i])
  {
    SourcesPresent(files, checks, diff);
    BundleNamesAreValid(checks);
    DistinctHasNoRepeats(BundlePaths(sources));
    BundleIsHeld(files, sources, plan);
  }

  lemma SourceNamesAreSafe(sources: seq<Source>)
    requires forall i | 0 <= i < |BundlePaths(sources)| :: SafeDeclared(BundlePaths(sources)[i])
    ensures forall s | s in sources :: SafeRelative(s.bundlePath)
  {
    forall s | s in sources ensures SafeRelative(s.bundlePath) {
      var i :| 0 <= i < |sources| && sources[i] == s;
      assert SafeDeclared(BundlePaths(sources)[i]);
    }
  }

  /** The sealed documents sit at their own places in an intact bundle. */
  ghost predicate DocumentsAre(later: Files, checks: Report, diff: DiffReport, plan: Plan, sources: seq<Source>) {
    && HoldsDocuments(later)
    && later[BundlePath(BUNDLE_CHECKS)].report == checks && later[BundlePath(BUNDLE_DIFF)].diff == diff
    && later[BundlePath(BUNDLE_PLAN)].plan == plan
    && later[BundlePath(BUNDLE_SOURCES)].sources == SourceMapOf(sources)
  }

  lemma IntactDocuments(later: Files, files: Files, checks: Report, diff: DiffReport, plan: Plan,
                        bundle: map<string, Content>, sources: seq<Source>, logs: seq<string>)
    requires CanSeal(files, checks, diff) && BundleHolds(bundle, files, sources, plan) && Layout(sources, logs)
    requires BundleIntact(later, bundle)
    ensures DocumentsAre(later, checks, diff, plan, sources)
  {
    assert sources[0] in sources && sources[1] in sources;
    assert forall p | p in bundle :: p in BundleFiles(later);
  }

  lemma ValidIffIntactCore(files: Files, checks: Report, diff: DiffReport, plan: Plan, size: Content -> nat,
                           later: Files, repository: RepositoryView,
                           bundle: map<string, Content>, sources: seq<Source>, logs: seq<string>)
    requires CanSeal(files, checks, diff) && BundleHolds(bundle, files, sources, plan) && Layout(sources, logs)
    requires Distinct(BundlePaths(sources)) && |BundlePaths(sources)| == 2 * |checks.items| + 4
    requires forall i | 0 <= i < |BundlePaths(sources)| :: SafeDeclared(BundlePaths(sources)[i])
    requires forall s | s in sources :: SafeRelative(s.path.text)
    requires forall p | p in logs :: !EndsWith(p, ".json")
    requires MANIFEST in later
    requires later[MANIFEST] == ManifestFile(Manifest(true, Describe(bundle, BundlePaths(sources), size)))
    ensures CoreValid(later, size, repository) <==>
              && BundleIntact(later, bundle) && SourcesIntact(later, files, sources)
              && 2 * |checks.items| + 4 <= MAX_FILES && TotalOf(bundle, BundlePaths(sources), size) <= MAX_TOTAL_BYTES
              && Substantiated(plan, checks, diff, repository)
    ensures CoreValid(later, size, repository) ==> DocumentsAre(later, checks, diff, plan, sources)
  {
    JsonNamesHoldObjects(files, checks, diff, plan, bundle, sources, logs);
    StructureIffIntact(later, bundle, BundlePaths(sources), size);
    SourceNamesAreSafe(sources);
    if BundleIntact(later, bundle) {
      IntactDocuments(later, files, checks, diff, plan, bundle, sources, logs);
      SourcesMatchIffIntact(later, bundle, files, sources, plan);
    }
  }

  /** After any later writes that leave the manifest alone, validation succeeds exactly when every bundle
      file and every captured source still has its sealed bytes, and what was sealed deserved it;
      the documents it then returns are the sealed ones. */
  lemma ValidIffIntact(files: Files, checks: Report, diff: DiffReport, plan: Plan, size: Content -> nat,
                       later: Files, repository: RepositoryView)
    requires CanSeal(files, checks, diff) && CapturableLogs(checks)
    requires MANIFEST in later && later[MANIFEST] == Sealed(files, checks, diff, plan, size)[MANIFEST]
    ensures forall p :: p in SealedBundle(files, checks, diff, plan) <==> p in BundlePaths(SourcesOf(checks))
    ensures CoreValid(later, size, repository) <==>
              && Intact(later, files, checks, diff, plan)
              && WithinLimits(SealedBundle(files, checks, diff, plan), checks, size)
              && Substantiated(plan, checks, diff, repository)
    ensures CoreValid(later, size, repository) ==> DocumentsAre(later, checks, diff, plan, SourcesOf(checks))
  {
    var sources, logs := SourcesOf(checks), LogNames(|checks.items|, LogPath);
    SourcesPresent(files, checks, diff);
    SealedBundleFacts(files, checks, diff, plan, sources);
    LayoutOfSources(checks);
    SourcesCapturable(checks);
    forall p | p in logs ensures !EndsWith(p, ".json") { LogNamesAreNotJson(|checks.items|, p); }
    ValidIffIntactCore(files, checks, diff, plan, size, later, repository,
                       SealedBundle(files, checks, diff, plan), sources, logs);
  }

  lemma SealingIsIntact(files: Files, bundle: map<string, Content>, manifest: Manifest, sources: seq<Source>)
    requires forall s | s in sources :: s.path in files && Capturable(s.path)
    ensures BundleIntact(Replaced(files, bundle, manifest), bundle)
    ensures SourcesIntact(Replaced(files, bundle, manifest), files, sources)
  {
  }

  /** Sealing and then validating with nothing in between gives VALID exactly when the plan hash is its own,
      the mandatory checks passed, the evaluator files are unchanged, both verdicts are decided
      and the bundle is within the limits. */
  lemma SealThenValidate(files: Files, checks: Report, diff: DiffReport, plan: Plan, size: Content -> nat,
                         repository: RepositoryView)
    requires CanSeal(files, checks, diff) && CapturableLogs(checks)
    ensures forall p :: p in SealedBundle(files, checks, diff, plan) <==> p in BundlePaths(SourcesOf(checks))
    ensures CoreValid(Sealed(files, checks, diff, plan, size), size, repository) <==>
              && WithinLimits(SealedBundle(files, checks, diff, plan), checks, size)
              && Substantiated(plan, checks, diff, repository)
  {
    SourcesPresent(files, checks, diff);
    SourcesCapturable(checks);
    var sources := SourcesOf(checks);
    ValidIffIntact(files, checks, diff, plan, size, Sealed(files, checks, diff, plan, size), repository);
    var bundle := SealedBundle(files, checks, diff, plan);
    SealingIsIntact(files, bundle, Manifest(true, Describe(bundle, BundlePaths(sources), size)), sources);
  }

  lemma {:induction false} LogsAreSources(items: seq<CheckItem>, name: LogNaming, i: nat)
    requires i < |items|
    ensures Source(name(i + 1, "stdoutRef"), items[i].stdoutRef) in LogSources(items, name)
    ensures Source(name(i + 1, "stderrRef"), items[i].stderrRef) in LogSources(items, name)
  {
    if i < |items| - 1 { LogsAreSources(items[..|items| - 1], name, i); }
  }

  predicate HoldsAt(files: Files, name: string, content: Content) {
    BundlePath(name) in files && files[BundlePath(name)] == content
  }

  /** Only the bundle and the manifest are written. */
  lemma SealedWrites(files: Files, checks: Report, diff: DiffReport, plan: Plan, size: Content -> nat)
    requires CanSeal(files, checks, diff)
    ensures var sealed, bundle := Sealed(files, checks, diff, plan, size), SealedBundle(files, checks, diff, plan);
            && (forall p | p in bundle :: HoldsAt(sealed, p, bundle[p]))
            && forall p: Path | p.RunPath? && p != MANIFEST :: (p in sealed <==> p in files) && (p in files ==> sealed[p] == files[p])
  {
    hide BundleOf, Describe, SourcesOf, BundlePaths;
  }

  /** Sealing captures both reports, the plan, and both logs of every check, each under its own name, and leaves every
      other file of the run as it was. */
  lemma SealedCaptures(files: Files, checks: Report, diff: DiffReport, plan: Plan, size: Content -> nat, i: nat)
    requires CanSeal(files, checks, diff) && i < |checks.items|
    ensures var sealed := Sealed(files, checks, diff, plan, size);
            && HoldsAt(sealed, BUNDLE_CHECKS, ReportFile(checks)) && HoldsAt(sealed, BUNDLE_DIFF, DiffFile(diff))
            && HoldsAt(sealed, BUNDLE_PLAN, PlanFile(plan))
            && HoldsAt(sealed, LogPath(i + 1, "stdoutRef"), files[checks.items[i].stdoutRef])
            && HoldsAt(sealed, LogPath(i + 1, "stderrRef"), files[checks.items[i].stderrRef])
            && forall p: Path | p.RunPath? && p != MANIFEST :: (p in sealed <==> p in files) && (p in files ==> sealed[p] == files[p])
  {
    var sources := SourcesOf(checks);
    SealedBundleFacts(files, checks, diff, plan, sources);
    SealedWrites(files, checks, diff, plan, size);
    LogsAreSources(checks.items, LogPath, i);
    hide LogPath, LogSources, SourceMapOf, BundlePaths, SealedBundle, Sealed, HoldsAt, Distinct;
    var logs := LogSources(checks.items, LogPath);
    assert sources[0] in sources && sources[1] in sources;
    assert forall s | s in logs :: s in sources;
  }
}
