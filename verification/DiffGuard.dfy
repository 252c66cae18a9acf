/** The diff guard's scope and budget rules over trees, and the aggregate contract of several tasks. */
module DiffGuard {
  import opened Common
  import opened TaskBrief

  /** A worktree: contents by path. */
  type Files = map<string, string>

  /** A renaming is one entry, under the new name; the old name is reported nowhere else. */
  datatype Status = Added | Modified | Deleted | Renamed(from: string)

  datatype Entry = Entry(status: Status, path: string)

  datatype Code =
    | UnjustifiedNewArtifact
    | DependencyChangeForbidden
    | ScopeViolation
    | ProtectedPathChanged
    | TestDeleted
    | SuspiciousLine
    | ChangedFileBudgetExceeded
    | AddedLineBudgetExceeded
    | NewFileBudgetExceeded

  datatype Violation = Violation(code: Code, path: string)

  /** The tables and patterns of the guard, whose contents play no part here. */
  datatype Rules = Rules(glob: (string, string) -> bool, isDependency: string -> bool, isTest: string -> bool)

  // ---------------------------------------------------------------- what changed

  function Changed(a: Files, b: Files): (ps: set<string>)
    ensures forall p :: p in ps <==> (p in a || p in b) && !(p in a && p in b && a[p] == b[p])
  {
    set p | p in a.Keys + b.Keys && !(p in a && p in b && a[p] == b[p])
  }

  function NewIn(a: Files, b: Files): (ps: set<string>)
    ensures forall p :: p in ps <==> p in b && p !in a
  {
    set p | p in b && p !in a
  }

  /** The entry's status is true of its path, and of the old name if it has one. */
  predicate EntryTrue(e: Entry, a: Files, b: Files) {
    match e.status
    case Added => e.path !in a && e.path in b
    case Modified => e.path in a && e.path in b && a[e.path] != b[e.path]
    case Deleted => e.path in a && e.path !in b
    case Renamed(from) => e.path !in a && e.path in b && from in a && from !in b
  }

  predicate Listed(entries: seq<Entry>, p: string) {
    exists i | 0 <= i < |entries| :: entries[i].path == p
  }

  /** The path is the old name of a renaming. */
  predicate MovedFrom(entries: seq<Entry>, p: string) {
    exists i | 0 <= i < |entries| :: entries[i].status == Renamed(p)
  }

  /** The entries list every changed path once, as itself or as the old name of a renaming. Which deleted and new
      files are paired up as renamings is not fixed. */
  ghost predicate Describes(entries: seq<Entry>, a: Files, b: Files) {
    && (forall i, j | 0 <= i < j < |entries| ::
          entries[i].path != entries[j].path && (entries[i].status.Renamed? ==> entries[i].status != entries[j].status))
    && (forall i | 0 <= i < |entries| :: EntryTrue(entries[i], a, b))
    && (forall i, j | 0 <= i < |entries| && 0 <= j < |entries| && entries[i].status.Renamed? ::
          entries[j].path != entries[i].status.from)
    && (forall p | p in Changed(a, b) :: Listed(entries, p) || MovedFrom(entries, p))
  }

  // ---------------------------------------------------------------- what the guard lists

  /** What the guard is shown: the tracked changes against the baseline, then the untracked files. */
  datatype Listing = Listing(tracked: seq<Entry>, untracked: seq<string>)

  function AddedEntries(paths: seq<string>): (entries: seq<Entry>)
    ensures |entries| == |paths| && forall i | 0 <= i < |entries| :: entries[i] == Entry(Added, paths[i])
  {
    seq(|paths|, i requires 0 <= i < |paths| => Entry(Added, paths[i]))
  }

  function EntryAt(l: Listing, i: nat): Entry
    requires i < |l.tracked| + |l.untracked|
  {
    if i < |l.tracked| then l.tracked[i] else Entry(Added, l.untracked[i - |l.tracked|])
  }

  /** Every untracked file counts as added. */
  function EntriesOf(l: Listing): (entries: seq<Entry>)
    ensures |entries| == |l.tracked| + |l.untracked|
    ensures forall i | 0 <= i < |entries| :: entries[i] == EntryAt(l, i)
  {
    l.tracked + AddedEntries(l.untracked)
  }

  /** The part of a worktree that the index knows. */
  function Indexed(b: Files, index: set<string>): (indexed: Files)
    ensures forall p :: p in indexed <==> p in b && p in index
    ensures forall p | p in indexed :: indexed[p] == b[p]
  {
    map p | p in b && p in index :: b[p]
  }

  /** The listing is that of a worktree against a baseline: tracked changes are those of the indexed files, so that a
      file of the baseline that the index does not know is listed as deleted and, if it is there, as untracked too. */
  ghost predicate Reports(l: Listing, a: Files, b: Files, index: set<string>) {
    && Describes(l.tracked, a, Indexed(b, index))
    && (forall i, j | 0 <= i < j < |l.untracked| :: l.untracked[i] != l.untracked[j])
    && (forall p :: p in l.untracked <==> p in b && p !in index)
  }

  /** Files of both trees that the index does not know, and those of them that nothing changed. */
  function Stale(a: Files, b: Files, index: set<string>): (ps: set<string>)
    ensures forall p :: p in ps <==> p in a && p in b && p !in index
  {
    set p | p in a && p in b && p !in index
  }

  function Untouched(a: Files, b: Files, index: set<string>): (ps: set<string>)
    ensures forall p :: p in ps <==> p in a && p in b && p !in index && a[p] == b[p]
  {
    set p | p in a && p in b && p !in index && a[p] == b[p]
  }

  // ---------------------------------------------------------------- the rules

  /** A pattern without its trailing stars and slashes. */
  function Stem(pattern: string): (r: string)
    ensures r <= pattern && forall i | |r| <= i < |pattern| :: pattern[i] == '*' || pattern[i] == '/'
    ensures r != [] ==> r[|r| - 1] != '*' && r[|r| - 1] != '/'
  {
    if pattern == [] || (pattern[|pattern| - 1] != '*' && pattern[|pattern| - 1] != '/') then pattern
    else Stem(pattern[..|pattern| - 1])
  }

  predicate Matches(path: string, patterns: seq<string>, rules: Rules) {
    exists i | 0 <= i < |patterns| :: rules.glob(path, patterns[i]) || Stem(patterns[i]) <= path
  }

  /** A path matches by a pattern's glob, or by beginning with what is left of the pattern without stars and slashes. */
  lemma MatchesExactly(path: string, patterns: seq<string>, rules: Rules)
    ensures Matches(path, patterns, rules) <==>
              exists pattern | pattern in patterns :: rules.glob(path, pattern) || exists stem :: IsStem(stem, pattern) && stem <= path
  {
    hide Stem, IsStem;
    forall pattern, stem ensures IsStem(stem, pattern) <==> stem == Stem(pattern) { StemUnique(stem, pattern); }
    if Matches(path, patterns, rules) {
      var i :| 0 <= i < |patterns| && (rules.glob(path, patterns[i]) || Stem(patterns[i]) <= path);
      assert patterns[i] in patterns && IsStem(Stem(patterns[i]), patterns[i]);
    }
  }

  /** All stars and slashes at the end are gone, and nothing else. */
  predicate IsStem(stem: string, pattern: string) {
    && stem <= pattern && (forall i | |stem| <= i < |pattern| :: pattern[i] == '*' || pattern[i] == '/')
    && (stem != [] ==> stem[|stem| - 1] != '*' && stem[|stem| - 1] != '/')
  }

  lemma StemUnique(stem: string, pattern: string)
    ensures IsStem(stem, pattern) <==> stem == Stem(pattern)
  {
    var r := Stem(pattern);
    if IsStem(stem, pattern) {
      assert stem == pattern[..|stem|] && r == pattern[..|r|];
    }
  }

  predicate Permitted(task: TaskBrief, path: string, rules: Rules) {
    task.permittedNewArtifacts != [] && Matches(path, task.permittedNewArtifacts, rules)
  }

  predicate InScope(task: TaskBrief, path: string, rules: Rules) {
    task.allowedPaths == [] || Matches(path, task.allowedPaths, rules)
  }

  predicate Protected(task: TaskBrief, path: string, rules: Rules) {
    task.protectedPaths != [] && Matches(path, task.protectedPaths, rules)
  }

  /** What a task's contract demands of one changed path. */
  predicate EntryClean(task: TaskBrief, e: Entry, rules: Rules) {
    && (e.status == Added ==> Permitted(task, e.path, rules))
    && (rules.isDependency(e.path) ==> task.changeBudget.allowDependencyChanges && Permitted(task, e.path, rules))
    && InScope(task, e.path, rules)
    && !Protected(task, e.path, rules)
    && !(e.status == Deleted && rules.isTest(e.path))
  }

  function NewCount(entries: seq<Entry>): nat {
    if entries == [] then 0
    else NewCount(entries[..|entries| - 1]) + if entries[|entries| - 1].status == Added then 1 else 0
  }

  predicate Clean(task: TaskBrief, entries: seq<Entry>, addedLines: nat, suspicious: seq<string>, rules: Rules) {
    && (forall i | 0 <= i < |entries| :: EntryClean(task, entries[i], rules))
    && suspicious == []
    && |entries| <= task.changeBudget.maxChangedFiles
    && (task.changeBudget.maxAddedLines.Some? ==> addedLines <= task.changeBudget.maxAddedLines.value)
    && NewCount(entries) <= task.changeBudget.maxNewFiles
  }

  /** What one changed path can be charged with. */
  predicate Charged(v: Violation, task: TaskBrief, e: Entry, rules: Rules) {
    && v.path == e.path
    && match v.code
       case UnjustifiedNewArtifact =>
         && !Permitted(task, e.path, rules)
         && (e.status == Added || (rules.isDependency(e.path) && task.changeBudget.allowDependencyChanges))
       case DependencyChangeForbidden => rules.isDependency(e.path) && !task.changeBudget.allowDependencyChanges
       case ScopeViolation => !InScope(task, e.path, rules)
       case ProtectedPathChanged => Protected(task, e.path, rules)
       case TestDeleted => e.status == Deleted && rules.isTest(e.path)
       case _ => false
  }

  /** What the whole change can be charged with. */
  predicate ChargedOverall(v: Violation, task: TaskBrief, entries: seq<Entry>, addedLines: nat, suspicious: seq<string>) {
    match v.code
    case SuspiciousLine => v.path in suspicious
    case ChangedFileBudgetExceeded => v.path == "" && |entries| > task.changeBudget.maxChangedFiles
    case AddedLineBudgetExceeded =>
      v.path == "" && task.changeBudget.maxAddedLines.Some? && addedLines > task.changeBudget.maxAddedLines.value
    case NewFileBudgetExceeded => v.path == "" && NewCount(entries) > task.changeBudget.maxNewFiles
    case _ => false
  }

  ghost predicate ChargedSomewhere(v: Violation, task: TaskBrief, entries: seq<Entry>, rules: Rules) {
    exists i | 0 <= i < |entries| :: Charged(v, task, entries[i], rules)
  }

  method InspectEntry(task: TaskBrief, e: Entry, rules: Rules) returns (violations: seq<Violation>)
    ensures violations == [] <==> EntryClean(task, e, rules)
    ensures forall v :: v in violations <==> Charged(v, task, e, rules)
  {
    hide Matches;
    violations := [];
    var permitted := task.permittedNewArtifacts != [] && Matches(e.path, task.permittedNewArtifacts, rules);
    if e.status == Added && !permitted {
      violations := violations + [Violation(UnjustifiedNewArtifact, e.path)];
    }
    if rules.isDependency(e.path) {
      if !task.changeBudget.allowDependencyChanges {
        violations := violations + [Violation(DependencyChangeForbidden, e.path)];
      } else if !permitted {
        violations := violations + [Violation(UnjustifiedNewArtifact, e.path)];
      }
    }
    if task.allowedPaths != [] && !Matches(e.path, task.allowedPaths, rules) {
      violations := violations + [Violation(ScopeViolation, e.path)];
    }
    if task.protectedPaths != [] && Matches(e.path, task.protectedPaths, rules) {
      violations := violations + [Violation(ProtectedPathChanged, e.path)];
    }
    if e.status == Deleted && rules.isTest(e.path) { violations := violations + [Violation(TestDeleted, e.path)]; }
  }

  /** Each suspicious line of the patch, by the file it is in. */
  function Suspicions(suspicious: seq<string>): (vs: seq<Violation>)
    ensures |vs| == |suspicious|
    ensures forall v :: v in vs <==> v.code == SuspiciousLine && v.path in suspicious
  {
    var vs := seq(|suspicious|, i requires 0 <= i < |suspicious| => Violation(SuspiciousLine, suspicious[i]));
    assert forall i | 0 <= i < |suspicious| :: vs[i] == Violation(SuspiciousLine, suspicious[i]);
    vs
  }

  lemma ChargedNext(v: Violation, task: TaskBrief, entries: seq<Entry>, i: nat, rules: Rules)
    requires i < |entries|
    ensures ChargedSomewhere(v, task, entries[..i + 1], rules) <==>
              ChargedSomewhere(v, task, entries[..i], rules) || Charged(v, task, entries[i], rules)
  {
    hide Charged;
    var more := entries[..i + 1];
    assert more[i] == entries[i] && more[..i] == entries[..i];
    if ChargedSomewhere(v, task, entries[..i], rules) {
      var j :| 0 <= j < i && Charged(v, task, entries[..i][j], rules);
      assert more[j] == entries[..i][j];
    }
  }

  /** The charges on every changed path, in the order of the listing. */
  method InspectEntries(task: TaskBrief, entries: seq<Entry>, rules: Rules) returns (violations: seq<Violation>, newFiles: nat)
    ensures violations == [] <==> forall i | 0 <= i < |entries| :: EntryClean(task, entries[i], rules)
    ensures forall v :: v in violations <==> ChargedSomewhere(v, task, entries, rules)
    ensures newFiles == NewCount(entries)
  {
    hide EntryClean, Charged, ChargedSomewhere;
    violations, newFiles := [], 0;
    NothingCharged(task, entries[..0], rules);
    var i := 0;
    while i < |entries|
      invariant 0 <= i <= |entries|
      invariant violations == [] <==> forall j | 0 <= j < i :: EntryClean(task, entries[j], rules)
      invariant forall v :: v in violations <==> ChargedSomewhere(v, task, entries[..i], rules)
      invariant newFiles == NewCount(entries[..i])
    {
      if entries[i].status == Added { newFiles := newFiles + 1; }
      var found := InspectEntry(task, entries[i], rules);
      forall v { ChargedNext(v, task, entries, i, rules); }
      violations := violations + found;
      assert entries[..i + 1][..i] == entries[..i];
      i := i + 1;
    }
    assert entries[..i] == entries;
  }

  lemma NothingCharged(task: TaskBrief, entries: seq<Entry>, rules: Rules)
    requires entries == []
    ensures forall v :: !ChargedSomewhere(v, task, entries, rules)
  {
  }

  /** The charges on the change as a whole. */
  method InspectWhole(task: TaskBrief, entries: seq<Entry>, newFiles: nat, addedLines: nat, suspicious: seq<string>)
    returns (violations: seq<Violation>)
    requires newFiles == NewCount(entries)
    ensures forall v :: v in violations <==> ChargedOverall(v, task, entries, addedLines, suspicious)
    ensures violations == [] <==>
              && suspicious == [] && |entries| <= task.changeBudget.maxChangedFiles
              && (task.changeBudget.maxAddedLines.Some? ==> addedLines <= task.changeBudget.maxAddedLines.value)
              && NewCount(entries) <= task.changeBudget.maxNewFiles
  {
    violations := Suspicions(suspicious);
    if |entries| > task.changeBudget.maxChangedFiles {
      violations := violations + [Violation(ChangedFileBudgetExceeded, "")];
    }
    if task.changeBudget.maxAddedLines.Some? && addedLines > task.changeBudget.maxAddedLines.value {
      violations := violations + [Violation(AddedLineBudgetExceeded, "")];
    }
    if newFiles > task.changeBudget.maxNewFiles {
      violations := violations + [Violation(NewFileBudgetExceeded, "")];
    }
  }

  /** The verdict is PASS exactly when there is no violation, and the violations are exactly what the change is charged
      with. */
  method InspectDiff(task: TaskBrief, l: Listing, addedLines: nat, suspicious: seq<string>, rules: Rules)
    returns (violations: seq<Violation>, newFiles: nat)
    ensures violations == [] <==> Clean(task, EntriesOf(l), addedLines, suspicious, rules)
    ensures forall v :: v in violations <==>
                          || ChargedSomewhere(v, task, EntriesOf(l), rules)
                          || ChargedOverall(v, task, EntriesOf(l), addedLines, suspicious)
    ensures newFiles == NewCount(EntriesOf(l))
  {
    var entries := EntriesOf(l);
    hide EntriesOf, EntryClean, NewCount, ChargedSomewhere, ChargedOverall;
    violations, newFiles := InspectEntries(task, entries, rules);
    var more := InspectWhole(task, entries, newFiles, addedLines, suspicious);
    violations := violations + more;
  }

  // ---------------------------------------------------------------- scope and budgets over trees

  /** The change from one tree to another meets the task's allowed paths and file budgets. */
  ghost predicate Meets(task: TaskBrief, a: Files, b: Files, rules: Rules) {
    && (forall p | p in Changed(a, b) :: InScope(task, p, rules))
    && |Changed(a, b)| <= task.changeBudget.maxChangedFiles
    && |NewIn(a, b)| <= task.changeBudget.maxNewFiles
  }

  function PathsOf(entries: seq<Entry>): (ps: set<string>)
    ensures forall p :: p in ps <==> Listed(entries, p)
  {
    set i | 0 <= i < |entries| :: entries[i].path
  }

  /** The old names of the renamings. */
  function OldNames(entries: seq<Entry>): (ps: set<string>)
    ensures forall p :: p in ps <==> MovedFrom(entries, p)
  {
    set i | 0 <= i < |entries| && entries[i].status.Renamed? :: entries[i].status.from
  }

  predicate IsNew(e: Entry) {
    e.status.Added? || e.status.Renamed?
  }

  /** The entries that name a file the old tree does not have. */
  function NewOnes(entries: seq<Entry>): (r: seq<Entry>)
    ensures |r| == NewCount(entries) + RenameCount(entries)
    ensures forall e :: e in r <==> e in entries && IsNew(e)
  {
    if entries == [] then []
    else
      var init, last := entries[..|entries| - 1], entries[|entries| - 1];
      assert entries == init + [last];
      NewOnes(init) + if IsNew(last) then [last] else []
  }

  function RenameCount(entries: seq<Entry>): nat {
    if entries == [] then 0
    else RenameCount(entries[..|entries| - 1]) + if entries[|entries| - 1].status.Renamed? then 1 else 0
  }

  lemma {:induction false} DistinctCount(entries: seq<Entry>)
    requires forall i, j | 0 <= i < j < |entries| :: entries[i].path != entries[j].path
    ensures |PathsOf(entries)| == |entries|
  {
    if entries == [] {
      assert PathsOf(entries) == {};
    } else {
      var init, last := entries[..|entries| - 1], entries[|entries| - 1];
      DistinctCount(init);
      assert entries == init + [last];
      assert PathsOf(entries) == PathsOf(init) + {last.path};
      assert last.path !in PathsOf(init);
    }
  }

  lemma OldNamesNext(entries: seq<Entry>)
    requires entries != []
    requires forall i, j | 0 <= i < j < |entries| :: entries[i].status.Renamed? ==> entries[i].status != entries[j].status
    ensures var init, last := entries[..|entries| - 1], entries[|entries| - 1];
            && OldNames(entries) == OldNames(init) + (if last.status.Renamed? then {last.status.from} else {})
            && (last.status.Renamed? ==> last.status.from !in OldNames(init))
  {
    var init, last := entries[..|entries| - 1], entries[|entries| - 1];
    assert entries == init + [last];
    forall p ensures p in OldNames(entries) <==> p in OldNames(init) || last.status == Renamed(p) {
      if MovedFrom(entries, p) {
        var i :| 0 <= i < |entries| && entries[i].status == Renamed(p);
        if i < |init| { assert init[i].status == Renamed(p); }
      }
      if MovedFrom(init, p) {
        var i :| 0 <= i < |init| && init[i].status == Renamed(p);
        assert entries[i].status == Renamed(p);
      }
      if last.status == Renamed(p) { assert entries[|init|].status == Renamed(p); }
    }
  }

  lemma {:induction false} DistinctRenamings(entries: seq<Entry>)
    requires forall i, j | 0 <= i < j < |entries| :: entries[i].status.Renamed? ==> entries[i].status != entries[j].status
    ensures |OldNames(entries)| == RenameCount(entries)
  {
    if entries == [] {
      assert OldNames(entries) == {};
    } else {
      var init, last := entries[..|entries| - 1], entries[|entries| - 1];
      DistinctRenamings(init);
      OldNamesNext(entries);
      hide OldNames, MovedFrom;
      if last.status.Renamed? {
        assert last.status.from !in OldNames(init);
      }
    }
  }

  lemma {:induction false} NewOnesDistinct(entries: seq<Entry>)
    requires forall i, j | 0 <= i < j < |entries| :: entries[i].path != entries[j].path
    ensures forall i, j | 0 <= i < j < |NewOnes(entries)| :: NewOnes(entries)[i].path != NewOnes(entries)[j].path
  {
    if entries != [] {
      var init, last := entries[..|entries| - 1], entries[|entries| - 1];
      NewOnesDistinct(init);
      forall i | 0 <= i < |NewOnes(init)| ensures NewOnes(init)[i].path != last.path {
        assert NewOnes(init)[i] in init;
      }
    }
  }

  lemma ChangedAreListed(entries: seq<Entry>, a: Files, b: Files)
    requires Describes(entries, a, b)
    ensures Changed(a, b) == PathsOf(entries) + OldNames(entries) && PathsOf(entries) !! OldNames(entries)
  {
    forall i | 0 <= i < |entries| ensures entries[i].path in Changed(a, b) {
      assert EntryTrue(entries[i], a, b);
    }
    forall i | 0 <= i < |entries| && entries[i].status.Renamed? ensures entries[i].status.from in Changed(a, b) {
      assert EntryTrue(entries[i], a, b);
    }
  }

  lemma NewAreListed(entries: seq<Entry>, a: Files, b: Files)
    requires Describes(entries, a, b)
    ensures NewIn(a, b) == PathsOf(NewOnes(entries))
  {
    forall p ensures p in NewIn(a, b) <==> p in PathsOf(NewOnes(entries)) {
      if p in NewIn(a, b) {
        NewEntry(entries, a, b, p);
        var i :| 0 <= i < |entries| && entries[i].path == p && IsNew(entries[i]);
        assert entries[i] in NewOnes(entries);
      }
      if p in PathsOf(NewOnes(entries)) {
        var j :| 0 <= j < |NewOnes(entries)| && NewOnes(entries)[j].path == p;
        assert NewOnes(entries)[j] in NewOnes(entries);
      }
    }
  }

  lemma MovedIsGone(entries: seq<Entry>, a: Files, b: Files, p: string)
    requires Describes(entries, a, b) && MovedFrom(entries, p)
    ensures p in a && p !in b
  {
    var i :| 0 <= i < |entries| && entries[i].status == Renamed(p);
    assert EntryTrue(entries[i], a, b);
  }

  lemma NewEntry(entries: seq<Entry>, a: Files, b: Files, p: string)
    requires Describes(entries, a, b) && p in NewIn(a, b)
    ensures exists i | 0 <= i < |entries| :: entries[i].path == p && IsNew(entries[i])
  {
    assert p in Changed(a, b);
    if MovedFrom(entries, p) { MovedIsGone(entries, a, b, p); }
    var i :| 0 <= i < |entries| && entries[i].path == p;
    assert EntryTrue(entries[i], a, b);
  }

  lemma {:induction false} CountsAppend(xs: seq<Entry>, ys: seq<Entry>)
    ensures NewCount(xs + ys) == NewCount(xs) + NewCount(ys) && RenameCount(xs + ys) == RenameCount(xs) + RenameCount(ys)
  {
    if ys == [] {
      assert xs + ys == xs;
    } else {
      CountsAppend(xs, ys[..|ys| - 1]);
      assert (xs + ys)[..|xs + ys| - 1] == xs + ys[..|ys| - 1];
    }
  }

  lemma {:induction false} AddedCounts(paths: seq<string>)
    ensures NewCount(AddedEntries(paths)) == |paths| && RenameCount(AddedEntries(paths)) == 0
  {
    if paths != [] {
      AddedCounts(paths[..|paths| - 1]);
      assert AddedEntries(paths)[..|paths| - 1] == AddedEntries(paths[..|paths| - 1]);
    }
  }

  lemma {:induction false} DistinctSize(paths: seq<string>)
    requires forall i, j | 0 <= i < j < |paths| :: paths[i] != paths[j]
    ensures |(set p | p in paths)| == |paths|
  {
    if paths == [] {
      assert (set p | p in paths) == {};
    } else {
      var init, last := paths[..|paths| - 1], paths[|paths| - 1];
      DistinctSize(init);
      assert paths == init + [last];
      assert (set p | p in paths) == (set p | p in init) + {last};
    }
  }

  lemma SplitSize<T>(a: set<T>, b: set<T>)
    ensures |a| == |a - b| + |a * b|
  {
    assert a == (a - b) + (a * b);
  }

  lemma ChangedSets(l: Listing, a: Files, b: Files, index: set<string>)
    requires Reports(l, a, b, index)
    ensures var changed, indexed := Changed(a, b), Changed(a, Indexed(b, index));
            var u := set p | p in l.untracked;
            && indexed * u == Stale(a, b, index) && indexed - u == changed - u
            && Untouched(a, b, index) <= u && changed * u == u - Untouched(a, b, index)
  {
    hide Describes;
  }

  lemma NewSets(l: Listing, a: Files, b: Files, index: set<string>)
    requires Reports(l, a, b, index)
    ensures var u := set p | p in l.untracked;
            && NewIn(a, Indexed(b, index)) == NewIn(a, b) - u
            && Stale(a, b, index) <= u && NewIn(a, b) * u == u - Stale(a, b, index)
  {
    hide Describes;
  }

  lemma PartSize<T>(part: set<T>, whole: set<T>)
    requires part <= whole
    ensures |whole - part| == |whole| - |part|
  {
    assert whole == (whole - part) + part;
  }

  /** How many files changed and are new, told from the listing. */
  lemma ListingSizes(l: Listing, a: Files, b: Files, index: set<string>)
    requires Reports(l, a, b, index)
    ensures |Changed(a, b)| ==
              |EntriesOf(l)| + RenameCount(l.tracked) - |Stale(a, b, index)| - |Untouched(a, b, index)|
    ensures |NewIn(a, b)| == NewCount(EntriesOf(l)) + RenameCount(l.tracked) - |Stale(a, b, index)|
  {
    ListedSizes(l.tracked, a, Indexed(b, index));
    DistinctSize(l.untracked);
    CountsAppend(l.tracked, AddedEntries(l.untracked));
    AddedCounts(l.untracked);
    ChangedSets(l, a, b, index);
    NewSets(l, a, b, index);
    hide Reports, Changed, NewIn, NewCount, RenameCount, Stale, Untouched, Indexed;
    var u := set p | p in l.untracked;
    SplitSize(Changed(a, Indexed(b, index)), u);
    SplitSize(Changed(a, b), u);
    SplitSize(NewIn(a, b), u);
    PartSize(Untouched(a, b, index), u);
    PartSize(Stale(a, b, index), u);
  }

  /** Every changed path is listed, as itself or as the old name of a renaming; if it is still there, as itself. */
  lemma ChangedIsListed(l: Listing, a: Files, b: Files, index: set<string>, p: string)
    requires Reports(l, a, b, index) && p in Changed(a, b)
    ensures Listed(EntriesOf(l), p) || MovedFrom(l.tracked, p)
    ensures p in b ==> Listed(EntriesOf(l), p)
  {
    if p in b && p !in index {
      UntrackedIsListed(l, p);
    } else {
      assert p in Changed(a, Indexed(b, index));
      if p in b { KeptIsListed(l.tracked, a, Indexed(b, index), p); }
      if Listed(l.tracked, p) { TrackedIsListed(l, p); }
    }
  }

  lemma UntrackedIsListed(l: Listing, p: string)
    requires p in l.untracked
    ensures Listed(EntriesOf(l), p)
  {
    var i :| 0 <= i < |l.untracked| && l.untracked[i] == p;
    assert EntriesOf(l)[|l.tracked| + i].path == p;
  }

  lemma TrackedIsListed(l: Listing, p: string)
    requires Listed(l.tracked, p)
    ensures Listed(EntriesOf(l), p)
  {
    var i :| 0 <= i < |l.tracked| && l.tracked[i].path == p;
    assert EntriesOf(l)[i].path == p;
  }

  /** A clean listing meets the contract as a change of trees exactly when what it does not look at does: the old names
      of the renamings are in scope, and the budgets have room for both names of each. Files that the index does not
      know are counted too often, never too seldom. */
  lemma CleanMeets(task: TaskBrief, l: Listing, index: set<string>, addedLines: nat, suspicious: seq<string>, a: Files,
                   b: Files, rules: Rules)
    requires Reports(l, a, b, index) && Clean(task, EntriesOf(l), addedLines, suspicious, rules)
    ensures Meets(task, a, b, rules) <==>
              && (forall p | p in OldNames(l.tracked) :: InScope(task, p, rules))
              && |EntriesOf(l)| + RenameCount(l.tracked) - |Stale(a, b, index)| - |Untouched(a, b, index)|
                 <= task.changeBudget.maxChangedFiles
              && NewCount(EntriesOf(l)) + RenameCount(l.tracked) - |Stale(a, b, index)| <= task.changeBudget.maxNewFiles
    ensures forall i | 0 <= i < |l.tracked| && l.tracked[i].status == Added :: Permitted(task, l.tracked[i].path, rules)
    ensures forall p | p in l.untracked :: Permitted(task, p, rules)
  {
    ListingSizes(l, a, b, index);
    var entries := EntriesOf(l);
    ListedInScope(task, entries, addedLines, suspicious, rules);
    forall i | 0 <= i < |entries| && entries[i].status == Added ensures Permitted(task, entries[i].path, rules) {
      assert EntryClean(task, entries[i], rules);
    }
    forall i | 0 <= i < |l.tracked| && l.tracked[i].status == Added ensures Permitted(task, l.tracked[i].path, rules) {
      assert entries[i] == l.tracked[i];
    }
    forall p | p in l.untracked ensures Permitted(task, p, rules) {
      var i :| 0 <= i < |l.untracked| && l.untracked[i] == p;
      assert entries[|l.tracked| + i] == Entry(Added, p);
    }
    forall p | p in OldNames(l.tracked) ensures p in Changed(a, b) || p in PathsOf(entries) {
      OldNameSeen(l, a, b, index, p);
    }
    forall p | p in Changed(a, b) ensures p in PathsOf(entries) || p in OldNames(l.tracked) {
      ChangedIsListed(l, a, b, index, p);
    }
  }

  lemma OldNameSeen(l: Listing, a: Files, b: Files, index: set<string>, p: string)
    requires Reports(l, a, b, index) && p in OldNames(l.tracked)
    ensures p in Changed(a, b) || p in PathsOf(EntriesOf(l))
  {
    MovedIsGone(l.tracked, a, Indexed(b, index), p);
    if p in b { UntrackedIsListed(l, p); }
  }

  lemma ListedSizes(entries: seq<Entry>, a: Files, b: Files)
    requires Describes(entries, a, b)
    ensures |Changed(a, b)| == |entries| + RenameCount(entries)
    ensures |NewIn(a, b)| == NewCount(entries) + RenameCount(entries)
  {
    hide NewOnes, Changed, NewIn, RenameCount, NewCount;
    DistinctCount(entries);
    DistinctRenamings(entries);
    NewOnesDistinct(entries);
    DistinctCount(NewOnes(entries));
    ChangedAreListed(entries, a, b);
    NewAreListed(entries, a, b);
  }

  lemma ListedInScope(task: TaskBrief, entries: seq<Entry>, addedLines: nat, suspicious: seq<string>, rules: Rules)
    requires Clean(task, entries, addedLines, suspicious, rules)
    ensures forall p | p in PathsOf(entries) :: InScope(task, p, rules)
  {
    hide Permitted, Protected, InScope;
    forall p | p in PathsOf(entries) ensures InScope(task, p, rules) {
      var i :| 0 <= i < |entries| && entries[i].path == p;
      assert EntryClean(task, entries[i], rules);
    }
  }

  predicate RenameFree(entries: seq<Entry>) {
    forall i | 0 <= i < |entries| :: !entries[i].status.Renamed?
  }

  lemma {:induction false} NoRenamings(entries: seq<Entry>)
    requires RenameFree(entries)
    ensures RenameCount(entries) == 0 && OldNames(entries) == {}
  {
    if entries != [] {
      NoRenamings(entries[..|entries| - 1]);
      forall p ensures p !in OldNames(entries) {
      }
    } else {
      assert OldNames(entries) == {};
    }
  }

  // ---------------------------------------------------------------- the aggregate contract

  function SumChanged(tasks: seq<TaskBrief>): nat {
    if tasks == [] then 0 else SumChanged(tasks[..|tasks| - 1]) + tasks[|tasks| - 1].changeBudget.maxChangedFiles
  }

  function SumNew(tasks: seq<TaskBrief>): nat {
    if tasks == [] then 0 else SumNew(tasks[..|tasks| - 1]) + tasks[|tasks| - 1].changeBudget.maxNewFiles
  }

  /** The sum of the added-line budgets, None as soon as one task has none. */
  function SumAdded(tasks: seq<TaskBrief>): Option<nat> {
    if tasks == [] then Some(0)
    else
      match (SumAdded(tasks[..|tasks| - 1]), tasks[|tasks| - 1].changeBudget.maxAddedLines)
      case (Some(a), Some(b)) => Some(a + b)
      case _ => None
  }

  /** The aggregate contract of the tasks. Its permitted new artifacts are left out, as the aggregation does. */
  ghost predicate IsAggregate(all: TaskBrief, tasks: seq<TaskBrief>) {
    && (forall x :: x in all.allowedPaths <==> exists t | t in tasks :: x in t.allowedPaths)
    && (forall x :: x in all.protectedPaths <==> exists t | t in tasks :: x in t.protectedPaths)
    && (forall x :: x in all.criterionIds <==> exists t | t in tasks :: x in t.criterionIds)
    && (forall c :: c in all.requiredChecks <==> exists t | t in tasks :: c in t.requiredChecks)
    && all.changeBudget.maxChangedFiles == SumChanged(tasks)
    && all.changeBudget.maxNewFiles == SumNew(tasks)
    && all.changeBudget.maxAddedLines == SumAdded(tasks)
    && (all.changeBudget.allowDependencyChanges <==> exists t | t in tasks :: t.changeBudget.allowDependencyChanges)
    && all.permittedNewArtifacts == []
    && (exists t | t in tasks :: all.maxFastAttempts == t.maxFastAttempts)
    && (exists t | t in tasks :: all.maxRecoveryAttempts == t.maxRecoveryAttempts)
    && (forall t | t in tasks :: t.maxFastAttempts <= all.maxFastAttempts && t.maxRecoveryAttempts <= all.maxRecoveryAttempts)
  }

  /** The elements of a set in some order; sorting is one such order. */
  ghost predicate Lists(order: set<string> -> seq<string>) {
    forall s: set<string>, x :: x in order(s) <==> x in s
  }

  /** Every required check of every task, each once. */
  method DedupeChecks(tasks: seq<TaskBrief>) returns (checks: seq<CheckSpec>)
    ensures forall c :: c in checks <==> exists t | t in tasks :: c in t.requiredChecks
    ensures forall i, j | 0 <= i < j < |checks| :: checks[i] != checks[j]
  {
    checks := [];
    var k := 0;
    while k < |tasks|
      invariant 0 <= k <= |tasks|
      invariant forall c :: c in checks <==> exists t | t in tasks[..k] :: c in t.requiredChecks
      invariant forall i, j | 0 <= i < j < |checks| :: checks[i] != checks[j]
    {
      ghost var before := checks;
      var mine := tasks[k].requiredChecks;
      var n := 0;
      while n < |mine|
        invariant 0 <= n <= |mine|
        invariant forall c :: c in checks <==> c in before || c in mine[..n]
        invariant forall i, j | 0 <= i < j < |checks| :: checks[i] != checks[j]
      {
        assert mine[..n + 1] == mine[..n] + [mine[n]];
        if mine[n] !in checks { checks := checks + [mine[n]]; }
        n := n + 1;
      }
      assert mine[..n] == mine;
      InPrefix(tasks, k);
      k := k + 1;
    }
    assert tasks[..k] == tasks;
  }

  lemma InPrefix<T>(xs: seq<T>, k: nat)
    requires k < |xs|
    ensures forall x :: x in xs[..k + 1] <==> x in xs[..k] || x == xs[k]
  {
    assert xs[..k + 1] == xs[..k] + [xs[k]];
  }

  datatype Budgets = Budgets(fast: int, recovery: int)

  /** The largest attempt budgets. */
  method LargestBudgets(tasks: seq<TaskBrief>) returns (b: Budgets)
    requires tasks != []
    ensures (exists t | t in tasks :: b.fast == t.maxFastAttempts) && (exists t | t in tasks :: b.recovery == t.maxRecoveryAttempts)
    ensures forall t | t in tasks :: t.maxFastAttempts <= b.fast && t.maxRecoveryAttempts <= b.recovery
  {
    b := Budgets(tasks[0].maxFastAttempts, tasks[0].maxRecoveryAttempts);
    var i := 1;
    while i < |tasks|
      invariant 1 <= i <= |tasks|
      invariant exists j | 0 <= j < i :: b.fast == tasks[j].maxFastAttempts
      invariant exists j | 0 <= j < i :: b.recovery == tasks[j].maxRecoveryAttempts
      invariant forall j | 0 <= j < i :: tasks[j].maxFastAttempts <= b.fast && tasks[j].maxRecoveryAttempts <= b.recovery
    {
      if tasks[i].maxFastAttempts > b.fast { b := b.(fast := tasks[i].maxFastAttempts); }
      if tasks[i].maxRecoveryAttempts > b.recovery { b := b.(recovery := tasks[i].maxRecoveryAttempts); }
      i := i + 1;
    }
    var j :| 0 <= j < |tasks| && b.fast == tasks[j].maxFastAttempts;
    var k :| 0 <= k < |tasks| && b.recovery == tasks[k].maxRecoveryAttempts;
    assert tasks[j] in tasks && tasks[k] in tasks;
  }

  method AggregateTask(tasks: seq<TaskBrief>, order: set<string> -> seq<string>) returns (all: Option<TaskBrief>)
    requires Lists(order)
    ensures all.None? <==> tasks == []
    ensures all.Some? ==> IsAggregate(all.value, tasks)
  {
    if tasks == [] { return None; }
    var checks := DedupeChecks(tasks);
    var budgets := LargestBudgets(tasks);
    return Some(TaskBrief(
      "ALL-TASKS",
      order(set t, x | t in tasks && x in t.allowedPaths :: x),
      order(set t, x | t in tasks && x in t.protectedPaths :: x),
      checks,
      ChangeBudget(SumChanged(tasks), SumAdded(tasks), SumNew(tasks),
                   exists t :: t in tasks && t.changeBudget.allowDependencyChanges),
      [],
      budgets.fast,
      budgets.recovery,
      order(set t, x | t in tasks && x in t.criterionIds :: x),
      None));
  }

  lemma {:induction false} SubsetSize<T>(a: set<T>, b: set<T>)
    requires a <= b
    ensures |a| <= |b|
  {
    if a != {} {
      var x :| x in a;
      SubsetSize(a - {x}, b - {x});
    }
  }

  lemma UnionSize<T>(a: set<T>, b: set<T>)
    ensures |a + b| <= |a| + |b|
  {
    assert |a + b| == |a| + |b| - |a * b|;
  }

  lemma ChangesCompose(a: Files, b: Files, c: Files)
    ensures Changed(a, c) <= Changed(a, b) + Changed(b, c)
    ensures NewIn(a, c) <= NewIn(a, b) + NewIn(b, c)
    ensures |Changed(a, c)| <= |Changed(a, b)| + |Changed(b, c)|
    ensures |NewIn(a, c)| <= |NewIn(a, b)| + |NewIn(b, c)|
  {
    SubsetSize(Changed(a, c), Changed(a, b) + Changed(b, c));
    SubsetSize(NewIn(a, c), NewIn(a, b) + NewIn(b, c));
    UnionSize(Changed(a, b), Changed(b, c));
    UnionSize(NewIn(a, b), NewIn(b, c));
  }

  /** Each task's own change meets its contract. */
  ghost predicate TasksMeet(tasks: seq<TaskBrief>, trees: seq<Files>, rules: Rules) {
    && |trees| == |tasks| + 1
    && forall i | 0 <= i < |tasks| :: Meets(tasks[i], trees[i], trees[i + 1], rules)
  }

  /** Planned tasks name their paths. */
  predicate Scoped(tasks: seq<TaskBrief>) {
    forall i | 0 <= i < |tasks| :: tasks[i].allowedPaths != []
  }

  lemma MatchesMore(p: string, few: seq<string>, many: seq<string>, rules: Rules)
    requires Matches(p, few, rules) && forall x | x in few :: x in many
    ensures Matches(p, many, rules)
  {
    var i :| 0 <= i < |few| && (rules.glob(p, few[i]) || Stem(few[i]) <= p);
    assert few[i] in few;
    var j :| 0 <= j < |many| && many[j] == few[i];
  }

  lemma ScopeInAggregate(all: TaskBrief, tasks: seq<TaskBrief>, i: nat, p: string, rules: Rules)
    requires IsAggregate(all, tasks) && i < |tasks| && tasks[i].allowedPaths != [] && InScope(tasks[i], p, rules)
    ensures InScope(all, p, rules)
  {
    hide Matches;
    assert tasks[i] in tasks;
    MatchesMore(p, tasks[i].allowedPaths, all.allowedPaths, rules);
  }

  /** A path is allowed by one of the tasks. */
  predicate AllowedBySome(tasks: seq<TaskBrief>, p: string, rules: Rules) {
    exists i | 0 <= i < |tasks| :: InScope(tasks[i], p, rules)
  }

  lemma {:induction false} CumulativeChange(tasks: seq<TaskBrief>, trees: seq<Files>, rules: Rules)
    requires TasksMeet(tasks, trees, rules)
    ensures |Changed(trees[0], trees[|tasks|])| <= SumChanged(tasks)
    ensures |NewIn(trees[0], trees[|tasks|])| <= SumNew(tasks)
    ensures forall p | p in Changed(trees[0], trees[|tasks|]) :: AllowedBySome(tasks, p, rules)
  {
    hide Changed, NewIn, InScope;
    if tasks != [] {
      var n := |tasks| - 1;
      CumulativeChange(tasks[..n], trees[..n + 1], rules);
      ChangesCompose(trees[0], trees[n], trees[n + 1]);
      assert Meets(tasks[n], trees[n], trees[n + 1], rules);
      forall p | p in Changed(trees[0], trees[n + 1]) ensures AllowedBySome(tasks, p, rules) {
        if p in Changed(trees[0], trees[n]) {
          var i :| 0 <= i < n && InScope(tasks[..n][i], p, rules);
          assert tasks[i] == tasks[..n][i];
        } else {
          assert InScope(tasks[n], p, rules);
        }
      }
    } else {
      NothingChanged(trees[0]);
    }
  }

  lemma NothingChanged(a: Files)
    ensures Changed(a, a) == {} && NewIn(a, a) == {}
  {
  }

  /** Scope and file budgets compose: if every task's own change meets its contract, the change from the first
      baseline to the last tree meets the aggregate contract, however many tasks there are. */
  lemma ScopeComposes(all: TaskBrief, tasks: seq<TaskBrief>, trees: seq<Files>, rules: Rules)
    requires IsAggregate(all, tasks) && TasksMeet(tasks, trees, rules) && Scoped(tasks)
    ensures Meets(all, trees[0], trees[|tasks|], rules)
  {
    hide InScope, IsAggregate;
    CumulativeChange(tasks, trees, rules);
    SumsOf(all, tasks);
    forall p | p in Changed(trees[0], trees[|tasks|]) ensures InScope(all, p, rules) {
      var i :| 0 <= i < |tasks| && InScope(tasks[i], p, rules);
      ScopeInAggregate(all, tasks, i, p, rules);
    }
  }

  lemma SumsOf(all: TaskBrief, tasks: seq<TaskBrief>)
    requires IsAggregate(all, tasks)
    ensures all.changeBudget.maxChangedFiles == SumChanged(tasks) && all.changeBudget.maxNewFiles == SumNew(tasks)
    ensures all.permittedNewArtifacts == []
  {
  }

  // ---------------------------------------------------------------- the tasks' guards and the aggregate's

  /** One passing guard: the brief it judged by, which a replan may have exchanged, and what it judged. */
  datatype Inspection = Inspection(task: TaskBrief, listing: Listing, index: set<string>, addedLines: nat, suspicious: seq<string>)

  /** Every task's guard passed on its own step from tree to tree. */
  ghost predicate GuardsPass(gs: seq<Inspection>, trees: seq<Files>, rules: Rules) {
    && |trees| == |gs| + 1
    && forall i | 0 <= i < |gs| ::
         && Reports(gs[i].listing, trees[i], trees[i + 1], gs[i].index)
         && Passes(gs[i], rules)
  }

  predicate Passes(g: Inspection, rules: Rules) {
    Clean(g.task, EntriesOf(g.listing), g.addedLines, g.suspicious, rules)
  }

  /** A brief that asks for no more paths or files than the planned one. Every planned task is narrow in itself. */
  predicate Narrow(brief: TaskBrief, planned: TaskBrief) {
    && brief.allowedPaths != [] && (forall x | x in brief.allowedPaths :: x in planned.allowedPaths)
    && brief.changeBudget.maxChangedFiles <= planned.changeBudget.maxChangedFiles
    && brief.changeBudget.maxNewFiles <= planned.changeBudget.maxNewFiles
  }

  ghost predicate AllNarrow(gs: seq<Inspection>, tasks: seq<TaskBrief>) {
    |gs| == |tasks| && forall i | 0 <= i < |gs| :: Narrow(gs[i].task, tasks[i])
  }

  /** Some task gave up this name in a renaming, which its guard did not see. */
  ghost predicate Moved(gs: seq<Inspection>, p: string) {
    exists i | 0 <= i < |gs| :: MovedFrom(gs[i].listing.tracked, p)
  }

  lemma NarrowScope(all: TaskBrief, gs: seq<Inspection>, tasks: seq<TaskBrief>, i: nat, p: string, rules: Rules)
    requires IsAggregate(all, tasks) && AllNarrow(gs, tasks) && i < |gs| && InScope(gs[i].task, p, rules)
    ensures InScope(all, p, rules)
  {
    hide Matches, IsAggregate;
    assert Narrow(gs[i].task, tasks[i]);
    assert gs[i].task.allowedPaths[0] in tasks[i].allowedPaths;
    MatchesMore(p, gs[i].task.allowedPaths, tasks[i].allowedPaths, rules);
    ScopeInAggregate(all, tasks, i, p, rules);
  }

  lemma GuardsBefore(gs: seq<Inspection>, trees: seq<Files>, rules: Rules)
    requires GuardsPass(gs, trees, rules) && gs != []
    ensures GuardsPass(gs[..|gs| - 1], trees[..|gs|], rules)
  {
    hide Reports, Passes;
    var n := |gs| - 1;
    forall i | 0 <= i < n
      ensures Reports(gs[..n][i].listing, trees[..n + 1][i], trees[..n + 1][i + 1], gs[..n][i].index)
      ensures Passes(gs[..n][i], rules)
    {
      assert gs[..n][i] == gs[i];
    }
  }

  lemma ListedIsClean(g: Inspection, p: string, rules: Rules)
    requires Passes(g, rules) && Listed(EntriesOf(g.listing), p)
    ensures InScope(g.task, p, rules)
  {
    hide InScope, Permitted, Protected;
    var entries := EntriesOf(g.listing);
    var i :| 0 <= i < |entries| && entries[i].path == p;
    assert EntryClean(g.task, entries[i], rules);
  }

  /** A file that is there at the end and is not as it was at the beginning was listed by some task's guard. */
  lemma {:induction false} ThereIsListed(gs: seq<Inspection>, trees: seq<Files>, rules: Rules, p: string)
    requires GuardsPass(gs, trees, rules)
    requires p in trees[|gs|] && (p !in trees[0] || trees[0][p] != trees[|gs|][p])
    ensures exists i: nat | i < |gs| :: InScope(gs[i].task, p, rules)
  {
    hide InScope, Passes, Reports;
    var n := |gs| - 1;
    GuardsBefore(gs, trees, rules);
    if p in trees[n] && trees[n][p] == trees[n + 1][p] {
      ThereIsListed(gs[..n], trees[..n + 1], rules, p);
      var i: nat :| i < n && InScope(gs[..n][i].task, p, rules);
      assert gs[..n][i] == gs[i];
    } else {
      var g := gs[n];
      assert Reports(g.listing, trees[n], trees[n + 1], g.index);
      assert p in Changed(trees[n], trees[n + 1]);
      ChangedIsListed(g.listing, trees[n], trees[n + 1], g.index, p);
      ListedIsClean(g, p, rules);
    }
  }

  lemma KeptIsListed(entries: seq<Entry>, a: Files, b: Files, p: string)
    requires Describes(entries, a, b) && p in Changed(a, b) && p in b
    ensures Listed(entries, p)
  {
    if MovedFrom(entries, p) { MovedIsGone(entries, a, b, p); }
  }

  lemma GoneIsDeleted(g: Inspection, a: Files, b: Files, p: string, rules: Rules)
    requires Reports(g.listing, a, b, g.index) && p in a && p !in b && !MovedFrom(g.listing.tracked, p)
    requires Passes(g, rules)
    ensures InScope(g.task, p, rules) && !rules.isTest(p)
  {
    hide InScope, Permitted, Protected;
    var tracked, bi := g.listing.tracked, Indexed(b, g.index);
    assert p in Changed(a, bi);
    var i :| 0 <= i < |tracked| && tracked[i].path == p;
    assert EntryTrue(tracked[i], a, bi);
    assert EntriesOf(g.listing)[i] == tracked[i] && EntryClean(g.task, EntriesOf(g.listing)[i], rules);
  }

  /** A file that is gone at the end was deleted under some task's guard, or moved away. */
  lemma {:induction false} GoneIsListed(gs: seq<Inspection>, trees: seq<Files>, rules: Rules, p: string)
    requires GuardsPass(gs, trees, rules) && p in trees[0] && p !in trees[|gs|] && !Moved(gs, p)
    ensures exists i: nat | i < |gs| :: InScope(gs[i].task, p, rules) && !rules.isTest(p)
  {
    hide InScope, Passes, Reports, MovedFrom;
    var n := |gs| - 1;
    GuardsBefore(gs, trees, rules);
    if p in trees[n] {
      assert Reports(gs[n].listing, trees[n], trees[n + 1], gs[n].index);
      GoneIsDeleted(gs[n], trees[n], trees[n + 1], p, rules);
    } else {
      forall i | 0 <= i < n ensures !MovedFrom(gs[..n][i].listing.tracked, p) {
        assert gs[..n][i] == gs[i];
      }
      GoneIsListed(gs[..n], trees[..n + 1], rules, p);
      var i: nat :| i < n && InScope(gs[..n][i].task, p, rules) && !rules.isTest(p);
      assert gs[..n][i] == gs[i];
    }
  }

  /** What the aggregate guard still asks of a change each of whose steps was guarded. */
  ghost predicate AggregateAsks(all: TaskBrief, tasks: seq<TaskBrief>, entries: seq<Entry>, addedLines: nat,
                                suspicious: seq<string>, rules: Rules)
  {
    && (forall i | 0 <= i < |entries| ::
          entries[i].status != Added && !rules.isDependency(entries[i].path)
          && forall t | t in tasks :: !Protected(t, entries[i].path, rules))
    && suspicious == []
    && (all.changeBudget.maxAddedLines.Some? ==> addedLines <= all.changeBudget.maxAddedLines.value)
  }

  /** What the tasks' guards did not see: deletions of names that were moved away, and pairs of names counted once. */
  ghost predicate UnseenFits(all: TaskBrief, gs: seq<Inspection>, entries: seq<Entry>, rules: Rules) {
    && |entries| <= all.changeBudget.maxChangedFiles
    && forall i | 0 <= i < |entries| && entries[i].status == Deleted && Moved(gs, entries[i].path) ::
         InScope(all, entries[i].path, rules) && !rules.isTest(entries[i].path)
  }

  lemma ProtectedByAggregate(all: TaskBrief, tasks: seq<TaskBrief>, p: string, rules: Rules)
    requires IsAggregate(all, tasks)
    ensures Protected(all, p, rules) <==> exists t | t in tasks :: Protected(t, p, rules)
  {
    if Protected(all, p, rules) {
      var i :| 0 <= i < |all.protectedPaths| && (rules.glob(p, all.protectedPaths[i]) || Stem(all.protectedPaths[i]) <= p);
      assert all.protectedPaths[i] in all.protectedPaths;
      var t :| t in tasks && all.protectedPaths[i] in t.protectedPaths;
      var j :| 0 <= j < |t.protectedPaths| && t.protectedPaths[j] == all.protectedPaths[i];
    }
    if t :| t in tasks && Protected(t, p, rules) {
      MatchesMore(p, t.protectedPaths, all.protectedPaths, rules);
    }
  }

  lemma EntryInScope(all: TaskBrief, gs: seq<Inspection>, tasks: seq<TaskBrief>, trees: seq<Files>, e: Entry, rules: Rules)
    requires IsAggregate(all, tasks) && AllNarrow(gs, tasks) && GuardsPass(gs, trees, rules)
    requires EntryTrue(e, trees[0], trees[|gs|]) && !(e.status == Deleted && Moved(gs, e.path))
    ensures InScope(all, e.path, rules) && !(e.status == Deleted && rules.isTest(e.path))
  {
    hide InScope, IsAggregate, GuardsPass, AllNarrow, Moved;
    SizesAgree(gs, tasks, trees, rules);
    if e.status == Deleted {
      GoneIsListed(gs, trees, rules, e.path);
    } else {
      ThereIsListed(gs, trees, rules, e.path);
    }
    var i: nat :| i < |gs| && InScope(gs[i].task, e.path, rules);
    NarrowScope(all, gs, tasks, i, e.path, rules);
  }

  lemma SizesAgree(gs: seq<Inspection>, tasks: seq<TaskBrief>, trees: seq<Files>, rules: Rules)
    requires AllNarrow(gs, tasks) && GuardsPass(gs, trees, rules)
    ensures |gs| == |tasks| && |trees| == |gs| + 1
  {
  }

  lemma {:induction false} NoNewCount(entries: seq<Entry>)
    requires forall i | 0 <= i < |entries| :: entries[i].status != Added
    ensures NewCount(entries) == 0
  {
    if entries != [] { NoNewCount(entries[..|entries| - 1]); }
  }

  lemma AggregateOfTracked(all: TaskBrief, gs: seq<Inspection>, tasks: seq<TaskBrief>, trees: seq<Files>,
                           entries: seq<Entry>, addedLines: nat, suspicious: seq<string>, rules: Rules)
    requires IsAggregate(all, tasks) && AllNarrow(gs, tasks) && GuardsPass(gs, trees, rules)
    requires Describes(entries, trees[0], trees[|gs|])
    ensures Clean(all, entries, addedLines, suspicious, rules) <==>
              AggregateAsks(all, tasks, entries, addedLines, suspicious, rules) && UnseenFits(all, gs, entries, rules)
  {
    hide InScope, IsAggregate, GuardsPass, AllNarrow, Moved, Protected, Permitted;
    SumsOf(all, tasks);
    SizesAgree(gs, tasks, trees, rules);
    forall p ensures !Permitted(all, p, rules) { NothingPermitted(all, p, rules); }
    forall i | 0 <= i < |entries|
      ensures EntryClean(all, entries[i], rules) <==>
                && entries[i].status != Added && !rules.isDependency(entries[i].path)
                && (forall t | t in tasks :: !Protected(t, entries[i].path, rules))
                && (entries[i].status == Deleted && Moved(gs, entries[i].path) ==>
                      InScope(all, entries[i].path, rules) && !rules.isTest(entries[i].path))
    {
      ProtectedByAggregate(all, tasks, entries[i].path, rules);
      assert EntryTrue(entries[i], trees[0], trees[|gs|]);
      if !(entries[i].status == Deleted && Moved(gs, entries[i].path)) {
        EntryInScope(all, gs, tasks, trees, entries[i], rules);
      }
    }
    if forall i | 0 <= i < |entries| :: entries[i].status != Added { NoNewCount(entries); }
  }

  predicate NoneAdded(entries: seq<Entry>) {
    forall i | 0 <= i < |entries| :: entries[i].status != Added
  }

  lemma NoUntracked(l: Listing, a: Files, b: Files, index: set<string>)
    requires Reports(l, a, b, index) && NoneAdded(EntriesOf(l))
    ensures EntriesOf(l) == l.tracked && Describes(l.tracked, a, b)
  {
    if l.untracked != [] { UntrackedIsAdded(l); }
    assert l.untracked == [];
    assert forall p :: p !in l.untracked;
    assert Indexed(b, index) == b;
  }

  lemma UntrackedIsAdded(l: Listing)
    requires l.untracked != []
    ensures !NoneAdded(EntriesOf(l))
  {
    assert EntriesOf(l)[|l.tracked| + 0].status == Added;
  }

  /** When every task's guard passed on its own step, the aggregate guard passes on the whole change exactly when no
      file is added, no dependency file is touched, nothing any task protects is touched, the cumulative patch and
      its line count are fine, and what renamings hid fits too. The tasks' permissions are not carried over. */
  lemma AggregatePassesIff(all: TaskBrief, gs: seq<Inspection>, tasks: seq<TaskBrief>, trees: seq<Files>, l: Listing,
                           index: set<string>, addedLines: nat, suspicious: seq<string>, rules: Rules)
    requires IsAggregate(all, tasks) && AllNarrow(gs, tasks) && GuardsPass(gs, trees, rules)
    requires Reports(l, trees[0], trees[|gs|], index)
    ensures Clean(all, EntriesOf(l), addedLines, suspicious, rules) <==>
              && AggregateAsks(all, tasks, EntriesOf(l), addedLines, suspicious, rules)
              && UnseenFits(all, gs, EntriesOf(l), rules)
  {
    if NoneAdded(EntriesOf(l)) {
      NoUntracked(l, trees[0], trees[|gs|], index);
      hide Clean, AggregateAsks, UnseenFits, IsAggregate, AllNarrow, GuardsPass, Describes, Reports;
      AggregateOfTracked(all, gs, tasks, trees, l.tracked, addedLines, suspicious, rules);
    } else {
      AddedFails(all, tasks, EntriesOf(l), addedLines, suspicious, rules);
    }
  }

  lemma AddedFails(all: TaskBrief, tasks: seq<TaskBrief>, entries: seq<Entry>, addedLines: nat, suspicious: seq<string>,
                   rules: Rules)
    requires IsAggregate(all, tasks) && !NoneAdded(entries)
    ensures !Clean(all, entries, addedLines, suspicious, rules)
    ensures !AggregateAsks(all, tasks, entries, addedLines, suspicious, rules)
  {
    hide Protected, InScope;
    SumsOf(all, tasks);
    var i :| 0 <= i < |entries| && entries[i].status == Added;
    NothingPermitted(all, entries[i].path, rules);
    assert !EntryClean(all, entries[i], rules);
  }

  lemma NothingPermitted(all: TaskBrief, p: string, rules: Rules)
    requires all.permittedNewArtifacts == []
    ensures !Permitted(all, p, rules)
  {
  }

  ghost predicate NoTaskRenames(gs: seq<Inspection>) {
    forall i | 0 <= i < |gs| :: RenameFree(gs[i].listing.tracked)
  }

  lemma {:induction false} StepsMeet(gs: seq<Inspection>, tasks: seq<TaskBrief>, trees: seq<Files>, rules: Rules, i: nat)
    requires GuardsPass(gs, trees, rules) && AllNarrow(gs, tasks) && NoTaskRenames(gs) && i < |gs|
    ensures |Changed(trees[i], trees[i + 1])| <= tasks[i].changeBudget.maxChangedFiles
    ensures |NewIn(trees[i], trees[i + 1])| <= tasks[i].changeBudget.maxNewFiles
    ensures forall p | p in Changed(trees[i], trees[i + 1]) :: InScope(tasks[i], p, rules)
  {
    hide Reports, Changed, NewIn, Clean, Matches, RenameCount, NewCount, EntriesOf, Stale, Untouched;
    var g := gs[i];
    assert Reports(g.listing, trees[i], trees[i + 1], g.index) && Passes(g, rules);
    CleanMeets(g.task, g.listing, g.index, g.addedLines, g.suspicious, trees[i], trees[i + 1], rules);
    NoRenamings(g.listing.tracked);
    CleanCounts(g, rules);
    assert Narrow(g.task, tasks[i]);
    forall p | p in Changed(trees[i], trees[i + 1]) ensures InScope(tasks[i], p, rules) {
      assert g.task.allowedPaths[0] in tasks[i].allowedPaths;
      MatchesMore(p, g.task.allowedPaths, tasks[i].allowedPaths, rules);
    }
  }

  lemma CleanCounts(g: Inspection, rules: Rules)
    requires Passes(g, rules)
    ensures |EntriesOf(g.listing)| <= g.task.changeBudget.maxChangedFiles
    ensures NewCount(EntriesOf(g.listing)) <= g.task.changeBudget.maxNewFiles
  {
  }

  /** From guards to trees: passing guards without renamings, by briefs no wider than planned, make the cumulative
      change meet the aggregate contract. */
  lemma GuardsCompose(all: TaskBrief, gs: seq<Inspection>, tasks: seq<TaskBrief>, trees: seq<Files>, rules: Rules)
    requires IsAggregate(all, tasks) && AllNarrow(gs, tasks) && GuardsPass(gs, trees, rules) && NoTaskRenames(gs)
    ensures Meets(all, trees[0], trees[|gs|], rules)
  {
    hide IsAggregate, GuardsPass, NoTaskRenames, Changed, NewIn, InScope;
    SizesAgree(gs, tasks, trees, rules);
    forall i | 0 <= i < |tasks| ensures Meets(tasks[i], trees[i], trees[i + 1], rules) {
      StepsMeet(gs, tasks, trees, rules, i);
    }
    forall i | 0 <= i < |tasks| ensures tasks[i].allowedPaths != [] {
      assert Narrow(gs[i].task, tasks[i]);
      assert gs[i].task.allowedPaths[0] in tasks[i].allowedPaths;
    }
    ScopeComposes(all, tasks, trees, rules);
  }

  /** If no task renamed anything, nothing was hidden: only what the aggregate itself asks is left. */
  lemma AggregatePassesIffUnrenamed(all: TaskBrief, gs: seq<Inspection>, tasks: seq<TaskBrief>, trees: seq<Files>, l: Listing,
                                    index: set<string>, addedLines: nat, suspicious: seq<string>, rules: Rules)
    requires IsAggregate(all, tasks) && AllNarrow(gs, tasks) && GuardsPass(gs, trees, rules) && NoTaskRenames(gs)
    requires Reports(l, trees[0], trees[|gs|], index)
    ensures Clean(all, EntriesOf(l), addedLines, suspicious, rules) <==>
              AggregateAsks(all, tasks, EntriesOf(l), addedLines, suspicious, rules)
  {
    AggregatePassesIff(all, gs, tasks, trees, l, index, addedLines, suspicious, rules);
    GuardsCompose(all, gs, tasks, trees, rules);
    SizesAgree(gs, tasks, trees, rules);
    forall p ensures !Moved(gs, p) {
    }
    if AggregateAsks(all, tasks, EntriesOf(l), addedLines, suspicious, rules) {
      NoUntracked(l, trees[0], trees[|gs|], index);
      hide InScope, IsAggregate, GuardsPass, AllNarrow, AggregateAsks, Clean, RenameCount, Reports, Moved;
      ChangedAreListed(l.tracked, trees[0], trees[|gs|]);
      DistinctCount(l.tracked);
      SubsetSize(PathsOf(l.tracked), Changed(trees[0], trees[|gs|]));
    }
  }

  // ---------------------------------------------------------------- files that no task touched

  /** What a guard asks of a file that the index does not know, though nothing changed it. */
  predicate StaleClean(task: TaskBrief, p: string, rules: Rules) {
    EntryClean(task, Entry(Deleted, p), rules) && EntryClean(task, Entry(Added, p), rules)
  }

  lemma {:induction false} AllDeleted(tracked: seq<Entry>)
    requires forall i | 0 <= i < |tracked| :: tracked[i].status == Deleted
    ensures NewCount(tracked) == 0 && RenameCount(tracked) == 0
  {
    if tracked != [] { AllDeleted(tracked[..|tracked| - 1]); }
  }

  lemma UnchangedListing(l: Listing, a: Files, index: set<string>)
    requires Reports(l, a, a, index)
    ensures forall i | 0 <= i < |l.tracked| :: l.tracked[i].status == Deleted
    ensures forall p :: Listed(l.tracked, p) <==> p in Stale(a, a, index)
    ensures forall p :: p in l.untracked <==> p in Stale(a, a, index)
    ensures |l.tracked| == |l.untracked| == |Stale(a, a, index)|
  {
    var bi := Indexed(a, index);
    forall i | 0 <= i < |l.tracked| ensures l.tracked[i].status == Deleted {
      assert EntryTrue(l.tracked[i], a, bi);
    }
    forall p ensures Listed(l.tracked, p) <==> p in Stale(a, a, index) {
      if Listed(l.tracked, p) {
        var i :| 0 <= i < |l.tracked| && l.tracked[i].path == p;
        assert EntryTrue(l.tracked[i], a, bi);
      }
      if p in Stale(a, a, index) { assert p in Changed(a, bi); }
    }
    DistinctCount(l.tracked);
    assert PathsOf(l.tracked) == Stale(a, a, index);
    DistinctSize(l.untracked);
    assert (set p | p in l.untracked) == Stale(a, a, index);
  }

  /** When nothing changed since its baseline, a guard passes exactly when every file that the index does not know could
      have been deleted and added again, and the budgets have room for that. A file that an earlier task left out of the
      index therefore fails every later task that may not add it, and every later task at all if it is a test. */
  lemma UntouchedFilesIff(task: TaskBrief, l: Listing, index: set<string>, addedLines: nat, suspicious: seq<string>, a: Files,
                          rules: Rules)
    requires Reports(l, a, a, index)
    ensures Clean(task, EntriesOf(l), addedLines, suspicious, rules) <==>
              && AllStaleClean(task, Stale(a, a, index), rules)
              && suspicious == [] && 2 * |Stale(a, a, index)| <= task.changeBudget.maxChangedFiles
              && (task.changeBudget.maxAddedLines.Some? ==> addedLines <= task.changeBudget.maxAddedLines.value)
              && |Stale(a, a, index)| <= task.changeBudget.maxNewFiles
  {
    UnchangedListing(l, a, index);
    DeletedCounts(l);
    StaleIfClean(task, l, Stale(a, a, index), rules);
    CleanIfStale(task, l, Stale(a, a, index), rules);
    hide Reports, NewCount, Stale, StaleClean, EntryClean, EntriesOf, AllStaleClean, AllClean;
    CleanParts(task, EntriesOf(l), addedLines, suspicious, rules);
  }

  lemma DeletedCounts(l: Listing)
    requires forall i | 0 <= i < |l.tracked| :: l.tracked[i].status == Deleted
    ensures NewCount(EntriesOf(l)) == |l.untracked|
  {
    AllDeleted(l.tracked);
    AddedCounts(l.untracked);
    CountsAppend(l.tracked, AddedEntries(l.untracked));
  }

  predicate AllClean(task: TaskBrief, entries: seq<Entry>, rules: Rules) {
    forall i | 0 <= i < |entries| :: EntryClean(task, entries[i], rules)
  }

  predicate AllStaleClean(task: TaskBrief, stale: set<string>, rules: Rules) {
    forall p | p in stale :: StaleClean(task, p, rules)
  }

  lemma CleanParts(task: TaskBrief, entries: seq<Entry>, addedLines: nat, suspicious: seq<string>, rules: Rules)
    ensures Clean(task, entries, addedLines, suspicious, rules) <==>
              && AllClean(task, entries, rules) && suspicious == [] && |entries| <= task.changeBudget.maxChangedFiles
              && (task.changeBudget.maxAddedLines.Some? ==> addedLines <= task.changeBudget.maxAddedLines.value)
              && NewCount(entries) <= task.changeBudget.maxNewFiles
  {
    hide EntryClean, NewCount;
  }

  lemma StaleIfClean(task: TaskBrief, l: Listing, stale: set<string>, rules: Rules)
    requires forall i | 0 <= i < |l.tracked| :: l.tracked[i].status == Deleted
    requires forall p :: Listed(l.tracked, p) <==> p in stale
    requires forall p :: p in l.untracked <==> p in stale
    ensures AllClean(task, EntriesOf(l), rules) ==> AllStaleClean(task, stale, rules)
  {
    hide EntryClean;
    var entries := EntriesOf(l);
    hide EntriesOf;
    if AllClean(task, entries, rules) {
      forall p | p in stale ensures StaleClean(task, p, rules) {
        assert Listed(l.tracked, p) && p in l.untracked;
        var i :| 0 <= i < |l.tracked| && l.tracked[i].path == p;
        var j :| 0 <= j < |l.untracked| && l.untracked[j] == p;
        assert entries[i] == Entry(Deleted, p) && entries[|l.tracked| + j] == Entry(Added, p);
      }
    }
  }

  lemma CleanIfStale(task: TaskBrief, l: Listing, stale: set<string>, rules: Rules)
    requires forall i | 0 <= i < |l.tracked| :: l.tracked[i].status == Deleted
    requires forall p :: Listed(l.tracked, p) <==> p in stale
    requires forall p :: p in l.untracked <==> p in stale
    ensures AllStaleClean(task, stale, rules) ==> AllClean(task, EntriesOf(l), rules)
  {
    hide EntryClean;
    if AllStaleClean(task, stale, rules) {
      forall i | 0 <= i < |l.tracked| ensures EntryClean(task, l.tracked[i], rules) {
        assert Listed(l.tracked, l.tracked[i].path);
        assert StaleClean(task, l.tracked[i].path, rules);
        assert l.tracked[i] == Entry(Deleted, l.tracked[i].path);
      }
      forall i | 0 <= i < |l.untracked| ensures EntryClean(task, Entry(Added, l.untracked[i]), rules) {
        assert l.untracked[i] in l.untracked;
        assert StaleClean(task, l.untracked[i], rules);
      }
      CleanBoth(task, l, rules);
    }
  }

  lemma CleanBoth(task: TaskBrief, l: Listing, rules: Rules)
    requires forall i | 0 <= i < |l.tracked| :: EntryClean(task, l.tracked[i], rules)
    requires forall i | 0 <= i < |l.untracked| :: EntryClean(task, Entry(Added, l.untracked[i]), rules)
    ensures AllClean(task, EntriesOf(l), rules)
  {
    hide EntryClean;
    forall i | 0 <= i < |EntriesOf(l)| ensures EntryClean(task, EntryAt(l, i), rules) {
    }
  }

  // ---------------------------------------------------------------- where the two guards part

  const ONE: string := "a"
  const TWO: string := "b"

  function Sample(allowed: seq<string>, permitted: seq<string>, files: nat, added: nat): TaskBrief {
    TaskBrief("T", allowed, [], [], ChangeBudget(files, None, added, false), permitted, 1, 0, [], None)
  }

  const EXACT: Rules := Rules((path: string, pattern: string) => path == pattern, _ => false, _ => false)

  lemma StemPlain()
    ensures Stem(ONE) == ONE && Stem(TWO) == TWO && ONE != TWO && !(ONE <= TWO) && !(TWO <= ONE)
  {
    assert ONE[0] != TWO[0];
  }

  /** A task that adds a file it was permitted to add passes its own guard, and the aggregate's guard fails. */
  lemma PermittedFileFails(all: TaskBrief)
    requires IsAggregate(all, [Sample([ONE], [ONE], 1, 1)])
    ensures GuardsPass([AddsOne()], [map[], map[ONE := "x"]], EXACT)
    ensures Reports(UNTRACKED_ONE, map[], map[ONE := "x"], {}) && !Clean(all, EntriesOf(UNTRACKED_ONE), 1, [], EXACT)
  {
    UntrackedReports();
    UntrackedStep(EXACT);
    SumsOf(all, [Sample([ONE], [ONE], 1, 1)]);
    NothingPermitted(all, ONE, EXACT);
    assert !EntryClean(all, EntriesOf(UNTRACKED_ONE)[0], EXACT);
  }

  const UNTRACKED_ONE: Listing := Listing([], [ONE])

  function AddsOne(): Inspection {
    Inspection(Sample([ONE], [ONE], 1, 1), UNTRACKED_ONE, {}, 1, [])
  }

  lemma UntrackedReports()
    ensures Reports(UNTRACKED_ONE, map[], map[ONE := "x"], {})
  {
    var a: Files, b: Files := map[], map[ONE := "x"];
    assert Indexed(b, {}) == a && Changed(a, a) == {};
    assert UNTRACKED_ONE.untracked == [ONE];
  }

  lemma UntrackedStep(rules: Rules)
    requires rules.glob == EXACT.glob && rules.isDependency == EXACT.isDependency
    ensures Passes(AddsOne(), rules) && EntriesOf(UNTRACKED_ONE) == [Entry(Added, ONE)]
  {
    var task, entries := Sample([ONE], [ONE], 1, 1), EntriesOf(UNTRACKED_ONE);
    assert entries == [Entry(Added, ONE)];
    hide EntriesOf;
    assert rules.glob(ONE, [ONE][0]);
    assert Matches(ONE, [ONE], rules);
    assert EntryClean(task, Entry(Added, ONE), rules);
    assert entries[..0] == [] && NewCount(entries) == 1;
  }

  /** A new test file that a task was permitted to add, and did not put into the index, fails every later task's guard on
      an unchanged tree, whatever that task's contract. */
  lemma EarlierTestFails(later: TaskBrief, l: Listing, addedLines: nat, suspicious: seq<string>, rules: Rules)
    requires rules == EXACT.(isTest := p => p == ONE) && Reports(l, map[ONE := "x"], map[ONE := "x"], {})
    ensures Reports(UNTRACKED_ONE, map[], map[ONE := "x"], {}) && Passes(AddsOne(), rules)
    ensures !Clean(later, EntriesOf(l), addedLines, suspicious, rules)
  {
    UntrackedReports();
    hide Reports, Passes, Clean, EntriesOf, Stale, AllStaleClean;
    var a: Files := map[ONE := "x"];
    UntrackedStep(rules);
    UntouchedFilesIff(later, l, {}, addedLines, suspicious, a, rules);
    TestsNeverStaleClean(later, Stale(a, a, {}), ONE, rules);
  }

  lemma TestsNeverStaleClean(task: TaskBrief, stale: set<string>, p: string, rules: Rules)
    requires p in stale && rules.isTest(p)
    ensures !AllStaleClean(task, stale, rules)
  {
    hide InScope, Permitted, Protected;
    assert !EntryClean(task, Entry(Deleted, p), rules);
    assert !StaleClean(task, p, rules);
  }

  lemma OnlyPattern(all: TaskBrief, tasks: seq<TaskBrief>)
    requires IsAggregate(all, tasks) && tasks != [] && forall t | t in tasks :: t.allowedPaths == [TWO]
    ensures InScope(all, TWO, EXACT) && !InScope(all, ONE, EXACT)
  {
    StemPlain();
    assert tasks[0] in tasks && TWO in tasks[0].allowedPaths;
    assert TWO in all.allowedPaths;
    var k :| 0 <= k < |all.allowedPaths| && all.allowedPaths[k] == TWO;
    assert EXACT.glob(TWO, all.allowedPaths[k]);
    forall i | 0 <= i < |all.allowedPaths| ensures all.allowedPaths[i] == TWO {
      assert all.allowedPaths[i] in all.allowedPaths;
    }
  }

  lemma RenamedStep()
    ensures Describes([Entry(Renamed(ONE), TWO)], map[ONE := "x"], map[TWO := "x"])
    ensures Clean(Sample([TWO], [], 1, 0), [Entry(Renamed(ONE), TWO)], 0, [], EXACT)
  {
    StemPlain();
    var task, entries := Sample([TWO], [], 1, 0), [Entry(Renamed(ONE), TWO)];
    var a: Files, b: Files := map[ONE := "x"], map[TWO := "x"];
    assert entries[0].path == TWO && entries[0].status == Renamed(ONE);
    assert forall p | p in Changed(a, b) :: p == ONE || p == TWO;
    assert EXACT.glob(TWO, [TWO][0]);
    assert entries[..0] == [] && NewCount(entries) == 0;
    assert EntryClean(task, entries[0], EXACT);
  }

  lemma DeletedStep(name: string)
    ensures Describes([Entry(Deleted, name)], map[name := "x"], map[])
    ensures Clean(Sample([name], [], 1, 0), [Entry(Deleted, name)], 0, [], EXACT)
  {
    var task, entries := Sample([name], [], 1, 0), [Entry(Deleted, name)];
    var a: Files, b: Files := map[name := "x"], map[];
    assert entries[0].path == name;
    assert forall p | p in Changed(a, b) :: p == name;
    assert EXACT.glob(name, [name][0]);
    assert entries[..0] == [] && NewCount(entries) == 0;
    assert EntryClean(task, entries[0], EXACT);
  }

  /** A listing of tracked changes only. */
  function Tracked(e: Entry): Listing {
    Listing([e], [])
  }

  const BOTH: set<string> := {ONE, TWO}

  lemma TrackedReports(e: Entry, a: Files, b: Files)
    requires Describes([e], a, b) && b.Keys <= BOTH
    ensures Reports(Tracked(e), a, b, BOTH) && EntriesOf(Tracked(e)) == [e]
  {
    assert Indexed(b, BOTH) == b;
  }

  function GuardOfTwo(e: Entry): Inspection {
    Inspection(Sample([TWO], [], 1, 0), Tracked(e), BOTH, 0, [])
  }

  /** Renaming a file into a task's reach and deleting it there passes both tasks' guards, and the aggregate's guard
      finds a deletion outside every allowed path. */
  lemma RenamedThenDeletedFails(all: TaskBrief, addedLines: nat)
    requires IsAggregate(all, [Sample([TWO], [], 1, 0), Sample([TWO], [], 1, 0)])
    ensures GuardsPass([GuardOfTwo(Entry(Renamed(ONE), TWO)), GuardOfTwo(Entry(Deleted, TWO))],
                       [map[ONE := "x"], map[TWO := "x"], map[]], EXACT)
    ensures Reports(Tracked(Entry(Deleted, ONE)), map[ONE := "x"], map[], BOTH)
    ensures !Clean(all, EntriesOf(Tracked(Entry(Deleted, ONE))), addedLines, [], EXACT)
  {
    RenamedStep();
    DeletedStep(TWO);
    DeletedStep(ONE);
    TrackedReports(Entry(Renamed(ONE), TWO), map[ONE := "x"], map[TWO := "x"]);
    TrackedReports(Entry(Deleted, TWO), map[TWO := "x"], map[]);
    TrackedReports(Entry(Deleted, ONE), map[ONE := "x"], map[]);
    hide Describes, Clean, IsAggregate, InScope, Permitted, Protected, Reports, EntriesOf, Sample, Stem;
    OnlyPattern(all, [Sample([TWO], [], 1, 0), Sample([TWO], [], 1, 0)]);
    OutOfScopeFails(all, Entry(Deleted, ONE), addedLines);
  }

  lemma OutOfScopeFails(all: TaskBrief, e: Entry, addedLines: nat)
    requires !InScope(all, e.path, EXACT)
    ensures !Clean(all, [e], addedLines, [], EXACT)
  {
    assert !EntryClean(all, [e][0], EXACT);
  }

  /** A renaming is how a file can be new at the end and the aggregate's guard still pass. */
  lemma RenamedFilePasses(all: TaskBrief)
    requires IsAggregate(all, [Sample([TWO], [], 1, 0)])
    ensures Reports(Tracked(Entry(Renamed(ONE), TWO)), map[ONE := "x"], map[TWO := "x"], BOTH)
    ensures Clean(all, EntriesOf(Tracked(Entry(Renamed(ONE), TWO))), 0, [], EXACT)
    ensures NewIn(map[ONE := "x"], map[TWO := "x"]) == {TWO}
  {
    RenamedStep();
    TrackedReports(Entry(Renamed(ONE), TWO), map[ONE := "x"], map[TWO := "x"]);
    StemPlain();
    var tasks, entries := [Sample([TWO], [], 1, 0)], [Entry(Renamed(ONE), TWO)];
    OnlyPattern(all, tasks);
    assert tasks[..0] == [] && SumChanged(tasks) == 1 && SumNew(tasks) == 0;
    EmptyOrInhabited(all.protectedPaths);
    assert entries[..0] == [] && NewCount(entries) == 0;
    assert EntryClean(all, entries[0], EXACT);
  }

  lemma EmptyOrInhabited(xs: seq<string>)
    ensures xs == [] || exists x :: x in xs
  {
    if xs != [] { assert xs[0] in xs; }
  }
}
