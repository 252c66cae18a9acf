/** The verification plan: authority frozen before mutation, later linked to the planner's tasks. */
module VerificationPlan {
  import opened Common
  import opened TaskBrief
  import opened Text

  // ---------------------------------------------------------------- command digests

  /** SHA-256 of a command, idealised as collision free. */
  datatype Digest = DigestOf(parts: seq<string>) | EmptyDigest

  predicate IsPython(executable: string) {
    "python" <= Lower(BaseName(executable))
  }

  /** A Python executable is one whose name, after its directories, begins with "python" in letters of either case. */
  lemma PythonExactly(executable: string)
    ensures var name := BaseName(executable);
            IsPython(executable) <==>
              && |name| >= 6
              && (name[0] == 'p' || name[0] == 'P') && (name[1] == 'y' || name[1] == 'Y') && (name[2] == 't' || name[2] == 'T')
              && (name[3] == 'h' || name[3] == 'H') && (name[4] == 'o' || name[4] == 'O') && (name[5] == 'n' || name[5] == 'N')
  {
    var name, python := BaseName(executable), "python";
    assert python[0] == 'p' && python[1] == 'y' && python[2] == 't' && python[3] == 'h' && python[4] == 'o' && python[5] == 'n';
    if |name| >= 6 {
      assert python <= Lower(name) <==> forall i | 0 <= i < 6 :: Lower(name)[i] == python[i];
    }
  }

  datatype PlanError = EmptyCommand

  function NormalizeCommand(command: seq<string>): Result<seq<string>, PlanError> {
    if command == [] then Err(EmptyCommand)
    else if IsPython(command[0]) then Ok(["<python>"] + command[1..])
    else Ok(command)
  }

  /** The plan side's digest: an empty command is an error. */
  function PlanDigest(command: seq<string>): Result<Digest, PlanError> {
    match NormalizeCommand(command)
    case Err(e) => Err(e)
    case Ok(parts) => Ok(DigestOf(parts))
  }

  /** The evidence side's digest: an empty command has the empty digest. */
  function CommandDigest(command: seq<string>): Digest {
    if command == [] then EmptyDigest
    else if IsPython(command[0]) then DigestOf(command[0 := "<python>"])
    else DigestOf(command)
  }

  /** The two digest functions are one function on every command that has a digest. */
  lemma DigestsAgree(command: seq<string>)
    ensures PlanDigest(command).Ok? <==> command != []
    ensures command != [] ==> PlanDigest(command) == Ok(CommandDigest(command))
    ensures CommandDigest(command) == EmptyDigest <==> command == []
  {
    if command != [] {
      assert ["<python>"] + command[1..] == command[0 := "<python>"];
    }
  }

  /** Two commands share a digest exactly when they differ in nothing but which Python runs them
      (a command already spelt with the placeholder counts as running it). */
  lemma DigestForgetsOnlyThePython(a: seq<string>, b: seq<string>)
    requires a != [] && b != []
    ensures CommandDigest(a) == CommandDigest(b) <==>
              && a[1..] == b[1..]
              && var pa, pb := IsPython(a[0]) || a[0] == "<python>", IsPython(b[0]) || b[0] == "<python>";
                 (pa && pb) || a[0] == b[0]
  {
    var x, y := CommandDigest(a).parts, CommandDigest(b).parts;
    assert x[1..] == a[1..] && y[1..] == b[1..];
    assert x == [x[0]] + x[1..] && y == [y[0]] + y[1..];
  }

  // ---------------------------------------------------------------- data

  datatype MandatoryCheck = MandatoryCheck(
    checkId: nat,
    command: seq<string>,
    digest: Digest,
    criterionIds: seq<string>,
    mandatory: bool)

  datatype CandidateAuthority = DeterministicAuthority | ModelClaimAuthority

  datatype Candidate = Candidate(
    checkId: nat,
    taskId: string,
    command: seq<string>,
    digest: Digest,
    authority: CandidateAuthority,
    criterionIds: seq<string>)

  /** A frozen evaluator file and the fingerprint of its contents. */
  datatype EvaluatorInput = EvaluatorInput(path: string, fingerprint: string)

  datatype PlanStatus = Ready | InsufficientAuthority

  datatype PlanBody = PlanBody(
    criterionIds: seq<string>,
    mandatory: seq<MandatoryCheck>,
    candidates: seq<Candidate>,
    repositoryBaseline: Option<string>,
    evaluatorInputs: seq<EvaluatorInput>,
    status: PlanStatus)

  /** The hash of a plan covers everything but itself. */
  datatype PlanHash = PlanHashOf(body: PlanBody) | ForeignHash(text: string)

  datatype Plan = Plan(body: PlanBody, hash: PlanHash)

  datatype CheckItem = CheckItem(command: seq<string>, passed: bool, stdoutRef: Path, stderrRef: Path)

  datatype ReportVerdict = ReportPass | ReportFail | ReportOther(name: string)

  datatype Report = Report(verdict: ReportVerdict, items: seq<CheckItem>, repository: Option<string>)

  // ---------------------------------------------------------------- compilation

  function Dedupe(xs: seq<string>): (r: seq<string>)
    ensures forall x :: x in r <==> x in xs
    ensures forall i, j | 0 <= i < j < |r| :: r[i] != r[j]
  {
    if xs == [] then []
    else
      var init, last := Dedupe(xs[..|xs| - 1]), xs[|xs| - 1];
      assert xs == xs[..|xs| - 1] + [last];
      if last in init then init else init + [last]
  }

  function NonEmpty(xs: seq<string>): (r: seq<string>)
    ensures forall x :: x in r <==> x in xs && x != ""
  {
    if xs == [] then [] else (if xs[0] == "" then [] else [xs[0]]) + NonEmpty(xs[1..])
  }

  /** The last check with this digest owns it, as the last key written to a map does. */
  ghost predicate Owns(mandatory: seq<MandatoryCheck>, i: nat) {
    i < |mandatory| && forall j | i < j < |mandatory| :: mandatory[j].digest != mandatory[i].digest
  }

  /** Some task names this criterion and itself requires a check with this digest. */
  ghost predicate Linked(tasks: seq<TaskBrief>, digest: Digest, id: string) {
    exists t, c | 0 <= t < |tasks| && 0 <= c < |tasks[t].requiredChecks| ::
      LinkedAt(tasks, digest, id, t, c)
  }

  ghost predicate LinkedAt(tasks: seq<TaskBrief>, digest: Digest, id: string, t: nat, c: nat) {
    && t < |tasks| && c < |tasks[t].requiredChecks|
    && CommandDigest(tasks[t].requiredChecks[c].command) == digest
    && id in tasks[t].criterionIds
  }

  predicate RunnableTasks(tasks: seq<TaskBrief>) {
    forall t | t in tasks :: forall c | c in t.requiredChecks :: c.command != []
  }

  /** The two lists differ in nothing but the criteria their checks are linked to. */
  ghost predicate SameAuthority(a: seq<MandatoryCheck>, b: seq<MandatoryCheck>) {
    && |a| == |b|
    && forall i | 0 <= i < |a| :: a[i].(criterionIds := []) == b[i].(criterionIds := [])
  }

  /** What the catalogue alone makes mandatory. */
  function FromCatalog(catalog: seq<seq<string>>): (m: seq<MandatoryCheck>)
    ensures |m| == |catalog|
    ensures forall i | 0 <= i < |catalog| ::
              m[i] == MandatoryCheck(i + 1, catalog[i], CommandDigest(catalog[i]), [], true)
  {
    seq(|catalog|, i requires 0 <= i < |catalog| =>
      MandatoryCheck(i + 1, catalog[i], CommandDigest(catalog[i]), [], true))
  }

  ghost predicate LinksExactly(m: seq<MandatoryCheck>, tasks: seq<TaskBrief>) {
    forall i, id | 0 <= i < |m| ::
      id in m[i].criterionIds <==> Owns(m, i) && Linked(tasks, m[i].digest, id)
  }

  /** A check some task proposes for itself. */
  datatype Proposal = Proposal(taskId: string, command: seq<string>, criterionIds: seq<string>)

  function ProposalsOf(task: TaskBrief): (ps: seq<Proposal>)
    ensures |ps| == |task.requiredChecks|
  {
    seq(|task.requiredChecks|, i requires 0 <= i < |task.requiredChecks| =>
      Proposal(task.taskId, task.requiredChecks[i].command, task.criterionIds))
  }

  function Proposals(tasks: seq<TaskBrief>): seq<Proposal> {
    if tasks == [] then [] else Proposals(tasks[..|tasks| - 1]) + ProposalsOf(tasks[|tasks| - 1])
  }

  predicate HasDigest(m: seq<MandatoryCheck>, digest: Digest) {
    exists k | 0 <= k < |m| :: m[k].digest == digest
  }

  /** The candidates are the tasks' own checks, in order. A candidate carries deterministic authority
      exactly when the frozen plan already holds its command; otherwise it is a model claim. */
  ghost predicate CandidatesOf(cs: seq<Candidate>, ps: seq<Proposal>, m: seq<MandatoryCheck>) {
    && |cs| == |ps|
    && forall i | 0 <= i < |cs| ::
         && cs[i].checkId == i + 1
         && Proposal(cs[i].taskId, cs[i].command, cs[i].criterionIds) == ps[i]
         && cs[i].digest == CommandDigest(cs[i].command)
         && (cs[i].authority == DeterministicAuthority <==> HasDigest(m, cs[i].digest))
  }

  /** The index of the check owning this digest, or -1. */
  method OwnerOf(m: seq<MandatoryCheck>, digest: Digest) returns (k: int)
    ensures k == -1 ==> forall i | 0 <= i < |m| :: m[i].digest != digest
    ensures k == -1 <==> !HasDigest(m, digest)
    ensures k != -1 ==> 0 <= k < |m| && m[k].digest == digest && Owns(m, k)
  {
    k := |m| - 1;
    while k >= 0 && m[k].digest != digest
      invariant -1 <= k < |m|
      invariant forall j | k < j < |m| :: m[j].digest != digest
    {
      k := k - 1;
    }
  }

  /** Links of the tasks before t and of the first c checks of task t. */
  ghost predicate LinkedBefore(tasks: seq<TaskBrief>, digest: Digest, id: string, t: nat, c: nat) {
    exists t', c' | 0 <= t' <= t && 0 <= c' && (t' < t || c' < c) :: LinkedAt(tasks, digest, id, t', c')
  }

  ghost predicate LinksSoFar(m: seq<MandatoryCheck>, tasks: seq<TaskBrief>, t: nat, c: nat) {
    forall i, id | 0 <= i < |m| ::
      id in m[i].criterionIds <==> Owns(m, i) && LinkedBefore(tasks, m[i].digest, id, t, c)
  }

  /** Everything a compiled plan is, told without reference to how it is computed. */
  ghost predicate Compiled(p: Plan, criterionIds: seq<string>, tasks: seq<TaskBrief>, catalog: seq<seq<string>>,
                           fingerprint: seq<MandatoryCheck> -> seq<EvaluatorInput>,
                           baselineCommit: Option<string>, baselinePlan: Option<Plan>)
  {
    var frozen := if baselinePlan.Some? then baselinePlan.value.body.mandatory else FromCatalog(catalog);
    && SameAuthority(p.body.mandatory, frozen)
    && LinksExactly(p.body.mandatory, tasks)
    && CandidatesOf(p.body.candidates, Proposals(tasks), frozen)
    && p.body.repositoryBaseline == (if baselinePlan.Some? then baselinePlan.value.body.repositoryBaseline
                                     else baselineCommit)
    && p.body.evaluatorInputs == (if baselinePlan.Some? then baselinePlan.value.body.evaluatorInputs
                                  else fingerprint(FromCatalog(catalog)))
    && (p.body.status == Ready <==> frozen != [])
    && (forall id :: id in p.body.criterionIds <==> id in criterionIds && id != "")
    && p.hash == PlanHashOf(p.body)
  }

  lemma LinkStep(m: seq<MandatoryCheck>, m': seq<MandatoryCheck>, tasks: seq<TaskBrief>, t: nat, c: nat, k: int)
    requires t < |tasks| && c < |tasks[t].requiredChecks| && LinksSoFar(m, tasks, t, c)
    requires var digest := CommandDigest(tasks[t].requiredChecks[c].command);
             if k == -1 then m' == m && forall i | 0 <= i < |m| :: m[i].digest != digest
             else && 0 <= k < |m| && m[k].digest == digest && Owns(m, k)
                  && m' == m[k := m[k].(criterionIds := Dedupe(m[k].criterionIds + tasks[t].criterionIds))]
    ensures LinksSoFar(m', tasks, t, c + 1)
  {
    var digest := CommandDigest(tasks[t].requiredChecks[c].command);
    forall i, id | 0 <= i < |m'|
      ensures id in m'[i].criterionIds <==> Owns(m', i) && LinkedBefore(tasks, m'[i].digest, id, t, c + 1)
    {
      assert Owns(m', i) <==> Owns(m, i) by {
        assert forall j | 0 <= j < |m| :: m'[j].digest == m[j].digest;
      }
      if LinkedBefore(tasks, m[i].digest, id, t, c) {
        var t', c' :| 0 <= t' <= t && 0 <= c' && (t' < t || c' < c) && LinkedAt(tasks, m[i].digest, id, t', c');
        assert LinkedBefore(tasks, m'[i].digest, id, t, c + 1);
      }
      if LinkedBefore(tasks, m'[i].digest, id, t, c + 1) {
        var t', c' :| 0 <= t' <= t && 0 <= c' && (t' < t || c' < c + 1) && LinkedAt(tasks, m'[i].digest, id, t', c');
        assert LinkedBefore(tasks, m[i].digest, id, t, c) || (t' == t && c' == c);
      }
      if m[i].digest == digest && id in tasks[t].criterionIds {
        assert LinkedAt(tasks, m'[i].digest, id, t, c);
        assert LinkedBefore(tasks, m'[i].digest, id, t, c + 1);
      }
    }
  }

  lemma LinkNextTask(m: seq<MandatoryCheck>, tasks: seq<TaskBrief>, t: nat)
    requires t < |tasks| && LinksSoFar(m, tasks, t, |tasks[t].requiredChecks|)
    ensures LinksSoFar(m, tasks, t + 1, 0)
  {
    forall i, id | 0 <= i < |m|
      ensures LinkedBefore(tasks, m[i].digest, id, t, |tasks[t].requiredChecks|) <==>
              LinkedBefore(tasks, m[i].digest, id, t + 1, 0)
    {
      if LinkedBefore(tasks, m[i].digest, id, t, |tasks[t].requiredChecks|) {
        var t', c' :| 0 <= t' <= t && 0 <= c' && (t' < t || c' < |tasks[t].requiredChecks|)
                      && LinkedAt(tasks, m[i].digest, id, t', c');
        assert t' < t + 1;
      }
      if LinkedBefore(tasks, m[i].digest, id, t + 1, 0) {
        var t', c' :| 0 <= t' <= t + 1 && 0 <= c' && (t' < t + 1 || c' < 0)
                      && LinkedAt(tasks, m[i].digest, id, t', c');
        assert t' < t || c' < |tasks[t].requiredChecks|;
      }
    }
  }

  lemma LinksDone(m: seq<MandatoryCheck>, tasks: seq<TaskBrief>)
    requires LinksSoFar(m, tasks, |tasks|, 0)
    ensures LinksExactly(m, tasks)
  {
    forall i, id | 0 <= i < |m|
      ensures LinkedBefore(tasks, m[i].digest, id, |tasks|, 0) <==> Linked(tasks, m[i].digest, id)
    {
      if Linked(tasks, m[i].digest, id) {
        var t, c :| 0 <= t < |tasks| && 0 <= c < |tasks[t].requiredChecks| && LinkedAt(tasks, m[i].digest, id, t, c);
      }
    }
  }

  lemma CandidateStep(cs: seq<Candidate>, done: seq<Proposal>, ps: seq<Proposal>, c: nat,
                      candidate: Candidate, frozen: seq<MandatoryCheck>)
    requires c < |ps| && CandidatesOf(cs, done + ps[..c], frozen)
    requires candidate.checkId == |cs| + 1 && candidate.digest == CommandDigest(candidate.command)
    requires Proposal(candidate.taskId, candidate.command, candidate.criterionIds) == ps[c]
    requires candidate.authority == DeterministicAuthority <==> HasDigest(frozen, candidate.digest)
    ensures CandidatesOf(cs + [candidate], done + ps[..c + 1], frozen)
  {
    assert done + ps[..c + 1] == (done + ps[..c]) + [ps[c]];
  }

  lemma OwnerIsFrozen(m: seq<MandatoryCheck>, frozen: seq<MandatoryCheck>, digest: Digest)
    requires SameAuthority(m, frozen)
    ensures HasDigest(m, digest) <==> HasDigest(frozen, digest)
  {
    assert forall j | 0 <= j < |m| :: m[j].digest == m[j].(criterionIds := []).digest == frozen[j].digest;
  }

  /** One task's turn: link its criteria to the mandatory checks it repeats, propose the rest. */
  method LinkTask(frozen: seq<MandatoryCheck>, m: seq<MandatoryCheck>, cs: seq<Candidate>,
                  tasks: seq<TaskBrief>, t: nat)
    returns (ok: bool, mandatory: seq<MandatoryCheck>, candidates: seq<Candidate>)
    requires t < |tasks| && SameAuthority(m, frozen) && LinksSoFar(m, tasks, t, 0)
    requires CandidatesOf(cs, Proposals(tasks[..t]), frozen)
    ensures ok <==> forall c | c in tasks[t].requiredChecks :: c.command != []
    ensures ok ==> SameAuthority(mandatory, frozen) && LinksSoFar(mandatory, tasks, t + 1, 0)
    ensures ok ==> CandidatesOf(candidates, Proposals(tasks[..t + 1]), frozen)
  {
    var task := tasks[t];
    mandatory, candidates := m, cs;
    ghost var ps := ProposalsOf(task);
    var c := 0;
    while c < |task.requiredChecks|
      invariant 0 <= c <= |task.requiredChecks|
      invariant forall j | 0 <= j < c :: task.requiredChecks[j].command != []
      invariant SameAuthority(mandatory, frozen)
      invariant LinksSoFar(mandatory, tasks, t, c)
      invariant CandidatesOf(candidates, Proposals(tasks[..t]) + ps[..c], frozen)
    {
      var check := task.requiredChecks[c];
      if check.command == [] {
        return false, mandatory, candidates;
      }
      var digest := CommandDigest(check.command);
      var k := OwnerOf(mandatory, digest);
      ghost var before := mandatory;
      if k != -1 {
        var ids := Dedupe(mandatory[k].criterionIds + task.criterionIds);
        mandatory := mandatory[k := mandatory[k].(criterionIds := ids)];
      }
      LinkStep(before, mandatory, tasks, t, c, k);
      var candidate := Candidate(|candidates| + 1, task.taskId, check.command, digest,
                                 if k != -1 then DeterministicAuthority else ModelClaimAuthority,
                                 task.criterionIds);
      OwnerIsFrozen(before, frozen, digest);
      CandidateStep(candidates, Proposals(tasks[..t]), ps, c, candidate, frozen);
      candidates := candidates + [candidate];
      c := c + 1;
    }
    LinkNextTask(mandatory, tasks, t);
    assert tasks[..t + 1][..t] == tasks[..t];
    assert ps[..c] == ps;
    ok := true;
  }

  method CompileVerificationPlan(criterionIds: seq<string>, tasks: seq<TaskBrief>, catalog: seq<seq<string>>,
                                 fingerprint: seq<MandatoryCheck> -> seq<EvaluatorInput>,
                                 baselineCommit: Option<string>, baselinePlan: Option<Plan>)
    returns (r: Result<Plan, PlanError>)
    ensures r.Ok? <==> RunnableTasks(tasks) && (baselinePlan.Some? || [] !in catalog)
    ensures r.Ok? ==>
              Compiled(r.value, criterionIds, tasks, catalog, fingerprint, baselineCommit, baselinePlan)
  {
    var frozen: seq<MandatoryCheck>;
    var evaluatorInputs: seq<EvaluatorInput>;
    var repositoryBaseline: Option<string>;
    if baselinePlan.Some? {
      frozen := baselinePlan.value.body.mandatory;
      evaluatorInputs := baselinePlan.value.body.evaluatorInputs;
      repositoryBaseline := baselinePlan.value.body.repositoryBaseline;
    } else {
      if [] in catalog { return Err(EmptyCommand); }
      frozen := FromCatalog(catalog);
      evaluatorInputs := fingerprint(frozen);
      repositoryBaseline := baselineCommit;
    }
    var mandatory := seq(|frozen|, i requires 0 <= i < |frozen| => frozen[i].(criterionIds := []));
    var candidates: seq<Candidate> := [];
    var t := 0;
    while t < |tasks|
      invariant 0 <= t <= |tasks|
      invariant RunnableTasks(tasks[..t])
      invariant SameAuthority(mandatory, frozen)
      invariant LinksSoFar(mandatory, tasks, t, 0)
      invariant CandidatesOf(candidates, Proposals(tasks[..t]), frozen)
    {
      var ok;
      ok, mandatory, candidates := LinkTask(frozen, mandatory, candidates, tasks, t);
      assert tasks[..t + 1] == tasks[..t] + [tasks[t]];
      if !ok {
        assert tasks[t] in tasks;
        return Err(EmptyCommand);
      }
      t := t + 1;
    }
    assert tasks[..|tasks|] == tasks;
    LinksDone(mandatory, tasks);
    var body := PlanBody(Dedupe(NonEmpty(criterionIds)), mandatory, candidates, repositoryBaseline, evaluatorInputs,
                         if mandatory != [] then Ready else InsufficientAuthority);
    return Ok(Plan(body, PlanHashOf(body)));
  }

  // ---------------------------------------------------------------- frozen authority

  /** Every mandatory check is runnable, is marked mandatory, and carries its own command's digest. */
  predicate Authentic(m: seq<MandatoryCheck>) {
    forall i | 0 <= i < |m| :: m[i].mandatory && m[i].command != [] && m[i].digest == CommandDigest(m[i].command)
  }

  lemma EmptyOrInhabited(xs: seq<string>)
    ensures xs == [] || exists x :: x in xs
  {
    if xs != [] { assert xs[0] in xs; }
  }

  /** Whatever the planner proposes, whatever the catalogue, repository and commit look like by then,
      the second plan holds the first plan's authority and nothing else. */
  lemma FrozenAuthority(p0: Plan, p1: Plan, ids0: seq<string>, ids1: seq<string>, tasks: seq<TaskBrief>,
                        catalog0: seq<seq<string>>, catalog1: seq<seq<string>>,
                        print0: seq<MandatoryCheck> -> seq<EvaluatorInput>,
                        print1: seq<MandatoryCheck> -> seq<EvaluatorInput>,
                        commit0: Option<string>, commit1: Option<string>)
    requires [] !in catalog0
    requires Compiled(p0, ids0, [], catalog0, print0, commit0, None)
    requires Compiled(p1, ids1, tasks, catalog1, print1, commit1, Some(p0))
    ensures |p1.body.mandatory| == |catalog0|
    ensures forall i | 0 <= i < |catalog0| ::
              p1.body.mandatory[i].command == catalog0[i] && p1.body.mandatory[i].digest == CommandDigest(catalog0[i])
    ensures Authentic(p0.body.mandatory) && Authentic(p1.body.mandatory)
    ensures p1.body.evaluatorInputs == p0.body.evaluatorInputs == print0(FromCatalog(catalog0))
    ensures p1.body.repositoryBaseline == commit0
    ensures p0.body.status == p1.body.status && (p1.body.status == Ready <==> catalog0 != [])
    // Before there are tasks, nothing is linked; a task alone never adds authority.
    ensures forall i | 0 <= i < |p0.body.mandatory| :: p0.body.mandatory[i].criterionIds == []
  {
    forall i | 0 <= i < |catalog0|
      ensures p0.body.mandatory[i] == MandatoryCheck(i + 1, catalog0[i], CommandDigest(catalog0[i]), [], true)
      ensures p1.body.mandatory[i].(criterionIds := []) == p0.body.mandatory[i].(criterionIds := [])
    {
      var m := p0.body.mandatory[i];
      EmptyOrInhabited(m.criterionIds);
      assert m.(criterionIds := []) == FromCatalog(catalog0)[i].(criterionIds := []);
      forall id ensures id !in m.criterionIds {
        assert !Linked([], m.digest, id);
      }
    }
    forall i | 0 <= i < |p1.body.mandatory|
      ensures p1.body.mandatory[i].mandatory && p1.body.mandatory[i].command == catalog0[i]
      ensures p1.body.mandatory[i].digest == CommandDigest(catalog0[i])
    {
      assert p1.body.mandatory[i].(criterionIds := []) == p0.body.mandatory[i].(criterionIds := []);
    }
    forall i | 0 <= i < |catalog0| ensures catalog0[i] != [] {
      assert catalog0[i] in catalog0;
    }
  }

  /** Adds the mandatory commands a task does not already require, once each. */
  method WithMandatoryChecks(task: TaskBrief, plan: Plan) returns (r: Result<TaskBrief, PlanError>)
    ensures r.Ok? <==> forall c | c in task.requiredChecks :: c.command != []
    ensures r.Ok? ==>
              && r.value == task.(requiredChecks := r.value.requiredChecks)
              && task.requiredChecks <= r.value.requiredChecks
              && Requires(r.value.requiredChecks, plan.body.mandatory, |plan.body.mandatory|)
    ensures r.Ok? ==> AddedOnce(r.value.requiredChecks, |task.requiredChecks|, plan.body.mandatory)
  {
    if c :| c in task.requiredChecks && c.command == [] {
      return Err(EmptyCommand);
    }
    var mandatory := plan.body.mandatory;
    var checks := task.requiredChecks;
    var existing := set c | c in task.requiredChecks :: CommandDigest(c.command);
    var k := 0;
    while k < |mandatory|
      invariant 0 <= k <= |mandatory|
      invariant task.requiredChecks <= checks
      invariant DigestsAre(existing, checks)
      invariant Requires(checks, mandatory, k)
      invariant AddedOnce(checks, |task.requiredChecks|, mandatory)
    {
      var command := mandatory[k].command;
      if command != [] && CommandDigest(command) !in existing {
        var added := CheckSpec(command, None, None, Some("core-repository-tests"));
        AddMandatory(checks, added, existing, |task.requiredChecks|, mandatory, k);
        checks := checks + [added];
        existing := existing + {CommandDigest(command)};
      }
      k := k + 1;
    }
    return Ok(task.(requiredChecks := checks));
  }

  ghost predicate DigestsAre(existing: set<Digest>, checks: seq<CheckSpec>) {
    forall d :: d in existing <==> exists c :: c in checks && CommandDigest(c.command) == d
  }

  lemma AddMandatory(checks: seq<CheckSpec>, added: CheckSpec, existing: set<Digest>, start: nat,
                     mandatory: seq<MandatoryCheck>, k: nat)
    requires start <= |checks| && k < |mandatory| && added.command == mandatory[k].command
    requires DigestsAre(existing, checks) && CommandDigest(added.command) !in existing
    requires Requires(checks, mandatory, k) && AddedOnce(checks, start, mandatory)
    ensures DigestsAre(existing + {CommandDigest(added.command)}, checks + [added])
    ensures Requires(checks + [added], mandatory, k + 1) && AddedOnce(checks + [added], start, mandatory)
  {
    var more := checks + [added];
    assert forall c :: c in more <==> c in checks || c == added;
    forall j | 0 <= j < |checks| ensures CommandDigest(checks[j].command) in existing {
      assert checks[j] in checks;
    }
    forall i | 0 <= i < k + 1 && mandatory[i].command != []
      ensures exists c :: c in more && CommandDigest(c.command) == CommandDigest(mandatory[i].command)
    {
      if i < k {
        var c :| c in checks && CommandDigest(c.command) == CommandDigest(mandatory[i].command);
        assert c in more;
      } else {
        assert added in more;
      }
    }
    assert HasCommand(mandatory, added.command);
  }

  predicate HasCommand(m: seq<MandatoryCheck>, command: seq<string>) {
    exists k | 0 <= k < |m| :: m[k].command == command
  }

  /** Each check from this position on is a mandatory command that no check before it covers. */
  ghost predicate AddedOnce(checks: seq<CheckSpec>, start: nat, mandatory: seq<MandatoryCheck>) {
    && (forall i | start <= i < |checks| :: HasCommand(mandatory, checks[i].command))
    && (forall i, j | start <= i < |checks| && 0 <= j < i ::
          CommandDigest(checks[j].command) != CommandDigest(checks[i].command))
  }

  /** Every runnable mandatory command among the first n is required. */
  ghost predicate Requires(checks: seq<CheckSpec>, mandatory: seq<MandatoryCheck>, n: nat)
    requires n <= |mandatory|
  {
    forall i | 0 <= i < n && mandatory[i].command != [] ::
      exists c :: c in checks && CommandDigest(c.command) == CommandDigest(mandatory[i].command)
  }

  // ---------------------------------------------------------------- the two gates

  function RequiredDigests(m: seq<MandatoryCheck>): set<Digest> {
    set i | 0 <= i < |m| && m[i].mandatory :: m[i].digest
  }

  function PassedDigests(report: Report): set<Digest> {
    set i | 0 <= i < |report.items| && report.items[i].passed :: CommandDigest(report.items[i].command)
  }

  predicate PassedEmptyCommand(report: Report) {
    exists i | 0 <= i < |report.items| :: report.items[i].passed && report.items[i].command == []
  }

  function CriteriaOf(m: seq<MandatoryCheck>): set<string> {
    set i, id | 0 <= i < |m| && id in m[i].criterionIds && id != "" :: id
  }

  /** The plan side's gate: which criteria the report proves. */
  function AuthoritativePassedCriteria(plan: Plan, report: Report): Result<set<string>, PlanError> {
    var m := plan.body.mandatory;
    if m == [] then Ok({})
    else if PassedEmptyCommand(report) then Err(EmptyCommand)
    else if RequiredDigests(m) == {} || !(RequiredDigests(m) <= PassedDigests(report)) then Ok({})
    else Ok(CriteriaOf(m))
  }

  /** The evidence side's gate: some check is mandatory, and each mandatory one has a passing result. */
  function MandatoryChecksPassed(plan: Plan, report: Report): bool {
    && plan.body.mandatory != []
    && (exists i | 0 <= i < |plan.body.mandatory| :: plan.body.mandatory[i].mandatory)
    && forall i | 0 <= i < |plan.body.mandatory| && plan.body.mandatory[i].mandatory ::
         exists k | 0 <= k < |report.items| ::
           report.items[k].passed && CommandDigest(report.items[k].command) == plan.body.mandatory[i].digest
  }

  /** The two gates agree on every report: the plan side proves all linked criteria when the evidence side
      accepts and none when it refuses, unless a passing result has no command, where it raises. */
  lemma GatesAgree(plan: Plan, report: Report)
    ensures AuthoritativePassedCriteria(plan, report).Err? <==>
              plan.body.mandatory != [] && PassedEmptyCommand(report)
    ensures AuthoritativePassedCriteria(plan, report).Ok? ==>
              AuthoritativePassedCriteria(plan, report).value ==
              if MandatoryChecksPassed(plan, report) then CriteriaOf(plan.body.mandatory) else {}
  {
    var m := plan.body.mandatory;
    assert (exists i | 0 <= i < |m| :: m[i].mandatory) <==> RequiredDigests(m) != {} by {
      if i :| 0 <= i < |m| && m[i].mandatory { assert m[i].digest in RequiredDigests(m); }
      if d :| d in RequiredDigests(m) { }
    }
    if RequiredDigests(m) <= PassedDigests(report) {
      forall i | 0 <= i < |m| && m[i].mandatory
        ensures exists k | 0 <= k < |report.items| ::
                  report.items[k].passed && CommandDigest(report.items[k].command) == m[i].digest
      {
        assert m[i].digest in PassedDigests(report);
      }
    }
  }

  /** A criterion is proved only through a mandatory check that passed in this very report
      and that some task naming the criterion itself required. */
  lemma ProvedCriterionHasTask(plan: Plan, report: Report, tasks: seq<TaskBrief>, id: string)
    requires LinksExactly(plan.body.mandatory, tasks) && Authentic(plan.body.mandatory)
    requires AuthoritativePassedCriteria(plan, report).Ok?
    requires id in AuthoritativePassedCriteria(plan, report).value
    ensures exists i, t, c, k ::
              && 0 <= i < |plan.body.mandatory|
              && LinkedAt(tasks, plan.body.mandatory[i].digest, id, t, c)
              && 0 <= k < |report.items| && report.items[k].passed
              && CommandDigest(report.items[k].command) == plan.body.mandatory[i].digest
  {
    GatesAgree(plan, report);
    var m := plan.body.mandatory;
    var i, id' :| 0 <= i < |m| && id' in m[i].criterionIds && id' != "" && id' == id;
    assert Linked(tasks, m[i].digest, id);
    var t, c :| 0 <= t < |tasks| && 0 <= c < |tasks[t].requiredChecks| && LinkedAt(tasks, m[i].digest, id, t, c);
    var k :| 0 <= k < |report.items| && report.items[k].passed && CommandDigest(report.items[k].command) == m[i].digest;
    assert LinkedAt(tasks, plan.body.mandatory[i].digest, id, t, c);
  }

  /** Conversely: under a READY plan, a report in which every required check ran and passed opens the gate,
      and then every criterion that shares a required mandatory command with its task is proved. */
  lemma PassingReportOpensGate(plan: Plan, report: Report, checks: seq<CheckSpec>)
    requires plan.body.mandatory != [] && Authentic(plan.body.mandatory)
    requires Requires(checks, plan.body.mandatory, |plan.body.mandatory|)
    requires forall c | c in checks :: exists k | 0 <= k < |report.items| :: report.items[k].command == c.command
    requires forall k | 0 <= k < |report.items| :: report.items[k].passed && report.items[k].command != []
    ensures MandatoryChecksPassed(plan, report)
    ensures AuthoritativePassedCriteria(plan, report) == Ok(CriteriaOf(plan.body.mandatory))
  {
    var m := plan.body.mandatory;
    assert m[0].mandatory;
    forall i | 0 <= i < |m|
      ensures exists k | 0 <= k < |report.items| ::
                report.items[k].passed && CommandDigest(report.items[k].command) == m[i].digest
    {
      var c :| c in checks && CommandDigest(c.command) == CommandDigest(m[i].command);
      var k :| 0 <= k < |report.items| && report.items[k].command == c.command;
    }
    GatesAgree(plan, report);
  }
}
