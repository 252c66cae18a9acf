/** One concrete request, prepared: a single list item, a single task, a single repository command. */
module WitnessRequest {
  import opened Common
  import opened Text
  import opened TaskBrief
  import opened VerificationPlan
  import Clauses
  import Intent
  import Brief = ExecutionBrief
  import Reconciler
  import Blueprint
  import EventRecord
  import Repair
  import TaskExecutor
  import opened Preparation
  import opened Traceability

  const REQUEST: string := "- a"
  const SPACE: Clauses.Spaces := (c: char) => c == ' '
  const MARKS: Intent.Marks := Intent.Marks(_ => false, _ => false, _ => false, _ => false)
  const FOLD: Intent.Folding := (s: string) => s
  const ITEM: Clauses.Clause := Clauses.Clause("a", 1, 2, 3, true)
  const NAME: string := Intent.CriterionId(0)
  const CONTRACT: Intent.Contract := Intent.Contract(ITEM, [Intent.Criterion(NAME, ITEM)], [], [])

  // ---------------------------------------------------------------- the request is one list item

  lemma OneLine()
    ensures Clauses.SplitLines(REQUEST) == ["- a"]
  {
    assert REQUEST[1..] == " a" && " a"[1..] == "a";
    assert Clauses.LineLength("a") == 1 && Clauses.LineLength(" a") == 2 && Clauses.LineLength(REQUEST) == 3;
    assert REQUEST[..3] == REQUEST && REQUEST[3..] == "";
    assert Clauses.SplitLines("") == [];
  }

  lemma Stripped(s: string)
    requires s != "" && s[0] != ' ' && s[|s| - 1] != ' '
    ensures Clauses.Leading(s, SPACE) == 0 && Clauses.Strip(s, SPACE) == s
  {
    assert s[0..] == s;
  }

  lemma ItemOfLine()
    ensures IsItem("- a", SPACE) && ItemText("- a", SPACE) == "a"
  {
    assert Clauses.Content("- a") == "- a";
    Stripped("- a");
    Stripped("a");
    assert "- a"[1..] == " a" && " a"[1..] == "a" && "- a"[2..] == "a";
    assert Clauses.Leading(" a", SPACE) == 1;
    assert Clauses.MarkerHead("- a") == 1 && Clauses.MarkerLength("- a", SPACE) == 2;
  }

  lemma LineIsCovered(lines: seq<string>)
    requires lines == ["- a"]
    ensures Clauses.ItemCovered([ITEM], lines, 0, SPACE)
  {
    ItemOfLine();
    hide Clauses.Strip, Clauses.Content, Clauses.MarkerLength, Clauses.IsListItem;
    assert ITEM in [ITEM];
  }

  lemma RequestIsCovered()
    ensures Clauses.Exact([ITEM], REQUEST, |REQUEST|)
    ensures forall n | 0 <= n < |Clauses.SplitLines(REQUEST)| ::
              Clauses.ItemCovered([ITEM], Clauses.SplitLines(REQUEST), n, SPACE)
  {
    hide Clauses.ItemCovered, Clauses.SplitLines;
    OneLine();
    LineIsCovered(Clauses.SplitLines(REQUEST));
    assert REQUEST[2..3] == "a";
  }

  lemma ContractIsCompiled()
    ensures Intent.ContractOf(CONTRACT, [ITEM], MARKS, FOLD)
  {
    hide Intent.CriterionId, Intent.Deduped, Intent.Firsts, Intent.IsNew, Intent.Represented;
    var clauses := [ITEM];
    assert Intent.Picked(clauses, 0, 0, Intent.Criteria, MARKS) == [];
    assert Intent.Picked(clauses, 0, 1, Intent.Criteria, MARKS) == [];
    assert Intent.Picked(clauses, 0, 0, Intent.Constraints, MARKS) == [];
    assert Intent.Picked(clauses, 0, 1, Intent.Constraints, MARKS) == [];
    assert Intent.Picked(clauses, 0, 0, Intent.NonGoals, MARKS) == [];
    assert Intent.Picked(clauses, 0, 1, Intent.NonGoals, MARKS) == [];
    assert [ITEM] + [] == [ITEM];
    assert Intent.ClausesIn(CONTRACT.criteria) == [ITEM];
    OneIsDeduped();
    assert Intent.IsObjective(0, clauses, MARKS);
    assert Intent.ContractFor(CONTRACT, clauses, 0, MARKS, FOLD);
  }

  lemma OneIsDeduped()
    ensures Intent.Deduped([ITEM], [ITEM], FOLD) && Intent.Deduped([], [], FOLD)
  {
    assert [ITEM][0] == ITEM && FOLD(ITEM.text) == "a";
    assert Intent.Represented(ITEM, [ITEM], FOLD);
  }

  // ---------------------------------------------------------------- its brief

  const DETAILS: Details := Details("b", [], [], [], [])

  function TheDocument(): Brief.IntentDocument {
    Written(CONTRACT, REQUEST, map[], DETAILS)
  }

  function TheBrief(): (b: Brief.Brief)
    ensures IsActiveBrief(b, TheDocument(), "base") && BriefNames(b) == Names(CONTRACT)
  {
    hide Brief.IntentOk, Intent.ContractOf, Intent.CriterionId, Reconciler.Accepts, Intent.Texts,
         Intent.WithDefault, Written;
    var intent := TheDocument();
    RequestIsCovered();
    ContractIsCompiled();
    CompiledIntentIsOk(CONTRACT, REQUEST, [ITEM], MARKS, FOLD, map[], DETAILS);
    Brief.ComposedIsValid(intent, "base");
    Reconciler.ConservativeIsAccepted(Brief.Composed(intent, "base"));
    var b := Brief.Rehashed(Reconciler.Conservative(Brief.Composed(intent, "base")));
    ActiveNames(b, CONTRACT, REQUEST, map[], DETAILS, "base");
    b
  }

  // ---------------------------------------------------------------- its plans

  const COMMAND: seq<string> := ["check"]
  const REPOSITORY: Repository := Repository([COMMAND], "base", _ => [], _ => [])

  const TASK: TaskBrief := TaskBrief(
    "T", ["src"], [], [CheckSpec(COMMAND, None, None, None)], ChangeBudget(1, None, 1, false), [], 1, 0, [NAME],
    Some(ProofPlan(0, 0, 1, 0, 0, 0)))

  function BodyWith(links: seq<string>, candidates: seq<Candidate>): PlanBody {
    PlanBody([NAME], [MandatoryCheck(1, COMMAND, CommandDigest(COMMAND), links, true)], candidates, Some("base"), [], Ready)
  }

  const FROZEN: Plan := Plan(BodyWith([], []), PlanHashOf(BodyWith([], [])))
  const CANDIDATE: Candidate := Candidate(1, "T", COMMAND, CommandDigest(COMMAND), DeterministicAuthority, [NAME])
  const PLAN: Plan := Plan(BodyWith([NAME], [CANDIDATE]), PlanHashOf(BodyWith([NAME], [CANDIDATE])))

  lemma NameIsText()
    ensures NAME != ""
  {
    hide Padded;
  }

  lemma FrozenIsCompiled()
    ensures Compiled(FROZEN, [NAME], [], [COMMAND], REPOSITORY.before, Some("base"), None)
  {
    hide CommandDigest, Intent.CriterionId;
    NameIsText();
    var m := FROZEN.body.mandatory;
    assert FromCatalog([COMMAND]) == m;
    forall id ensures !Linked([], m[0].digest, id) {
    }
    assert LinksExactly(m, []);
    assert CandidatesOf([], Proposals([]), m);
  }

  lemma TaskLinks()
    ensures LinksExactly(PLAN.body.mandatory, [TASK])
  {
    hide CommandDigest, Intent.CriterionId;
    var m := PLAN.body.mandatory;
    forall id ensures id in m[0].criterionIds <==> Owns(m, 0) && Linked([TASK], m[0].digest, id) {
      assert TASK.requiredChecks[0].command == COMMAND;
      if id == NAME { assert LinkedAt([TASK], m[0].digest, id, 0, 0); }
      assert forall t, c :: LinkedAt([TASK], m[0].digest, id, t, c) ==> id in TASK.criterionIds;
    }
  }

  lemma TaskProposes()
    ensures CandidatesOf([CANDIDATE], Proposals([TASK]), FROZEN.body.mandatory)
  {
    hide CommandDigest, Intent.CriterionId;
    assert [TASK][..0] == [] && Proposals([]) == [];
    assert ProposalsOf(TASK) == [Proposal("T", COMMAND, [NAME])];
    assert Proposals([TASK]) == [Proposal("T", COMMAND, [NAME])];
    assert FROZEN.body.mandatory[0].digest == CANDIDATE.digest;
    assert HasDigest(FROZEN.body.mandatory, CANDIDATE.digest);
  }

  lemma PlanIsCompiled()
    ensures Compiled(PLAN, [NAME], [TASK], [COMMAND], REPOSITORY.after, Some("base"), Some(FROZEN))
  {
    hide CommandDigest, Intent.CriterionId, LinksExactly, CandidatesOf;
    NameIsText();
    TaskLinks();
    TaskProposes();
    assert SameAuthority(PLAN.body.mandatory, FROZEN.body.mandatory);
  }

  lemma TaskIsLinked()
    ensures LinksAll(CONTRACT, [TASK]) && Plannable([TASK]) && Materialized([TASK], [NAME]) == [TASK]
    ensures Names(CONTRACT) == [NAME]
  {
    hide Intent.CriterionId;
    NameIsText();
    var names := Names(CONTRACT);
    assert names == [NAME];
    assert [TASK][0] == TASK && TASK.criterionIds[0] == NAME;
    assert NAME in Blueprint.Linked([TASK]) by { assert TASK in [TASK] && NAME in TASK.criterionIds; }
    forall id | id in Blueprint.Linked([TASK]) ensures id == NAME {
      var t :| t in [TASK] && id in t.criterionIds;
    }
    assert TaskExecutor.BudgetsOf(TASK) == Repair.Budgets(1, 0);
  }

  function ThePrepared(): Prepared {
    Prepared([NAME], TheDocument(), TheBrief(), FROZEN, PLAN, [TASK])
  }

  /** The request, its contract, its brief, its plans and its task are what compilation and preparation make. */
  lemma RequestIsStarted()
    ensures Started(REQUEST, SPACE, [ITEM], MARKS, FOLD, CONTRACT, REPOSITORY, [TASK], ThePrepared())
    ensures RunnableTasks([TASK])
  {
    hide Clauses.Exact, Intent.ContractOf, Clauses.ItemCovered, Clauses.SplitLines, Compiled, LinksAll, Plannable, Materialized,
         Intent.CriterionId, IsActiveBrief, TheDocument, Written, Brief.Says, Brief.IntentOk;
    RequestIsCovered();
    ContractIsCompiled();
    FrozenIsCompiled();
    PlanIsCompiled();
    TaskIsLinked();
    assert COMMAND != [] && [] !in [COMMAND];
    assert TASK.requiredChecks == [CheckSpec(COMMAND, None, None, None)];
  }
}
