/** From the compiled request to what a run is set up with: the brief, the frozen plan and the accepted tasks. */
module Preparation {
  import opened Common
  import opened Text
  import Clauses
  import Intent
  import Brief = ExecutionBrief
  import Reconciler
  import Blueprint
  import opened TaskBrief
  import opened VerificationPlan
  import L = ObligationLifecycle
  import Repair
  import TaskExecutor

  // ---------------------------------------------------------------- the written intent contract

  /** What the intent contract says besides its clauses. */
  datatype Details = Details(
    boundary: string,
    assumptions: seq<string>,
    unknowns: seq<string>,
    riskSignals: seq<string>,
    targets: seq<string>)

  predicate DetailsOk(d: Details) {
    && d.boundary != "" && Brief.StringsOk(d.assumptions) && Brief.StringsOk(d.unknowns)
    && Brief.StringsOk(d.riskSignals) && Brief.StringsOk(d.targets)
  }

  function SpanOf(c: Clauses.Clause): Brief.Ref {
    Brief.SpanRef(c.line, c.start, c.end)
  }

  function WrittenCriteria(cs: seq<Intent.Criterion>): (r: seq<Brief.IntentCriterion>)
    ensures |r| == |cs|
    ensures forall k | 0 <= k < |r| ::
              r[k] == Brief.IntentCriterion(cs[k].id, cs[k].clause.text, Some([SpanOf(cs[k].clause)]))
  {
    seq(|cs|, k requires 0 <= k < |cs| =>
      Brief.IntentCriterion(cs[k].id, cs[k].clause.text, Some([SpanOf(cs[k].clause)])))
  }

  /** The intent contract as it is written, with the source references made for it. */
  function Written(contract: Intent.Contract, request: string, refs: map<string, Clauses.Clause>, d: Details):
    (i: Brief.IntentDocument)
    ensures i.originalRequest == request && i.hashMatches && i.objective == contract.objective.text
    ensures i.criteria == WrittenCriteria(contract.criteria)
    ensures i.boundary == d.boundary && i.assumptions == d.assumptions && i.unknowns == d.unknowns
    ensures i.riskSignals == d.riskSignals && i.targets == d.targets
    ensures Intent.Texts(contract.constraints) <= i.constraints && Intent.DEFAULT_CONSTRAINT in i.constraints
    ensures Intent.Texts(contract.nonGoals) <= i.nonGoals && Intent.DEFAULT_NON_GOAL in i.nonGoals
    ensures i.sourceRefs.Keys == refs.Keys && forall p | p in refs :: i.sourceRefs[p] == [SpanOf(refs[p])]
  {
    Brief.IntentDocument(
      request, true, contract.objective.text, WrittenCriteria(contract.criteria),
      Intent.WithDefault(Intent.Texts(contract.constraints), Intent.DEFAULT_CONSTRAINT),
      Intent.WithDefault(Intent.Texts(contract.nonGoals), Intent.DEFAULT_NON_GOAL),
      d.boundary, d.assumptions, d.unknowns, d.riskSignals, d.targets,
      map p | p in refs :: [SpanOf(refs[p])])
  }

  ghost predicate AllTexts(clauses: seq<Clauses.Clause>) {
    forall c | c in clauses :: c.text != ""
  }

  lemma KeptTexts(kept: seq<Clauses.Clause>, picked: seq<Clauses.Clause>, clauses: seq<Clauses.Clause>,
                  fold: Intent.Folding, default_: string)
    requires Intent.Deduped(kept, picked, fold) && (forall c | c in picked :: c in clauses) && AllTexts(clauses)
    requires default_ != ""
    ensures Brief.StringsOk(Intent.WithDefault(Intent.Texts(kept), default_))
  {
    var texts := Intent.Texts(kept);
    forall k | 0 <= k < |texts| ensures texts[k] != "" {
      assert kept[k] in picked;
    }
  }

  lemma ContractTexts(contract: Intent.Contract, request: string, clauses: seq<Clauses.Clause>, o: nat, marks: Intent.Marks,
                      fold: Intent.Folding)
    requires Clauses.Exact(clauses, request, |request|) && Intent.ContractFor(contract, clauses, o, marks, fold)
    ensures contract.objective.text != ""
    ensures Brief.StringsOk(Intent.WithDefault(Intent.Texts(contract.constraints), Intent.DEFAULT_CONSTRAINT))
    ensures Brief.StringsOk(Intent.WithDefault(Intent.Texts(contract.nonGoals), Intent.DEFAULT_NON_GOAL))
  {
    hide Intent.Deduped, Intent.CriterionId, Intent.Texts, Intent.WithDefault, Brief.StringsOk, Intent.ClausesIn;
    assert |Intent.DEFAULT_CONSTRAINT| > 0 && |Intent.DEFAULT_NON_GOAL| > 0;
    Intent.ObjectiveIsClause(o, clauses, marks);
    assert AllTexts(clauses);
    KeptTexts(contract.constraints, Intent.Picked(clauses, o, |clauses|, Intent.Constraints, marks), clauses, fold,
              Intent.DEFAULT_CONSTRAINT);
    KeptTexts(contract.nonGoals, Intent.Picked(clauses, o, |clauses|, Intent.NonGoals, marks), clauses, fold,
              Intent.DEFAULT_NON_GOAL);
  }

  /** A compiled contract always passes the composer's validation, unless every text it would make a criterion of
      folds away. */
  lemma CompiledIntentIsOk(contract: Intent.Contract, request: string, clauses: seq<Clauses.Clause>, marks: Intent.Marks,
                           fold: Intent.Folding, refs: map<string, Clauses.Clause>, d: Details)
    requires Clauses.Exact(clauses, request, |request|) && Intent.ContractOf(contract, clauses, marks, fold)
    requires request != "" && DetailsOk(d)
    ensures Brief.IntentOk(Written(contract, request, refs, d)) <==> contract.criteria != []
  {
    hide Clauses.Exact, Intent.ContractFor, Intent.Texts, Intent.WithDefault, Brief.StringsOk;
    var o: nat :| Intent.ContractFor(contract, clauses, o, marks, fold);
    ContractTexts(contract, request, clauses, o, marks, fold);
    Intent.ListItemsBecomeCriteria(contract, request, clauses, marks, fold);
    Intent.CriteriaNumbered(contract, clauses, marks, fold);
    WrittenIsOk(contract, request, refs, d);
  }

  lemma WrittenIsOk(contract: Intent.Contract, request: string, refs: map<string, Clauses.Clause>, d: Details)
    requires request != "" && DetailsOk(d) && contract.objective.text != ""
    requires Brief.StringsOk(Intent.WithDefault(Intent.Texts(contract.constraints), Intent.DEFAULT_CONSTRAINT))
    requires Brief.StringsOk(Intent.WithDefault(Intent.Texts(contract.nonGoals), Intent.DEFAULT_NON_GOAL))
    requires forall i, j | 0 <= i < j < |contract.criteria| :: contract.criteria[i].id != contract.criteria[j].id
    requires forall k | 0 <= k < |contract.criteria| ::
               contract.criteria[k].id != "" && contract.criteria[k].clause.text != ""
    ensures Brief.IntentOk(Written(contract, request, refs, d)) <==> contract.criteria != []
  {
    hide Intent.Texts, Intent.WithDefault, Brief.StringsOk;
  }

  // ---------------------------------------------------------------- the active brief

  function Names(contract: Intent.Contract): (names: seq<string>)
    ensures |names| == |contract.criteria| && forall k | 0 <= k < |names| :: names[k] == contract.criteria[k].id
  {
    seq(|contract.criteria|, k requires 0 <= k < |contract.criteria| => contract.criteria[k].id)
  }

  function BriefNames(b: Brief.Brief): (names: seq<string>)
    ensures |names| == |b.body.criteria| && forall k | 0 <= k < |names| :: names[k] == b.body.criteria[k].id
  {
    seq(|b.body.criteria|, k requires 0 <= k < |b.body.criteria| => b.body.criteria[k].id)
  }

  predicate CanCompose(request: string, intent: Brief.IntentDocument, baseline: string) {
    !Brief.Blank(request) && Brief.IntentOk(intent) && baseline != ""
  }

  /** The active brief of an intent: it validates, says what the intent says, and approves the declared targets alone. */
  ghost predicate IsActiveBrief(b: Brief.Brief, i: Brief.IntentDocument, baseline: string) {
    && Brief.IntentOk(i) && Brief.Validates(b) && Brief.Says(b.body, i)
    && b.body.kind == Brief.Active && b.body.origins.baseline == baseline
    && b.body.scope == Brief.Scope(i.targets, i.targets, [], Brief.Constrained)
  }

  lemma ActiveNames(b: Brief.Brief, contract: Intent.Contract, request: string, refs: map<string, Clauses.Clause>, d: Details,
                    baseline: string)
    requires IsActiveBrief(b, Written(contract, request, refs, d), baseline)
    ensures BriefNames(b) == Names(contract)
  {
    hide Brief.Validates, Brief.IntentOk, Intent.Texts, Intent.WithDefault;
  }

  /** The conservative proposal of a composed brief is reconciled, re-hashed and validated. */
  method Reconciled(shadow: Brief.Brief, ghost i: Brief.IntentDocument, ghost baseline: string) returns (r: Option<Brief.Brief>)
    requires Brief.Validates(shadow) && Brief.IntentOk(i) && Brief.Preserves(shadow, i, baseline)
    ensures r.Some? && IsActiveBrief(r.value, i, baseline) && Reconciler.Accepts(shadow, r.value)
  {
    hide Brief.IntentOk;
    Reconciler.ConservativeIsAccepted(shadow);
    var proposal := Reconciler.ReconcileProposal(shadow, Reconciler.Conservative(shadow));
    if proposal.Err? { return None; }
    var active := Brief.Rehashed(proposal.value);
    if !Brief.Validates(active) { return None; }
    return Some(active);
  }

  /** Composes, reconciles and validates the active brief of a written intent. */
  method ActiveBrief(request: string, contract: Intent.Contract, refs: map<string, Clauses.Clause>, d: Details,
                     baseline: string)
    returns (brief: Option<Brief.Brief>)
    ensures brief.Some? <==> CanCompose(request, Written(contract, request, refs, d), baseline)
    ensures brief.Some? ==> IsActiveBrief(brief.value, Written(contract, request, refs, d), baseline)
  {
    hide Brief.Validates, Brief.IntentOk, Brief.Blank, Intent.Texts, Intent.WithDefault, Reconciler.Accepts, IsActiveBrief,
         Brief.Preserves;
    var composed := Brief.ComposeExecutionBrief(request, Written(contract, request, refs, d), baseline);
    if composed.Err? { return None; }
    brief := Reconciled(composed.value, Written(contract, request, refs, d), baseline);
  }

  /** Every item the active brief takes from the request refers to the very clause it comes from. */
  lemma BriefSpans(b: Brief.Brief, contract: Intent.Contract, request: string, refs: map<string, Clauses.Clause>, d: Details,
                   baseline: string)
    requires IsActiveBrief(b, Written(contract, request, refs, d), baseline) && Intent.RefsFit(refs, contract)
    ensures b.body.objective.statement == contract.objective.text
    ensures b.body.objective.refs == Some([SpanOf(contract.objective)]) && b.body.boundary.statement == d.boundary
    ensures |b.body.criteria| == |contract.criteria|
    ensures forall k | 0 <= k < |contract.criteria| ::
              && b.body.criteria[k].statement == contract.criteria[k].clause.text
              && b.body.criteria[k].refs == Some([SpanOf(contract.criteria[k].clause)])
    ensures SpansKept(b.body.constraints, contract.constraints) && SpansKept(b.body.nonGoals, contract.nonGoals)
  {
    hide Brief.Validates, Brief.IntentOk, Intent.WithDefault, Decimal, Brief.AsksAll;
    var i := Written(contract, request, refs, d);
    assert "/" + Intent.SectionName(Intent.ConstraintSection) == "/constraints";
    assert "/" + Intent.SectionName(Intent.NonGoalSection) == "/nonGoals";
    SectionSpans(b.body.constraints, i.constraints, i, contract, refs, Intent.ConstraintSection);
    SectionSpans(b.body.nonGoals, i.nonGoals, i, contract, refs, Intent.NonGoalSection);
  }

  /** The clauses come first; a default may follow. */
  ghost predicate SpansKept(ps: seq<Brief.Provenanced>, clauses: seq<Clauses.Clause>) {
    && |ps| >= |clauses|
    && forall k | 0 <= k < |clauses| :: ps[k].statement == clauses[k].text && ps[k].refs == Some([SpanOf(clauses[k])])
  }

  lemma SectionSpans(ps: seq<Brief.Provenanced>, ss: seq<string>, i: Brief.IntentDocument, contract: Intent.Contract,
                     refs: map<string, Clauses.Clause>, s: Intent.Section)
    requires Brief.IntentOk(i) && s != Intent.CriteriaSection && Intent.SectionFits(refs, contract, s)
    requires Brief.Keeps(ps, ss, Brief.UserExplicit, i, "/" + Intent.SectionName(s))
    requires Intent.Texts(Intent.SectionClauses(contract, s)) <= ss
    requires forall p | p in refs :: p in i.sourceRefs && i.sourceRefs[p] == [SpanOf(refs[p])]
    ensures SpansKept(ps, Intent.SectionClauses(contract, s))
  {
    hide Brief.IntentOk, Intent.SectionName, Decimal;
    var clauses := Intent.SectionClauses(contract, s);
    forall k | 0 <= k < |clauses| ensures ps[k].statement == clauses[k].text && ps[k].refs == Some([SpanOf(clauses[k])]) {
      assert Intent.ItemKey(s, k) == "/" + Intent.SectionName(s) + "/" + Decimal(k);
    }
  }

  // ---------------------------------------------------------------- the planner's tasks

  /** What a plan must be to be materialised: one to four tasks with ids of their own, each loadable and with paths. */
  predicate Plannable(tasks: seq<TaskBrief>) {
    && 1 <= |tasks| <= 4
    && (forall i, j | 0 <= i < j < |tasks| :: tasks[i].taskId != tasks[j].taskId)
    && (forall i | 0 <= i < |tasks| ::
          tasks[i].allowedPaths != [] && Repair.ValidBudgets(TaskExecutor.BudgetsOf(tasks[i])))
  }

  /** Takes the tasks one after the other. */
  method CheckPlan(tasks: seq<TaskBrief>) returns (ok: bool)
    ensures ok <==> Plannable(tasks)
  {
    if |tasks| < 1 || |tasks| > 4 { return false; }
    var ids: set<string> := {};
    var i := 0;
    while i < |tasks|
      invariant 0 <= i <= |tasks|
      invariant forall id :: id in ids <==> exists j | 0 <= j < i :: tasks[j].taskId == id
      invariant forall j, k | 0 <= j < k < i :: tasks[j].taskId != tasks[k].taskId
      invariant forall j | 0 <= j < i :: tasks[j].allowedPaths != [] && Repair.ValidBudgets(TaskExecutor.BudgetsOf(tasks[j]))
    {
      var task := tasks[i];
      if task.taskId in ids { return false; }
      ids := ids + {task.taskId};
      if task.maxFastAttempts < 1 || task.maxRecoveryAttempts < 0 { return false; }
      if task.allowedPaths == [] { return false; }
      i := i + 1;
    }
    return true;
  }

  /** A single task that names no criterion is linked to the single criterion there is. */
  function Materialized(tasks: seq<TaskBrief>, names: seq<string>): (linked: seq<TaskBrief>)
    ensures |linked| == |tasks|
    ensures forall i | 0 <= i < |tasks| :: linked[i] == tasks[i].(criterionIds := linked[i].criterionIds)
    ensures linked != tasks ==> |tasks| == 1 && tasks[0].criterionIds == [] && |names| == 1
    ensures |tasks| == 1 && tasks[0].criterionIds == [] && |names| == 1 ==> linked[0].criterionIds == names
  {
    if |tasks| == 1 && tasks[0].criterionIds == [] && |names| == 1 then [tasks[0].(criterionIds := names)] else tasks
  }

  /** The tasks link exactly the contract's criteria, each with a proof plan. */
  ghost predicate LinksAll(contract: Intent.Contract, tasks: seq<TaskBrief>) {
    Blueprint.Covers(Names(contract), tasks, true)
  }

  // ---------------------------------------------------------------- preparation

  datatype Prepared = Prepared(
    names: seq<string>,
    document: Brief.IntentDocument,
    brief: Brief.Brief,
    baselinePlan: Plan,
    plan: Plan,
    tasks: seq<TaskBrief>)

  datatype PrepareError =
    | CompilerBlocked
    | PlanRefused
    | PromptContractRefused
    | PlanInvalid
    | BlueprintFailed(error: Blueprint.BlueprintError)

  /** What the repository shows when authority is frozen, and what it shows once the tasks are planned. */
  datatype Repository = Repository(
    catalog: seq<seq<string>>,
    baseline: string,
    before: seq<MandatoryCheck> -> seq<EvaluatorInput>,
    after: seq<MandatoryCheck> -> seq<EvaluatorInput>)

  /** The prompt contract names a missing baseline; the compiler before it does not. */
  function BaselineOrUnknown(baseline: string): string {
    if baseline == "" then "UNKNOWN" else baseline
  }

  predicate CompilerActive(tier: L.Tier) {
    tier == L.T2 || tier == L.T3
  }

  ghost predicate IsPrepared(p: Prepared, contract: Intent.Contract, repository: Repository, tasks: seq<TaskBrief>) {
    && p.names == Names(contract) && p.tasks == Materialized(tasks, p.names) && Plannable(tasks)
    && [] !in repository.catalog
    && Compiled(p.baselinePlan, p.names, [], repository.catalog, repository.before, Some(repository.baseline), None)
    && Compiled(p.plan, p.names, p.tasks, repository.catalog, repository.after, Some(repository.baseline),
                Some(p.baselinePlan))
    && IsActiveBrief(p.brief, p.document, BaselineOrUnknown(repository.baseline)) && BriefNames(p.brief) == p.names
    && LinksAll(contract, p.tasks)
  }

  /** From a compiled intent: freezes authority, composes the active brief, takes the planner's tasks, links the second
      plan, and checks the blueprint. The brief and the blueprint are the same on every tier: where the compiler is not
      active, the prompt contract of the first role composes the brief. */
  method Prepare(request: string, contract: Intent.Contract, d: Details, repository: Repository, tier: L.Tier,
                 tasks: seq<TaskBrief>)
    returns (r: Result<Prepared, PrepareError>, refs: map<string, Clauses.Clause>)
    ensures Intent.AllResolve(refs, Intent.ContractJson(contract, map[])) && Intent.RefsFit(refs, contract)
    ensures r.Ok? <==>
              && [] !in repository.catalog
              && CanCompose(request, Written(contract, request, refs, d), BaselineOrUnknown(repository.baseline))
              && (CompilerActive(tier) ==> repository.baseline != "")
              && Plannable(tasks) && RunnableTasks(Materialized(tasks, Names(contract)))
              && LinksAll(contract, Materialized(tasks, Names(contract)))
    ensures r.Ok? ==> IsPrepared(r.value, contract, repository, tasks) && r.value.document == Written(contract, request, refs, d)
    ensures r.Err? ==>
              var document, linked := Written(contract, request, refs, d), Materialized(tasks, Names(contract));
              match r.error
              case CompilerBlocked => CompilerActive(tier) && !CanCompose(request, document, repository.baseline)
              case PlanRefused => [] in repository.catalog || !RunnableTasks(linked)
              case PromptContractRefused => !CanCompose(request, document, BaselineOrUnknown(repository.baseline))
              case PlanInvalid => !Plannable(tasks)
              case BlueprintFailed(e) => Blueprint.Lacks(e, Names(contract), linked, true)
  {
    hide Brief.Validates, Compiled, Intent.AllResolve, Intent.ContractJson, Blueprint.Covers, Blueprint.Lacks, RunnableTasks, Written,
         Plannable, Materialized, Brief.IntentOk, Brief.Blank, IsActiveBrief, Intent.RefsFit;
    refs := Intent.SourceRefs(contract, map[]);
    var names := Names(contract);
    if CompilerActive(tier) {
      var compiled := ActiveBrief(request, contract, refs, d, repository.baseline);
      if compiled.None? { return Err(CompilerBlocked), refs; }
    }
    NoTasksRun();
    var frozen := CompileVerificationPlan(names, [], repository.catalog, repository.before, Some(repository.baseline), None);
    if frozen.Err? { return Err(PlanRefused), refs; }
    var brief := ActiveBrief(request, contract, refs, d, BaselineOrUnknown(repository.baseline));
    if brief.None? { return Err(PromptContractRefused), refs; }
    ActiveNames(brief.value, contract, request, refs, d, BaselineOrUnknown(repository.baseline));
    var plannable := CheckPlan(tasks);
    if !plannable { return Err(PlanInvalid), refs; }
    var linked := Materialized(tasks, names);
    var plan := CompileVerificationPlan(names, linked, repository.catalog, repository.after, Some(repository.baseline),
                                        Some(frozen.value));
    if plan.Err? { return Err(PlanRefused), refs; }
    var checked := Blueprint.ValidateBlueprint(BriefNames(brief.value), linked, true);
    if checked.Err? { return Err(BlueprintFailed(checked.error)), refs; }
    return Ok(Prepared(names, Written(contract, request, refs, d), brief.value, frozen.value, plan.value, linked)), refs;
  }

  lemma NoTasksRun()
    ensures RunnableTasks([])
  {
  }
}
