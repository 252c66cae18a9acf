/** Checking the planner's tasks against the criteria of the execution brief. */
module Blueprint {
  import opened Common
  import opened TaskBrief

  datatype BlueprintError =
    | TaskWithoutCriterion(taskId: string)
    | CriterionUnlinked(id: string)
    | UnknownCriterion(id: string)
    | ProofPlanMissing(taskId: string)
    | ProofPlanEmpty(taskId: string)

  function Linked(tasks: seq<TaskBrief>): set<string> {
    set t, id | t in tasks && id in t.criterionIds :: id
  }

  function PostChecks(plan: ProofPlan): nat {
    plan.automated + plan.adversarial + plan.cleanup + plan.surface
  }

  predicate HasProof(task: TaskBrief) {
    task.proofPlan.Some? && PostChecks(task.proofPlan.value) > 0
  }

  /** A task has proof when some stage after its implementation has a check. */
  lemma ProofExactly(task: TaskBrief)
    ensures HasProof(task) <==>
              task.proofPlan.Some? && (task.proofPlan.value.automated > 0 || task.proofPlan.value.adversarial > 0
                                       || task.proofPlan.value.cleanup > 0 || task.proofPlan.value.surface > 0)
  {
  }

  /** Every criterion is linked to a task, every task links criteria, and only criteria that exist. */
  predicate Covers(ids: seq<string>, tasks: seq<TaskBrief>, requireProof: bool) {
    && (forall i | 0 <= i < |tasks| :: tasks[i].criterionIds != [])
    && (forall i | 0 <= i < |ids| && ids[i] != "" :: ids[i] in Linked(tasks))
    && (forall id | id in Linked(tasks) :: id in ids && id != "")
    && (requireProof ==> forall i | 0 <= i < |tasks| :: HasProof(tasks[i]))
  }

  /** What a refused plan lacks. */
  ghost predicate Lacks(e: BlueprintError, ids: seq<string>, tasks: seq<TaskBrief>, requireProof: bool) {
    match e
    case TaskWithoutCriterion(taskId) => exists t | t in tasks :: t.taskId == taskId && t.criterionIds == []
    case CriterionUnlinked(id) => id in ids && id != "" && id !in Linked(tasks)
    case UnknownCriterion(id) => id in Linked(tasks) && (id !in ids || id == "")
    case ProofPlanMissing(taskId) => requireProof && exists t | t in tasks :: t.taskId == taskId && t.proofPlan.None?
    case ProofPlanEmpty(taskId) =>
      requireProof && exists t | t in tasks :: t.taskId == taskId && t.proofPlan.Some? && PostChecks(t.proofPlan.value) == 0
  }

  method CollectLinked(tasks: seq<TaskBrief>) returns (r: Result<set<string>, BlueprintError>)
    ensures r.Ok? <==> forall i | 0 <= i < |tasks| :: tasks[i].criterionIds != []
    ensures r.Ok? ==> r.value == Linked(tasks)
    ensures r.Err? ==> forall ids, requireProof :: Lacks(r.error, ids, tasks, requireProof)
  {
    var i := 0;
    while i < |tasks|
      invariant 0 <= i <= |tasks| && forall j | 0 <= j < i :: tasks[j].criterionIds != []
    {
      if tasks[i].criterionIds == [] { return Err(TaskWithoutCriterion(tasks[i].taskId)); }
      i := i + 1;
    }
    var linked: set<string> := {};
    var k := 0;
    while k < |tasks|
      invariant 0 <= k <= |tasks| && linked == Linked(tasks[..k])
    {
      var more := tasks[..k + 1];
      assert more == tasks[..k] + [tasks[k]];
      assert forall t :: t in more <==> t in tasks[..k] || t == tasks[k];
      linked := linked + set id | id in tasks[k].criterionIds;
      k := k + 1;
    }
    assert tasks[..k] == tasks;
    return Ok(linked);
  }

  method CheckProofs(tasks: seq<TaskBrief>) returns (r: Result<(), BlueprintError>)
    ensures r.Ok? <==> forall i | 0 <= i < |tasks| :: HasProof(tasks[i])
    ensures r.Err? ==> forall ids :: Lacks(r.error, ids, tasks, true)
  {
    var i := 0;
    while i < |tasks|
      invariant 0 <= i <= |tasks| && forall j | 0 <= j < i :: HasProof(tasks[j])
    {
      if tasks[i].proofPlan.None? { return Err(ProofPlanMissing(tasks[i].taskId)); }
      if PostChecks(tasks[i].proofPlan.value) == 0 { return Err(ProofPlanEmpty(tasks[i].taskId)); }
      i := i + 1;
    }
    return Ok(());
  }

  method ValidateBlueprint(ids: seq<string>, tasks: seq<TaskBrief>, requireProof: bool)
    returns (r: Result<(), BlueprintError>)
    ensures r.Ok? <==> Covers(ids, tasks, requireProof)
    ensures r.Err? ==> Lacks(r.error, ids, tasks, requireProof)
  {
    var collected := CollectLinked(tasks);
    if collected.Err? { return Err(collected.error); }
    var linked := collected.value;
    var i := 0;
    while i < |ids|
      invariant 0 <= i <= |ids| && forall j | 0 <= j < i && ids[j] != "" :: ids[j] in linked
    {
      if ids[i] != "" && ids[i] !in linked { return Err(CriterionUnlinked(ids[i])); }
      i := i + 1;
    }
    if id :| id in linked && (id !in ids || id == "") { return Err(UnknownCriterion(id)); }
    if !requireProof { return Ok(()); }
    r := CheckProofs(tasks);
  }
}
