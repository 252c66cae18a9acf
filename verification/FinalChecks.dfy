/** The kernel's last checks: what it runs for all tasks together, and the report it makes of what happened. */
module FinalChecks {
  import opened Common
  import opened TaskBrief
  import opened VerificationPlan
  import DiffGuard

  /** What running one command came to, and where its output is. */
  datatype Ran = Ran(exitedZero: bool, stdoutRef: Path, stderrRef: Path)

  /** The merged report of required checks and post-implementation proofs; the merge keeps no repository. */
  type FinalReport = r: Report | r.repository == None witness Report(ReportPass, [], None)

  function ItemOf(check: CheckSpec, ran: Ran): (item: CheckItem)
    ensures item.command == check.command && item.passed == ran.exitedZero
    ensures item.stdoutRef == ran.stdoutRef && item.stderrRef == ran.stderrRef
  {
    CheckItem(check.command, ran.exitedZero, ran.stdoutRef, ran.stderrRef)
  }

  function ItemsOf(required: seq<CheckSpec>, ran: nat -> Ran): (items: seq<CheckItem>)
    ensures |items| == |required| && forall i | 0 <= i < |items| :: items[i] == ItemOf(required[i], ran(i))
  {
    seq(|required|, i requires 0 <= i < |required| => ItemOf(required[i], ran(i)))
  }

  predicate AllPassed(items: seq<CheckItem>) {
    forall i | 0 <= i < |items| :: items[i].passed
  }

  /** The report passes exactly when every required command exited with zero and every proof passed. */
  function Merged(required: seq<CheckSpec>, ran: nat -> Ran, proofs: seq<CheckItem>): (r: FinalReport)
    ensures r.verdict == ReportPass <==> AllPassed(r.items)
    ensures forall c | c in required :: exists k | 0 <= k < |r.items| :: r.items[k].command == c.command
  {
    var items := ItemsOf(required, ran) + proofs;
    assert forall i | 0 <= i < |required| :: items[i].command == required[i].command;
    Report(if AllPassed(items) then ReportPass else ReportFail, items, None)
  }

  /** Runs the required commands one after the other. */
  method RunChecks(required: seq<CheckSpec>, ran: nat -> Ran) returns (items: seq<CheckItem>, passed: bool)
    ensures items == ItemsOf(required, ran) && passed == AllPassed(items)
  {
    items, passed := [], true;
    var i := 0;
    while i < |required|
      invariant 0 <= i <= |required| && |items| == i
      invariant forall j | 0 <= j < i :: items[j] == ItemOf(required[j], ran(j))
      invariant passed == AllPassed(items)
    {
      var outcome := ran(i);
      items := items + [ItemOf(required[i], outcome)];
      passed := passed && outcome.exitedZero;
      i := i + 1;
    }
  }

  /** Runs the required checks and merges them with the proofs. */
  method RunFinalChecks(required: seq<CheckSpec>, ran: nat -> Ran, proofs: seq<CheckItem>) returns (r: FinalReport)
    ensures r == Merged(required, ran, proofs)
  {
    var items, passed := RunChecks(required, ran);
    var all := items + proofs;
    assert AllPassed(all) <==> passed && AllPassed(proofs) by {
      assert forall i | 0 <= i < |items| :: all[i] == items[i];
      assert forall i | 0 <= i < |proofs| :: all[i + |items|] == proofs[i];
    }
    return Report(if passed && AllPassed(proofs) then ReportPass else ReportFail, all, None);
  }

  // ---------------------------------------------------------------- what is required

  /** The checks hold every check of every task, and every runnable command of the frozen plan. */
  ghost predicate RequiresAll(required: seq<CheckSpec>, tasks: seq<TaskBrief>, plan: Plan) {
    && (forall t, c | t in tasks && c in t.requiredChecks :: c in required)
    && RequiresMandatory(required, plan)
  }

  ghost predicate RequiresMandatory(required: seq<CheckSpec>, plan: Plan) {
    Requires(required, plan.body.mandatory, |plan.body.mandatory|)
  }

  /** What the kernel runs for all tasks together: the aggregate's checks and the mandatory ones. */
  method FinalRequired(tasks: seq<TaskBrief>, plan: Plan, order: set<string> -> seq<string>)
    returns (required: Option<seq<CheckSpec>>)
    requires DiffGuard.Lists(order)
    ensures required.Some? <==> tasks != [] && RunnableTasks(tasks)
    ensures required.Some? ==> RequiresAll(required.value, tasks, plan)
  {
    var all := DiffGuard.AggregateTask(tasks, order);
    if all.None? { return None; }
    assert forall c :: c in all.value.requiredChecks <==> exists t | t in tasks :: c in t.requiredChecks;
    var extended := WithMandatoryChecks(all.value, plan);
    RunnableIff(all.value.requiredChecks, tasks);
    if extended.Err? { return None; }
    forall t, c | t in tasks && c in t.requiredChecks ensures c in extended.value.requiredChecks {
      assert c in all.value.requiredChecks;
    }
    return Some(extended.value.requiredChecks);
  }

  lemma RunnableIff(checks: seq<CheckSpec>, tasks: seq<TaskBrief>)
    requires forall c :: c in checks <==> exists t | t in tasks :: c in t.requiredChecks
    ensures RunnableTasks(tasks) <==> forall c | c in checks :: c.command != []
  {
  }

  // ---------------------------------------------------------------- what a passing report proves

  /** A passing final report opens the gate of an authentic plan: it proves exactly the criteria the plan links, and if
      there is any authority at all, every mandatory check passed in it. */
  lemma PassingReportProves(required: seq<CheckSpec>, ran: nat -> Ran, proofs: seq<CheckItem>, plan: Plan)
    requires Authentic(plan.body.mandatory) && RequiresMandatory(required, plan)
    requires Merged(required, ran, proofs).verdict == ReportPass
    requires AuthoritativePassedCriteria(plan, Merged(required, ran, proofs)).Ok?
    ensures AuthoritativePassedCriteria(plan, Merged(required, ran, proofs)) == Ok(CriteriaOf(plan.body.mandatory))
    ensures plan.body.mandatory != [] ==> MandatoryChecksPassed(plan, Merged(required, ran, proofs))
  {
    hide CommandDigest, Authentic, Requires, MandatoryChecksPassed;
    var report := Merged(required, ran, proofs);
    if plan.body.mandatory != [] {
      GatesAgree(plan, report);
      PassingReportOpensGate(plan, report, required);
    } else {
      NoCriteria(plan.body.mandatory);
    }
  }

  lemma NoCriteria(m: seq<MandatoryCheck>)
    requires m == []
    ensures CriteriaOf(m) == {}
  {
  }
}
