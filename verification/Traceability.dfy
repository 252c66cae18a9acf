/** From the lines of the request to the checks that proved them. */
module Traceability {
  import opened Common
  import Text
  import Clauses
  import Intent
  import Blueprint
  import opened Preparation
  import opened ProofGraph
  import opened VerificationPlan
  import opened TaskBrief
  import opened Documents
  import opened Assurance
  import opened Truth
  import opened ObligationLifecycle
  import opened ObligationClosure
  import opened FinalReview
  import opened LiveEvidence
  import Repair
  import TaskExecutor
  import DiffGuard
  import opened Kernel

  /** A criterion's id is never mistaken for an obligation of the kernel's own. */
  lemma CriterionIsNamed(index: nat)
    ensures IdOf(Intent.CriterionId(index)) == Named(Intent.CriterionId(index)) && Intent.CriterionId(index) != ""
  {
    hide Text.Padded;
    var id := Intent.CriterionId(index);
    assert id[0] == 'A';
  }

  /** What a run's proof rests on: the world of its final cycles, the plan, the tasks, the catalogue frozen before any
      change, and the accepted cycle. */
  datatype Ground = Ground(world: World, plan: Plan, tasks: seq<TaskBrief>, catalog: seq<seq<string>>, cycle: nat)

  /** In the accepted cycle every mandatory check passed, and one of them answers for this criterion: a task that names
      the criterion itself required it, and its command is the repository's own. */
  ghost predicate ProvedByTask(name: string, on: Ground) {
    exists i, t, c, k :: ProvedAt(name, on, i, t, c, k)
  }

  ghost predicate ProvedAt(name: string, on: Ground, i: int, t: int, c: int, k: int) {
    var report := on.world.checks(on.cycle);
    && CyclePassed(on.world, on.cycle, on.plan) && MandatoryChecksPassed(on.plan, report)
    && 0 <= i < |on.plan.body.mandatory| && 0 <= t && 0 <= c
    && LinkedAt(on.tasks, on.plan.body.mandatory[i].digest, name, t, c)
    && on.plan.body.mandatory[i].command in on.catalog
    && 0 <= k < |report.items| && report.items[k].passed
    && CommandDigest(report.items[k].command) == on.plan.body.mandatory[i].digest
  }

  lemma PreparedAuthority(p: Prepared, contract: Intent.Contract, repository: Repository, tasks: seq<TaskBrief>)
    requires IsPrepared(p, contract, repository, tasks)
    ensures LinksExactly(p.plan.body.mandatory, p.tasks) && Authentic(p.plan.body.mandatory)
    ensures forall i | 0 <= i < |p.plan.body.mandatory| :: p.plan.body.mandatory[i].command in repository.catalog
    ensures |p.plan.body.mandatory| == |repository.catalog|
    ensures forall i | 0 <= i < |p.plan.body.mandatory| ::
              p.plan.body.mandatory[i].digest == CommandDigest(repository.catalog[i])
    ensures p.plan.body.evaluatorInputs == repository.before(FromCatalog(repository.catalog))
    ensures p.plan.hash == PlanHashOf(p.plan.body)
  {
    hide Authentic, LinksExactly, CommandDigest, LinksAll, Plannable, Materialized;
    FrozenAuthority(p.baselinePlan, p.plan, p.names, p.names, p.tasks, repository.catalog, repository.catalog,
                    repository.before, repository.after, Some(repository.baseline), Some(repository.baseline));
    PlanLinks(p.plan, p.names, p.tasks, repository.catalog, repository.after, Some(repository.baseline),
              Some(p.baselinePlan));
  }

  lemma PlanLinks(p: Plan, names: seq<string>, tasks: seq<TaskBrief>, catalog: seq<seq<string>>,
                  prints: seq<MandatoryCheck> -> seq<EvaluatorInput>, commit: Option<string>, baselinePlan: Option<Plan>)
    requires Compiled(p, names, tasks, catalog, prints, commit, baselinePlan)
    ensures LinksExactly(p.body.mandatory, tasks) && p.hash == PlanHashOf(p.body)
  {
  }

  /** A criterion the gate passed goes back to a task and to a command of the frozen catalogue. */
  lemma GateReachesTask(name: string, on: Ground)
    requires IdOf(name) == Named(name) && PassedAt(Named(name), on.world, on.plan, on.cycle)
    requires LinksExactly(on.plan.body.mandatory, on.tasks) && Authentic(on.plan.body.mandatory)
    requires forall i | 0 <= i < |on.plan.body.mandatory| :: on.plan.body.mandatory[i].command in on.catalog
    ensures ProvedByTask(name, on)
  {
    PassedCyclePassed(name, on);
    hide LinksExactly, Authentic, PassedAt, LinkedAt, CommandDigest, CyclePassed, MandatoryChecksPassed, IdOf;
    CriterionReachesTask(name, on.world, on.plan, on.tasks, on.cycle);
    var report := on.world.checks(on.cycle);
    var i: int, t: nat, c: nat, k: int :|
      0 <= i < |on.plan.body.mandatory|
      && LinkedAt(on.tasks, on.plan.body.mandatory[i].digest, name, t, c)
      && 0 <= k < |report.items| && report.items[k].passed
      && CommandDigest(report.items[k].command) == on.plan.body.mandatory[i].digest;
    assert ProvedAt(name, on, i, t, c, k);
  }

  lemma PassedCyclePassed(name: string, on: Ground)
    requires PassedAt(Named(name), on.world, on.plan, on.cycle)
    ensures CyclePassed(on.world, on.cycle, on.plan)
  {
  }

  // ---------------------------------------------------------------- which criteria a plan can prove

  /** Some task that names this criterion itself requires a command of the catalogue. */
  predicate TaskProves(tasks: seq<TaskBrief>, catalog: seq<seq<string>>, name: string) {
    exists t, c, j | 0 <= t < |tasks| && 0 <= c < |tasks[t].requiredChecks| && 0 <= j < |catalog| ::
      name in tasks[t].criterionIds && CommandDigest(tasks[t].requiredChecks[c].command) == CommandDigest(catalog[j])
  }

  lemma OwnerExists(m: seq<MandatoryCheck>, j: nat)
    requires j < |m|
    ensures exists i :: j <= i < |m| && Owns(m, i) && m[i].digest == m[j].digest
    decreases |m| - j
  {
    if k :| j < k < |m| && m[k].digest == m[j].digest {
      OwnerExists(m, k);
    } else {
      assert Owns(m, j);
    }
  }

  lemma LinkedMeansTask(m: seq<MandatoryCheck>, tasks: seq<TaskBrief>, catalog: seq<seq<string>>, name: string)
    requires LinksExactly(m, tasks) && |m| == |catalog| && name != ""
    requires forall i | 0 <= i < |m| :: m[i].digest == CommandDigest(catalog[i])
    ensures name in CriteriaOf(m) <==> TaskProves(tasks, catalog, name)
  {
    hide CommandDigest, LinksExactly, Owns;
    if name in CriteriaOf(m) {
      var i: nat :| i < |m| && name in m[i].criterionIds;
      LinkAt(m, tasks, i, name);
      var t, c :| 0 <= t < |tasks| && 0 <= c < |tasks[t].requiredChecks| && LinkedAt(tasks, m[i].digest, name, t, c);
    }
    if TaskProves(tasks, catalog, name) {
      var t, c, j :| 0 <= t < |tasks| && 0 <= c < |tasks[t].requiredChecks| && 0 <= j < |catalog| &&
                     name in tasks[t].criterionIds &&
                     CommandDigest(tasks[t].requiredChecks[c].command) == CommandDigest(catalog[j]);
      OwnerExists(m, j);
      var i :| j <= i < |m| && Owns(m, i) && m[i].digest == m[j].digest;
      assert LinkedAt(tasks, m[i].digest, name, t, c);
      LinkAt(m, tasks, i, name);
    }
  }

  lemma LinkAt(m: seq<MandatoryCheck>, tasks: seq<TaskBrief>, i: nat, name: string)
    requires LinksExactly(m, tasks) && i < |m|
    ensures name in m[i].criterionIds <==> Owns(m, i) && Linked(tasks, m[i].digest, name)
  {
  }

  /** A prepared plan can prove exactly the criteria that a task names and checks by a catalogue command. */
  lemma PlanProvesTasks(p: Prepared, contract: Intent.Contract, repository: Repository, tasks: seq<TaskBrief>, k: nat)
    requires IsPrepared(p, contract, repository, tasks) && k < |contract.criteria|
    requires contract.criteria[k].id == Intent.CriterionId(k)
    ensures Named(contract.criteria[k].id) in Provable(p.plan) <==>
              TaskProves(p.tasks, repository.catalog, contract.criteria[k].id)
  {
    hide LinksAll, Plannable, Materialized, Compiled, Authentic, LinksExactly, Intent.CriterionId, CommandDigest, CriteriaOf,
         TaskProves;
    var name := contract.criteria[k].id;
    PreparedAuthority(p, contract, repository, tasks);
    CriterionIsNamed(k);
    LinkedMeansTask(p.plan.body.mandatory, p.tasks, repository.catalog, name);
    if Named(name) in Provable(p.plan) {
      var other :| other in CriteriaOf(p.plan.body.mandatory) && IdOf(other) == Named(name);
      assert other == name;
    }
  }

  /** The setup of a run is what preparation made of the contract. */
  predicate SetUpFrom(setup: Setup, p: Prepared) {
    setup.criteria == IdsOf(p.names) && setup.plan == p.plan && setup.tasks == p.tasks
  }

  /** This criterion has the line's text, and was proved through a task that names it. */
  ghost predicate LineProved(text: string, fold: Intent.Folding, contract: Intent.Contract, on: Ground) {
    exists k :: 0 <= k < |contract.criteria| && fold(contract.criteria[k].clause.text) == fold(text)
                && ProvedByTask(contract.criteria[k].id, on)
  }

  /** The text of a list item of the request: its line without white space around it and without its marker. */
  function ItemText(line: string, space: Clauses.Spaces): string {
    var stripped := Clauses.Strip(Clauses.Content(line), space);
    Clauses.Strip(stripped[Clauses.MarkerLength(stripped, space)..], space)
  }

  predicate IsItem(line: string, space: Clauses.Spaces) {
    var stripped := Clauses.Strip(Clauses.Content(line), space);
    stripped != [] && Clauses.IsListItem(stripped, space)
  }

  lemma CoveredItem(clauses: seq<Clauses.Clause>, lines: seq<string>, n: nat, space: Clauses.Spaces)
    requires n < |lines| && Clauses.ItemCovered(clauses, lines, n, space) && IsItem(lines[n], space)
    ensures exists c :: c in clauses && c.listed && c.text == ItemText(lines[n], space)
  {
  }

  /** Everything a run starts from, made of the raw request. */
  ghost predicate Started(request: string, space: Clauses.Spaces, clauses: seq<Clauses.Clause>, marks: Intent.Marks,
                          fold: Intent.Folding, contract: Intent.Contract, repository: Repository, tasks: seq<TaskBrief>,
                          p: Prepared)
  {
    && Clauses.Exact(clauses, request, |request|) && Intent.ContractOf(contract, clauses, marks, fold)
    && (forall n | 0 <= n < |Clauses.SplitLines(request)| ::
          Clauses.ItemCovered(clauses, Clauses.SplitLines(request), n, space))
    && IsPrepared(p, contract, repository, tasks)
  }

  lemma NumberedNames(contract: Intent.Contract, names: seq<string>, k: nat)
    requires names == Names(contract) && k < |names| && contract.criteria[k].id == Intent.CriterionId(k)
    ensures IdsOf(names)[k] == Named(contract.criteria[k].id)
  {
    CriterionIsNamed(k);
  }

  /** The criteria of a compiled intent are never named like the kernel's obligations, nor like each other. */
  lemma CriteriaApart(contract: Intent.Contract)
    requires forall k | 0 <= k < |contract.criteria| :: contract.criteria[k].id == Intent.CriterionId(k)
    ensures NamedApart(IdsOf(Names(contract)))
  {
    hide Intent.CriterionId, IdOf;
    var ids := IdsOf(Names(contract));
    forall k | 0 <= k < |ids| ensures ids[k] == Named(Intent.CriterionId(k)) {
      NumberedNames(contract, Names(contract), k);
    }
    forall i, j | 0 <= i < j < |ids| ensures ids[i] != ids[j] {
      if ids[i] == ids[j] { Intent.CriterionIdsDiffer(i, j); }
    }
  }

  /** What the proof of a run rests on. */
  function GroundOf(h: History, setup: Setup, repository: Repository): Ground {
    Ground(h.world, setup.plan, setup.tasks, repository.catalog, h.accepted.cycle)
  }

  predicate IdsInOrder(contract: Intent.Contract) {
    forall k | 0 <= k < |contract.criteria| :: contract.criteria[k].id == Intent.CriterionId(k)
  }

  ghost predicate EveryCriterionProved(contract: Intent.Contract, on: Ground) {
    forall k | 0 <= k < |contract.criteria| :: ProvedByTask(contract.criteria[k].id, on)
  }

  /** The plan's authority, as far as the run needs it. */
  ghost predicate Founded(plan: Plan, tasks: seq<TaskBrief>, catalog: seq<seq<string>>) {
    && LinksExactly(plan.body.mandatory, tasks) && Authentic(plan.body.mandatory)
    && forall i | 0 <= i < |plan.body.mandatory| :: plan.body.mandatory[i].command in catalog
  }

  lemma PreparedIsFounded(p: Prepared, contract: Intent.Contract, repository: Repository, tasks: seq<TaskBrief>)
    requires IsPrepared(p, contract, repository, tasks)
    ensures Founded(p.plan, p.tasks, repository.catalog) && p.names == Names(contract)
  {
    PreparedAuthority(p, contract, repository, tasks);
    hide LinksExactly, Authentic, Compiled, LinksAll, Plannable, Materialized, IsActiveBrief;
  }

  lemma CriterionProved(id: string, k: nat, criteria: seq<ObligationId>, on: Ground)
    requires id == Intent.CriterionId(k) && IdOf(id) in criteria && Founded(on.plan, on.tasks, on.catalog)
    requires forall c | c in criteria && c.Named? :: PassedAt(c, on.world, on.plan, on.cycle)
    ensures ProvedByTask(id, on)
  {
    CriterionIsNamed(k);
    hide Intent.CriterionId, IdOf, PassedAt, LinksExactly, Authentic, ProvedByTask;
    GateReachesTask(id, on);
  }

  lemma AllCriteriaProved(h: History, setup: Setup, env: Environment, files: Files, p: Prepared, contract: Intent.Contract,
                          repository: Repository, tasks: seq<TaskBrief>)
    requires Shows(env.view) && ReachedGate(h, setup, env, files)
    requires TruthProven(files, true, env.view, env.size, env.repository) && IsObject(files, INTENT)
    requires IsPrepared(p, contract, repository, tasks) && SetUpFrom(setup, p) && IdsInOrder(contract)
    ensures EveryCriterionProved(contract, GroundOf(h, setup, repository))
  {
    hide Shows, ReachedGate, TruthProven, Intent.CriterionId, PassedAt, ProvenRun, IdOf, ProvedByTask, IsObject, IsPrepared,
         LinksExactly, Authentic;
    PreparedIsFounded(p, contract, repository, tasks);
    ProvenMeans(h, setup, env, files);
    forall k | 0 <= k < |contract.criteria| ensures ProvedByTask(contract.criteria[k].id, GroundOf(h, setup, repository)) {
      assert setup.criteria[k] == IdOf(contract.criteria[k].id);
      CriterionProved(contract.criteria[k].id, k, setup.criteria, GroundOf(h, setup, repository));
    }
  }

  /** Every list item of the request (whose text does not fold away) was proved through a task of its own. */
  ghost predicate EveryItemProved(request: string, space: Clauses.Spaces, fold: Intent.Folding, contract: Intent.Contract,
                                  on: Ground)
  {
    forall n | 0 <= n < |Clauses.SplitLines(request)| ::
      var line := Clauses.SplitLines(request)[n];
      IsItem(line, space) && fold(ItemText(line, space)) != "" ==>
        LineProved(ItemText(line, space), fold, contract, on)
  }

  /** The tasks name every criterion of the request and no other. */
  ghost predicate LinkedExactly(contract: Intent.Contract, tasks: seq<TaskBrief>) {
    forall id :: id in Blueprint.Linked(tasks) <==> id in Names(contract)
  }

  lemma EveryItem(request: string, space: Clauses.Spaces, clauses: seq<Clauses.Clause>, marks: Intent.Marks,
                  fold: Intent.Folding, contract: Intent.Contract, on: Ground)
    requires Clauses.Exact(clauses, request, |request|) && Intent.ContractOf(contract, clauses, marks, fold)
    requires forall n | 0 <= n < |Clauses.SplitLines(request)| ::
               Clauses.ItemCovered(clauses, Clauses.SplitLines(request), n, space)
    requires forall k | 0 <= k < |contract.criteria| :: ProvedByTask(contract.criteria[k].id, on)
    ensures EveryItemProved(request, space, fold, contract, on)
  {
    hide Clauses.Exact, Intent.ContractOf, Clauses.ItemCovered, Clauses.SplitLines, ProvedByTask, IsItem, ItemText;
    Intent.ListItemsBecomeCriteria(contract, request, clauses, marks, fold);
    var lines := Clauses.SplitLines(request);
    forall n | 0 <= n < |lines| && IsItem(lines[n], space) && fold(ItemText(lines[n], space)) != ""
      ensures LineProved(ItemText(lines[n], space), fold, contract, on)
    {
      CoveredItem(clauses, lines, n, space);
      var c :| c in clauses && c.listed && c.text == ItemText(lines[n], space);
    }
  }

  lemma NamesLinked(contract: Intent.Contract, tasks: seq<TaskBrief>)
    requires LinksAll(contract, tasks)
    requires forall k | 0 <= k < |contract.criteria| :: contract.criteria[k].id == Intent.CriterionId(k)
    ensures LinkedExactly(contract, tasks)
  {
    hide Intent.CriterionId, Blueprint.Linked;
    var names := Names(contract);
    forall k | 0 <= k < |names| ensures names[k] != "" {
      CriterionIsNamed(k);
    }
  }

  lemma StartedLinks(request: string, space: Clauses.Spaces, clauses: seq<Clauses.Clause>, marks: Intent.Marks,
                     fold: Intent.Folding, contract: Intent.Contract, repository: Repository, tasks: seq<TaskBrief>,
                     p: Prepared)
    requires Started(request, space, clauses, marks, fold, contract, repository, tasks, p)
    ensures LinkedExactly(contract, p.tasks) && NamedApart(IdsOf(p.names))
  {
    hide Clauses.Exact, Intent.ContractOf, Clauses.ItemCovered, Clauses.SplitLines, Compiled, Plannable, Materialized,
         Intent.CriterionId, LinkedExactly, LinksAll, NamedApart;
    Intent.CriteriaNumbered(contract, clauses, marks, fold);
    NamesLinked(contract, p.tasks);
    CriteriaApart(contract);
  }

  /** On every tier, the tasks of a started run name every criterion of the request and no other. If the run ends PROVEN,
      its intent contract still in place, then every list item of the raw request has an acceptance criterion with the
      same folded text, and that criterion was passed, in the accepted cycle, in which all mandatory checks passed, through
      a command of the catalogue frozen before any change, which a task naming the criterion itself required. */
  lemma RequestIsTraced(request: string, space: Clauses.Spaces, clauses: seq<Clauses.Clause>, marks: Intent.Marks,
                        fold: Intent.Folding, contract: Intent.Contract, repository: Repository, tasks: seq<TaskBrief>,
                        p: Prepared, setup: Setup, env: Environment, h: History, files: Files)
    requires Started(request, space, clauses, marks, fold, contract, repository, tasks, p) && SetUpFrom(setup, p)
    requires Shows(env.view) && ReachedGate(h, setup, env, files)
    ensures LinkedExactly(contract, setup.tasks)
    ensures TruthProven(files, true, env.view, env.size, env.repository) && IsObject(files, INTENT) ==>
              EveryItemProved(request, space, fold, contract, GroundOf(h, setup, repository))
  {
    hide Clauses.Exact, Intent.ContractOf, Clauses.ItemCovered, Clauses.SplitLines, Shows, ReachedGate, TruthProven,
         Intent.CriterionId, ProvedByTask, EveryItemProved, LinkedExactly, IsPrepared, IsObject;
    StartedLinks(request, space, clauses, marks, fold, contract, repository, tasks, p);
    Intent.CriteriaNumbered(contract, clauses, marks, fold);
    if TruthProven(files, true, env.view, env.size, env.repository) && IsObject(files, INTENT) {
      AllCriteriaProved(h, setup, env, files, p, contract, repository, tasks);
      EveryItem(request, space, clauses, marks, fold, contract, GroundOf(h, setup, repository));
    }
  }

  /** Every criterion of the request is named by a task that itself requires a command of the catalogue. */
  predicate EveryCriterionChecked(contract: Intent.Contract, tasks: seq<TaskBrief>, catalog: seq<seq<string>>) {
    forall k | 0 <= k < |contract.criteria| :: TaskProves(tasks, catalog, contract.criteria[k].id)
  }

  lemma CheckedIffProvable(contract: Intent.Contract, repository: Repository, tasks: seq<TaskBrief>, p: Prepared, setup: Setup)
    requires IsPrepared(p, contract, repository, tasks) && SetUpFrom(setup, p)
    requires forall k | 0 <= k < |contract.criteria| :: contract.criteria[k].id == Intent.CriterionId(k)
    ensures (forall id | id in setup.criteria :: id in Provable(setup.plan)) <==>
              EveryCriterionChecked(contract, p.tasks, repository.catalog)
  {
    hide IsPrepared, Provable, TaskProves, Intent.CriterionId, IdOf;
    PreparedNames(p, contract, repository, tasks);
    forall k | 0 <= k < |contract.criteria|
      ensures k < |setup.criteria| && setup.criteria[k] == Named(contract.criteria[k].id)
      ensures setup.criteria[k] in Provable(setup.plan) <==> TaskProves(p.tasks, repository.catalog, contract.criteria[k].id)
    {
      NumberedNames(contract, p.names, k);
      PlanProvesTasks(p, contract, repository, tasks, k);
    }
    forall k | 0 <= k < |setup.criteria| ensures setup.criteria[k] in setup.criteria {
    }
  }

  lemma PreparedNames(p: Prepared, contract: Intent.Contract, repository: Repository, tasks: seq<TaskBrief>)
    requires IsPrepared(p, contract, repository, tasks)
    ensures p.names == Names(contract)
  {
  }

  /** Exactly when a started run that reached the gate ends PROVEN: its reports hold and, if the intent contract is in
      place, so is the prompt compilation, the review was independent, and every criterion is checked by a task. A
      criterion that no task naming it checks by a catalogue command keeps the run from PROVEN, whatever passed. */
  lemma RequestProvenExactly(request: string, space: Clauses.Spaces, clauses: seq<Clauses.Clause>, marks: Intent.Marks,
                             fold: Intent.Folding, contract: Intent.Contract, repository: Repository, tasks: seq<TaskBrief>,
                             p: Prepared, setup: Setup, env: Environment, h: History, files: Files)
    requires Started(request, space, clauses, marks, fold, contract, repository, tasks, p) && SetUpFrom(setup, p)
    requires Shows(env.view) && ReachedGate(h, setup, env, files)
    ensures TruthProven(files, true, env.view, env.size, env.repository) <==>
              && ReportsHold(h, setup, env, files)
              && (IsObject(files, INTENT) ==>
                    && Document(files, PROMPT).Some? && !h.accepted.review.fastLane
                    && EveryCriterionChecked(contract, setup.tasks, repository.catalog))
  {
    hide Clauses.Exact, Intent.ContractOf, Clauses.ItemCovered, Clauses.SplitLines, Shows, ReachedGate, TruthProven,
         Intent.CriterionId, IsPrepared, IsObject, Document, ReportsHold, EveryCriterionChecked, Provable, NamedApart, Authentic,
         LinkedExactly, LinksExactly, IdsOf;
    StartedLinks(request, space, clauses, marks, fold, contract, repository, tasks, p);
    Intent.CriteriaNumbered(contract, clauses, marks, fold);
    PreparedAuthority(p, contract, repository, tasks);
    CheckedIffProvable(contract, repository, tasks, p, setup);
    ProvenExactly(h, setup, env, files);
  }

  /** In an honest environment all of it but the review can be told before the tasks run: there is a catalogue, it names no
      evaluator file, and every criterion is checked by a task. */
  lemma HonestRequestIsProven(request: string, space: Clauses.Spaces, clauses: seq<Clauses.Clause>, marks: Intent.Marks,
                              fold: Intent.Folding, contract: Intent.Contract, repository: Repository, tasks: seq<TaskBrief>,
                              p: Prepared, setup: Setup, env: Environment, h: History, files: Files)
    requires Started(request, space, clauses, marks, fold, contract, repository, tasks, p) && SetUpFrom(setup, p)
    requires Shows(env.view) && ReachedGate(h, setup, env, files)
    requires Sealable(h.accepted.seal, h.world, h.accepted.cycle) && HonestEnd(h.accepted, h.world, setup.plan, env)
    ensures TruthProven(files, true, env.view, env.size, env.repository) <==>
              && repository.catalog != [] && repository.before(FromCatalog(repository.catalog)) == []
              && (IsObject(files, INTENT) ==>
                    !h.accepted.review.fastLane && EveryCriterionChecked(contract, setup.tasks, repository.catalog))
  {
    hide Clauses.Exact, Intent.ContractOf, Clauses.ItemCovered, Clauses.SplitLines, Shows, ReachedGate, TruthProven,
         Intent.CriterionId, IsPrepared, IsObject, Sealable, HonestEnd, EveryCriterionChecked, Provable, NamedApart, Authentic,
         LinkedExactly, LinksExactly, IdsOf;
    StartedLinks(request, space, clauses, marks, fold, contract, repository, tasks, p);
    Intent.CriteriaNumbered(contract, clauses, marks, fold);
    PreparedAuthority(p, contract, repository, tasks);
    CheckedIffProvable(contract, repository, tasks, p, setup);
    HonestRunIsProven(h, setup, env, files);
  }

  // ---------------------------------------------------------------- the whole run, from the raw request on

  datatype RequestFailure =
    | IntentRefused(intent: Intent.IntentError)
    | NotPrepared(prepare: PrepareError)
    | RunFailed(run: RunFailure)

  /** How a run is configured. */
  datatype Configuration = Configuration(
    strategy: Strategy,
    goalMode: bool,
    maxGoalCycles: nat,
    maxReplans: nat,
    runName: string)

  /** What a run starts from. */
  datatype Start = Start(contract: Intent.Contract, prepared: Prepared)

  function SetupOf(p: Prepared, c: Configuration): (setup: Setup)
    ensures SetUpFrom(setup, p)
  {
    Setup(IdsOf(p.names), c.strategy, p.plan, p.tasks, c.goalMode, c.maxGoalCycles, c.maxReplans, c.runName)
  }

  lemma BudgetsOfPrepared(p: Prepared, contract: Intent.Contract, repository: Repository, tasks: seq<TaskBrief>)
    requires IsPrepared(p, contract, repository, tasks)
    ensures forall i | 0 <= i < |p.tasks| :: Repair.ValidBudgets(TaskExecutor.BudgetsOf(p.tasks[i]))
  {
    hide Compiled, LinksAll;
    forall i | 0 <= i < |p.tasks| ensures TaskExecutor.BudgetsOf(p.tasks[i]) == TaskExecutor.BudgetsOf(tasks[i]) {
    }
  }

  /** The intent contract on file is what was compiled, with a reference for every item. */
  ghost predicate Documented(start: Start, request: string, d: Details) {
    exists refs :: Intent.RefsFit(refs, start.contract) && start.prepared.document == Written(start.contract, request, refs, d)
  }

  /** The active brief of a started run says what the request says: its objective, criteria, constraints and non-goals are
      clauses of the request, each with its own span, and its boundary is the one that was given. */
  lemma BriefSaysTheRequest(start: Start, request: string, d: Details, repository: Repository, tasks: seq<TaskBrief>)
    requires Documented(start, request, d) && IsPrepared(start.prepared, start.contract, repository, tasks)
    ensures var body := start.prepared.brief.body;
            && body.objective.statement == start.contract.objective.text
            && body.objective.refs == Some([SpanOf(start.contract.objective)])
            && body.boundary.statement == d.boundary
            && |body.criteria| == |start.contract.criteria|
            && (forall k | 0 <= k < |body.criteria| ::
                  && body.criteria[k].statement == start.contract.criteria[k].clause.text
                  && body.criteria[k].refs == Some([SpanOf(start.contract.criteria[k].clause)]))
            && SpansKept(body.constraints, start.contract.constraints)
            && SpansKept(body.nonGoals, start.contract.nonGoals)
            && body.scope.approved == d.targets && body.facts == []
  {
    hide Intent.RefsFit, Written, Compiled, LinksAll, Materialized, Plannable, SpansKept, Brief.Validates, Brief.IntentOk,
         Intent.Texts, Brief.Keeps, Brief.KeepsCriteria, Brief.AsksAll;
    var refs :| Intent.RefsFit(refs, start.contract) && start.prepared.document == Written(start.contract, request, refs, d);
    BriefSpans(start.prepared.brief, start.contract, request, refs, d, BaselineOrUnknown(repository.baseline));
  }

  /** Compiles the request and prepares its run. */
  method StartRun(request: string, space: Clauses.Spaces, sentences: Clauses.Sentences, marks: Intent.Marks,
                  fold: Intent.Folding, d: Details, repository: Repository, tasks: seq<TaskBrief>, c: Configuration)
    returns (r: Result<Start, RequestFailure>, ghost clauses: seq<Clauses.Clause>)
    requires Clauses.Cuts(sentences)
    ensures r.Ok? ==> Started(request, space, clauses, marks, fold, r.value.contract, repository, tasks, r.value.prepared)
    ensures r.Ok? ==> forall i | 0 <= i < |r.value.prepared.tasks| ::
                        Repair.ValidBudgets(TaskExecutor.BudgetsOf(r.value.prepared.tasks[i]))
    ensures r.Ok? ==> Documented(r.value, request, d)
    ensures r.Err? ==> !r.error.RunFailed?
    ensures r.Err? && r.error.IntentRefused? <==> Clauses.Strip(request, space) == "" || clauses == []
  {
    hide Clauses.Exact, Intent.ContractOf, Clauses.ItemCovered, Clauses.SplitLines, IsPrepared, CanCompose, Written, Plannable,
         RunnableTasks, Materialized, LinksAll, Intent.AllResolve, Intent.ContractJson, Intent.RefsFit, TaskExecutor.BudgetsOf,
         Repair.ValidBudgets;
    var compiled;
    compiled, clauses := Intent.CompileIntent(request, space, sentences, marks, fold);
    if compiled.Err? { return Err(IntentRefused(compiled.error)), clauses; }
    var prepared, refs := Prepare(request, compiled.value, d, repository, c.strategy.tier, tasks);
    if prepared.Err? { return Err(NotPrepared(prepared.error)), clauses; }
    BudgetsOfPrepared(prepared.value, compiled.value, repository, tasks);
    return Ok(Start(compiled.value, prepared.value)), clauses;
  }

  lemma EndsAtGate(report: TruthReport, h: History, setup: Setup, env: Environment, start: Files, files: Files)
    requires RunEnds(Ok(report), h, setup, env, start, files)
    ensures ReachedGate(h, setup, env, files)
    ensures report.verdict == Proven <==> TruthProven(files, true, env.view, env.size, env.repository)
  {
  }

  /** The whole run: compiles the request, prepares, executes, verifies, reviews, and asks the truth gate. */
  method RunRequest(request: string, space: Clauses.Spaces, sentences: Clauses.Sentences, marks: Intent.Marks,
                    fold: Intent.Folding, d: Details, repository: Repository, tasks: seq<TaskBrief>, c: Configuration,
                    env: Environment, dir: RunDirectory)
    returns (r: Result<TruthReport, RequestFailure>, ghost start: Option<Start>, ghost h: Option<History>)
    requires Clauses.Cuts(sentences) && Shows(env.view) && DiffGuard.Lists(env.order)
    modifies dir
    ensures start.None? <==> h.None?
    ensures start.None? ==> r.Err? && !r.error.RunFailed? && dir.files == old(dir.files)
    ensures start.Some? ==>
              && (r.Err? ==> r.error.RunFailed?) && LinkedExactly(start.value.contract, start.value.prepared.tasks)
              && Documented(start.value, request, d)
              && RunEnds(if r.Ok? then Ok(r.value) else Err(r.error.run), h.value, SetupOf(start.value.prepared, c), env,
                         old(dir.files), dir.files)
    ensures r.Ok? && r.value.verdict == Proven && IsObject(dir.files, INTENT) ==>
              && EveryItemProved(request, space, fold, start.value.contract,
                                 GroundOf(h.value, SetupOf(start.value.prepared, c), repository))
              && EveryCriterionChecked(start.value.contract, start.value.prepared.tasks, repository.catalog)
  {
    hide Documented, Shows, ReachedGate, TruthProven, TruthFailed, Crashes, ClaimScope, Started, EveryItemProved, LinkedExactly,
         TaskExecutor.BudgetsOf, Repair.ValidBudgets, Clauses.Cuts, IsObject, IdsOf, DiffGuard.Lists, ReportsHold,
         EveryCriterionChecked, Document, RunEnds;
    start, h := None, None;
    var started;
    ghost var clauses;
    started, clauses := StartRun(request, space, sentences, marks, fold, d, repository, tasks, c);
    if started.Err? { return Err(started.error), start, h; }
    start := Some(started.value);
    var p := started.value.prepared;
    var setup := SetupOf(p, c);
    var truth;
    ghost var history;
    truth, history := Run(setup, env, dir);
    h := Some(history);
    StartedLinks(request, space, clauses, marks, fold, started.value.contract, repository, tasks, p);
    if truth.Err? { return Err(RunFailed(truth.error)), start, h; }
    EndsAtGate(truth.value, history, setup, env, old(dir.files), dir.files);
    RequestIsTraced(request, space, clauses, marks, fold, started.value.contract, repository, tasks, p, setup, env, history,
                    dir.files);
    RequestProvenExactly(request, space, clauses, marks, fold, started.value.contract, repository, tasks, p, setup, env,
                         history, dir.files);
    return Ok(truth.value), start, h;
  }
}
