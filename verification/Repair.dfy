/** The first-match repair table: what may happen after each failed attempt. */
module Repair {
  import opened Common

  datatype Role = ImplementerFast | ImplementerRecovery | OtherRole(name: string)

  datatype Verdict = Pass | Fail | OtherVerdict(name: string)

  datatype Classification =
    | DesignConflict
    | SpecAmbiguity
    | ContractChange
    | AuthorizationAmbiguous
    | RepositoryFactsConflict
    | RepeatedFailureInvalidatesHypothesis
    | OtherClassification(name: string)

  /** One recorded attempt; a missing key of the record is None. */
  datatype Attempt = Attempt(
    role: Option<Role>,
    check: Option<Verdict>,
    diff: Option<Verdict>,
    classification: Option<Classification>,
    fingerprint: Option<string>)

  datatype Budgets = Budgets(maxFast: int, maxRecovery: int)

  predicate ValidBudgets(b: Budgets) {
    b.maxFast >= 1 && b.maxRecovery >= 0
  }

  datatype RepairState = RepairState(
    hasAttempts: bool,
    latestRole: Option<Role>,
    latestCheck: Option<Verdict>,
    latestDiff: Option<Verdict>,
    latestClassification: Option<Classification>,
    latestFingerprint: Option<string>,
    previousFingerprint: Option<string>,
    previousRole: Option<Role>,
    evidenceDelta: bool,
    fastUsed: nat,
    recoveryUsed: nat,
    budgets: Budgets)

  datatype Action = RunFast | RunRecovery | ReturnToPlanner | Review | Blocked

  datatype RuleId =
    | R00InitialFast
    | R10DeterministicSuccess
    | R20OwnerDecision
    | R30IdenticalFastToRecovery
    | R31IdenticalFailureBlock
    | R40FastBudget
    | R50RecoveryBudget
    | R99BudgetExhausted

  datatype Decision = Decision(action: Action, rule: RuleId)

  datatype StateError = BudgetsNotExplicit

  function CountRole(attempts: seq<Attempt>, role: Role): (n: nat)
    ensures n <= |attempts|
  {
    if attempts == [] then 0
    else
      var last := |attempts| - 1;
      CountRole(attempts[..last], role) + if attempts[last].role == Some(role) then 1 else 0
  }

  /** An empty fingerprint counts as no fingerprint. */
  function Present(text: Option<string>): Option<string> {
    if text == Some("") then None else text
  }

  predicate EvidenceDelta(latest: Attempt, previous: Attempt) {
    || latest.check != previous.check
    || latest.diff != previous.diff
    || latest.classification != previous.classification
    || latest.fingerprint != previous.fingerprint
  }

  /** There is new evidence unless nothing but the role tells the two attempts apart. */
  lemma EvidenceDeltaExactly(latest: Attempt, previous: Attempt)
    ensures EvidenceDelta(latest, previous) <==> latest != previous.(role := latest.role)
  {
  }

  function FromAttempts(attempts: seq<Attempt>, b: Budgets): (r: Result<RepairState, StateError>)
    ensures r.Ok? <==> ValidBudgets(b)
  {
    if !ValidBudgets(b) then Err(BudgetsNotExplicit)
    else if attempts == [] then
      Ok(RepairState(false, None, None, None, None, None, None, None, true, 0, 0, b))
    else
      var latest := attempts[|attempts| - 1];
      var previous := if |attempts| > 1 then Some(attempts[|attempts| - 2]) else None;
      Ok(RepairState(
           true,
           latest.role, latest.check, latest.diff, latest.classification,
           Present(latest.fingerprint),
           if previous.Some? then Present(previous.value.fingerprint) else None,
           if previous.Some? then previous.value.role else None,
           if previous.Some? then EvidenceDelta(latest, previous.value) else true,
           CountRole(attempts, ImplementerFast),
           CountRole(attempts, ImplementerRecovery),
           b))
  }

  predicate OwnerDecision(c: Option<Classification>) {
    c.Some? && !c.value.OtherClassification?
  }

  predicate SameFailureWithoutDelta(s: RepairState) {
    && s.hasAttempts
    && s.latestFingerprint.Some?
    && s.latestFingerprint == s.previousFingerprint
    && s.latestRole == s.previousRole
    && !s.evidenceDelta
  }

  predicate Fires(rule: RuleId, s: RepairState) {
    match rule
    case R00InitialFast => !s.hasAttempts
    case R10DeterministicSuccess => s.latestCheck == Some(Pass) && s.latestDiff == Some(Pass)
    case R20OwnerDecision => OwnerDecision(s.latestClassification)
    case R30IdenticalFastToRecovery =>
      && SameFailureWithoutDelta(s)
      && s.latestRole == Some(ImplementerFast)
      && s.recoveryUsed < s.budgets.maxRecovery
    case R31IdenticalFailureBlock => SameFailureWithoutDelta(s)
    case R40FastBudget => s.latestRole == Some(ImplementerFast) && s.fastUsed < s.budgets.maxFast
    case R50RecoveryBudget => s.recoveryUsed < s.budgets.maxRecovery
    case R99BudgetExhausted => true
  }

  function Produce(rule: RuleId): Decision {
    match rule
    case R00InitialFast => Decision(RunFast, rule)
    case R10DeterministicSuccess => Decision(Review, rule)
    case R20OwnerDecision => Decision(ReturnToPlanner, rule)
    case R30IdenticalFastToRecovery => Decision(RunRecovery, rule)
    case R31IdenticalFailureBlock => Decision(Blocked, rule)
    case R40FastBudget => Decision(RunFast, rule)
    case R50RecoveryBudget => Decision(RunRecovery, rule)
    case R99BudgetExhausted => Decision(Blocked, rule)
  }

  const RULES: seq<RuleId> := [
    R00InitialFast, R10DeterministicSuccess, R20OwnerDecision, R30IdenticalFastToRecovery,
    R31IdenticalFailureBlock, R40FastBudget, R50RecoveryBudget, R99BudgetExhausted
  ]

  /** The least index of a rule that fires, or |rules| when none does. */
  function FirstMatch(rules: seq<RuleId>, s: RepairState): (k: nat)
    ensures k <= |rules|
    ensures forall j | 0 <= j < k :: !Fires(rules[j], s)
    ensures k < |rules| ==> Fires(rules[k], s)
  {
    if rules == [] || Fires(rules[0], s) then 0
    else 1 + FirstMatch(rules[1..], s)
  }

  function DecideState(s: RepairState): Decision {
    assert Fires(RULES[7], s);
    Produce(RULES[FirstMatch(RULES, s)])
  }

  function DecideNext(attempts: seq<Attempt>, b: Budgets): Result<Decision, StateError> {
    match FromAttempts(attempts, b)
    case Err(e) => Err(e)
    case Ok(s) => Ok(DecideState(s))
  }

  /** Both deterministic verdicts of an attempt passed. */
  predicate Passed(a: Attempt) {
    a.check == Some(Pass) && a.diff == Some(Pass)
  }

  /** The last two attempts are one failure seen twice in one role. */
  predicate Stuck(h: seq<Attempt>) {
    && |h| >= 2
    && var a, p := h[|h| - 1], h[|h| - 2];
    a.role == p.role && Present(a.fingerprint).Some? && !EvidenceDelta(a, p)
  }

  /** A task is stuck exactly when its last two attempts are alike in everything and bear a fingerprint. */
  lemma StuckExactly(h: seq<Attempt>)
    ensures Stuck(h) <==>
              && |h| >= 2 && h[|h| - 1] == h[|h| - 2]
              && h[|h| - 1].fingerprint.Some? && h[|h| - 1].fingerprint.value != ""
  {
  }

  predicate MayContinue(h: seq<Attempt>)
    requires h != []
  {
    var last := h[|h| - 1];
    !Passed(last) && !OwnerDecision(last.classification)
  }

  predicate FastLeft(h: seq<Attempt>, b: Budgets)
    requires h != []
  {
    h[|h| - 1].role == Some(ImplementerFast) && CountRole(h, ImplementerFast) < b.maxFast
  }

  predicate RecoveryLeft(h: seq<Attempt>, b: Budgets) {
    CountRole(h, ImplementerRecovery) < b.maxRecovery
  }

  /** When the history alone entitles the task to one more attempt in this role. */
  predicate MayRun(role: Role, h: seq<Attempt>, b: Budgets) {
    if h == [] then role == ImplementerFast
    else
      && MayContinue(h)
      && match role
         case ImplementerFast => !Stuck(h) && FastLeft(h, b)
         case ImplementerRecovery =>
           RecoveryLeft(h, b) && if Stuck(h) then h[|h| - 1].role == Some(ImplementerFast) else !FastLeft(h, b)
         case OtherRole(_) => false
  }

  /** The action and rule that fit a history, told from the history alone: at its start the fast role runs. */
  predicate Fits(d: Decision, h: seq<Attempt>, b: Budgets) {
    if h == [] then d == Decision(RunFast, R00InitialFast) else FitsLast(d, h, b)
  }

  predicate FitsLast(d: Decision, h: seq<Attempt>, b: Budgets)
    requires h != []
  {
    var last := h[|h| - 1];
    && (d.action == Review <==> Passed(last))
    && (d.action == ReturnToPlanner <==> !Passed(last) && OwnerDecision(last.classification))
    && (d.action == RunFast <==> MayRun(ImplementerFast, h, b))
    && (d.action == RunRecovery <==> MayRun(ImplementerRecovery, h, b))
    && (d.action == Blocked ==> d.rule == if Stuck(h) then R31IdenticalFailureBlock else R99BudgetExhausted)
  }

  /** The table decides what the history entitles the task to, and only unusable budgets keep it from deciding. */
  lemma ActionMeaning(h: seq<Attempt>, b: Budgets)
    ensures DecideNext(h, b).Ok? <==> ValidBudgets(b)
    ensures ValidBudgets(b) ==> Fits(DecideNext(h, b).value, h, b)
  {
    if ValidBudgets(b) {
      var s := FromAttempts(h, b).value;
      assert h != [] ==> (SameFailureWithoutDelta(s) <==> Stuck(h));
      var k := FirstMatch(RULES, s);
      assert RULES[0] == R00InitialFast && RULES[1] == R10DeterministicSuccess && RULES[2] == R20OwnerDecision
          && RULES[3] == R30IdenticalFastToRecovery && RULES[4] == R31IdenticalFailureBlock
          && RULES[5] == R40FastBudget && RULES[6] == R50RecoveryBudget && RULES[7] == R99BudgetExhausted;
      assert Fires(RULES[7], s);
      assert h == [] ==> Fires(RULES[0], s);
    }
  }

  method Decide(h: seq<Attempt>, b: Budgets) returns (d: Decision)
    requires ValidBudgets(b)
    ensures Fits(d, h, b)
  {
    ActionMeaning(h, b);
    d := DecideNext(h, b).value;
  }
}
