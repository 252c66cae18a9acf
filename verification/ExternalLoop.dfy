/** The external repair loop: one task, a fast command, an optional recovery command. */
module ExternalLoop {
  import opened Common
  import opened Repair

  /** What the environment shows after one invocation; it is chosen adversarially. */
  datatype Observed = Observed(check: Verdict, diff: Verdict, fingerprint: Option<string>)

  datatype LoopVerdict = ReadyForReview | NoCommand(role: Role) | Stopped(action: Action, rule: RuleId)

  datatype LoopResult = LoopResult(verdict: LoopVerdict, attempts: seq<Attempt>)

  /** The attempt on record. The loop itself only ever sees an implementation failure, which is no owner's business. */
  function AttemptFor(role: Role, seen: Observed): (a: Attempt)
    ensures a.role == Some(role) && a.check == Some(seen.check) && a.diff == Some(seen.diff)
    ensures a.fingerprint == seen.fingerprint && !OwnerDecision(a.classification)
    ensures a.classification.Some? <==> seen.check == Fail
  {
    var classification :=
      if seen.check == Fail then Some(OtherClassification("IMPLEMENTATION_FAILURE")) else None;
    Attempt(Some(role), Some(seen.check), Some(seen.diff), classification, seen.fingerprint)
  }

  /** Each recorded attempt carries exactly what the environment showed at its sequence number. */
  ghost predicate Observes(h: seq<Attempt>, env: nat -> Observed) {
    forall i | 0 <= i < |h| :: h[i].role.Some? && h[i] == AttemptFor(h[i].role.value, env(i + 1))
  }

  lemma ObservesExtend(h: seq<Attempt>, role: Role, env: nat -> Observed)
    requires Observes(h, env)
    ensures Observes(h + [AttemptFor(role, env(|h| + 1))], env)
  {
  }

  /** Every attempt ran in the role granted by the attempts before it. */
  ghost predicate Legal(h: seq<Attempt>, b: Budgets) {
    forall i | 0 <= i < |h| ::
      h[i].role.Some? && MayRun(h[i].role.value, h[..i], b) && !OwnerDecision(h[i].classification)
  }

  lemma LegalPrefix(h: seq<Attempt>, b: Budgets, n: nat)
    requires ValidBudgets(b) && Legal(h, b) && n <= |h|
    ensures Legal(h[..n], b)
  {
    forall i | 0 <= i < n ensures h[..n][..i] == h[..i] {
    }
  }

  lemma LegalExtend(h: seq<Attempt>, a: Attempt, b: Budgets)
    requires ValidBudgets(b) && Legal(h, b)
    requires a.role.Some? && MayRun(a.role.value, h, b) && !OwnerDecision(a.classification)
    ensures Legal(h + [a], b)
  {
    var g := h + [a];
    forall i | 0 <= i < |g|
      ensures g[i].role.Some? && MayRun(g[i].role.value, g[..i], b) && !OwnerDecision(g[i].classification)
    {
      assert g[..i] == h[..i];
      assert h[..|h|] == h;
    }
  }

  /** Fast attempts first, then recovery attempts, each within its budget. */
  ghost predicate FastThenRecovery(h: seq<Attempt>, b: Budgets) {
    var k, m := CountRole(h, ImplementerFast), CountRole(h, ImplementerRecovery);
    && |h| == k + m && k <= b.maxFast && m <= b.maxRecovery
    && (forall i | 0 <= i < k :: h[i].role == Some(ImplementerFast))
    && (forall i | k <= i < |h| :: h[i].role == Some(ImplementerRecovery))
  }

  lemma ShapeOfExtension(h: seq<Attempt>, a: Attempt, b: Budgets)
    requires ValidBudgets(b) && FastThenRecovery(h, b) && a.role.Some? && MayRun(a.role.value, h, b)
    ensures FastThenRecovery(h + [a], b)
  {
    var g := h + [a];
    assert g[..|h|] == h;
    var k := CountRole(h, ImplementerFast);
    if h != [] && a.role == Some(ImplementerFast) {
      assert h[|h| - 1].role == Some(ImplementerFast);
      assert k == |h|;
    }
  }

  lemma NoShape(b: Budgets)
    requires ValidBudgets(b)
    ensures FastThenRecovery([], b)
  {
  }

  lemma FirstIsFast(h: seq<Attempt>, b: Budgets)
    requires Legal(h, b) && h != []
    ensures h[0].role == Some(ImplementerFast)
  {
    LegalAt(h, b, 0);
    assert h[..0] == [];
  }

  lemma {:induction false} ShapeOfHistory(h: seq<Attempt>, b: Budgets)
    requires ValidBudgets(b) && Legal(h, b)
    ensures FastThenRecovery(h, b)
    ensures h != [] ==> h[0].role == Some(ImplementerFast)
  {
    hide Legal, MayRun, FastThenRecovery;
    if h == [] {
      NoShape(b);
    } else {
      var n := |h| - 1;
      LegalPrefix(h, b, n);
      ShapeOfHistory(h[..n], b);
      LegalAt(h, b, n);
      FirstIsFast(h, b);
      ShapeOfExtension(h[..n], h[n], b);
      assert h == h[..n] + [h[n]];
    }
  }

  lemma LegalAt(h: seq<Attempt>, b: Budgets, i: nat)
    requires Legal(h, b) && i < |h|
    ensures h[i].role.Some? && MayRun(h[i].role.value, h[..i], b)
  {
  }

  /** However the environment behaves, the loop makes at most maxFast + maxRecovery attempts. */
  lemma AttemptsWithinBudget(h: seq<Attempt>, b: Budgets)
    requires ValidBudgets(b) && Legal(h, b)
    ensures |h| <= b.maxFast + b.maxRecovery
  {
    ShapeOfHistory(h, b);
  }

  /** No attempt follows a passing one. */
  lemma PassEndsHistory(h: seq<Attempt>, b: Budgets, i: nat)
    requires Legal(h, b) && i + 1 < |h|
    ensures !Passed(h[i])
  {
    var g := h[..i + 1];
    assert MayRun(h[i + 1].role.value, g, b);
    assert g[|g| - 1] == h[i];
  }

  /** The same failure twice in one role, with no change in evidence, is never retried in that role;
      in the recovery role it is never retried at all. */
  lemma NoThirdIdenticalAttempt(h: seq<Attempt>, b: Budgets, i: nat)
    requires ValidBudgets(b) && Legal(h, b) && i + 1 < |h|
    requires h[i].role == h[i + 1].role && Present(h[i + 1].fingerprint).Some?
    requires !EvidenceDelta(h[i + 1], h[i])
    ensures i + 2 < |h| ==> h[i].role == Some(ImplementerFast) && h[i + 2].role == Some(ImplementerRecovery)
  {
    if i + 2 < |h| {
      var g := h[..i + 2];
      assert Stuck(g);
      assert MayRun(h[i + 2].role.value, g, b);
      ShapeOfHistory(h, b);
    }
  }

  /** Why a loop that ran at least once ended: no ending but the one named here is possible. */
  ghost predicate StopsFor(final: LoopResult, b: Budgets, recoveryCommand: Option<seq<string>>)
    requires final.attempts != []
  {
    var h := final.attempts;
    if Passed(h[|h| - 1]) then final.verdict == ReadyForReview
    else if MayRun(ImplementerRecovery, h, b) then
      final.verdict == NoCommand(ImplementerRecovery) && (recoveryCommand.None? || recoveryCommand.value == [])
    else
      && !MayRun(ImplementerFast, h, b)
      && final.verdict == Stopped(Blocked, if Stuck(h) then R31IdenticalFailureBlock else R99BudgetExhausted)
  }

  /** A failure no owner has to decide never goes back to a planner: the loop goes on in a granted role, or it stops blocked. */
  lemma DecisionHolds(h: seq<Attempt>, d: Decision, b: Budgets, recoveryCommand: Option<seq<string>>)
    requires h != [] && Fits(d, h, b) && !OwnerDecision(h[|h| - 1].classification)
    ensures d.action == Review <==> Passed(h[|h| - 1])
    ensures d.action == Review ==> StopsFor(LoopResult(ReadyForReview, h), b, recoveryCommand)
    ensures d.action == RunFast ==> MayRun(ImplementerFast, h, b)
    ensures d.action == RunRecovery ==> MayRun(ImplementerRecovery, h, b)
    ensures d.action !in {Review, RunFast, RunRecovery} ==>
              StopsFor(LoopResult(Stopped(d.action, d.rule), h), b, recoveryCommand)
    ensures d.action == RunRecovery && (recoveryCommand.None? || recoveryCommand.value == []) ==>
              StopsFor(LoopResult(NoCommand(ImplementerRecovery), h), b, recoveryCommand)
  {
    hide Stuck, FastLeft, RecoveryLeft, CountRole;
  }

  /** A recovery attempt takes a recovery command. */
  ghost predicate Commanded(h: seq<Attempt>, recoveryCommand: Option<seq<string>>) {
    forall i | 0 <= i < |h| && h[i].role == Some(ImplementerRecovery) :: recoveryCommand.Some? && recoveryCommand.value != []
  }

  lemma CommandedExtend(h: seq<Attempt>, a: Attempt, recoveryCommand: Option<seq<string>>)
    requires Commanded(h, recoveryCommand)
    requires a.role == Some(ImplementerRecovery) ==> recoveryCommand.Some? && recoveryCommand.value != []
    ensures Commanded(h + [a], recoveryCommand)
  {
  }

  lemma LoopStarts(b: Budgets, env: nat -> Observed)
    ensures Legal([], b) && MayRun(ImplementerFast, [], b) && Observes([], env)
    ensures forall recoveryCommand :: Commanded([], recoveryCommand)
  {
  }

  method RunExternalLoop(b: Budgets, fastCommand: seq<string>, recoveryCommand: Option<seq<string>>,
                         env: nat -> Observed)
    returns (final: LoopResult)
    requires ValidBudgets(b)
    ensures Legal(final.attempts, b)
    ensures Observes(final.attempts, env)
    // Where the loop stops, and why, is settled by the history and the configured commands.
    ensures fastCommand == [] ==> final == LoopResult(NoCommand(ImplementerFast), [])
    ensures fastCommand != [] ==> final.attempts != [] && StopsFor(final, b, recoveryCommand)
    ensures forall i | 0 <= i < |final.attempts| - 1 :: !Passed(final.attempts[i])
    ensures Commanded(final.attempts, recoveryCommand)
  {
    LoopStarts(b, env);
    hide Legal, Observes, MayRun, Stuck, Fits, Passed, Commanded, StopsFor, AttemptFor, OwnerDecision;
    var attempts: seq<Attempt> := [];
    var role := ImplementerFast;
    var sequence := 0;
    while true
      invariant sequence == |attempts|
      invariant Legal(attempts, b)
      invariant role.ImplementerFast? || role.ImplementerRecovery?
      invariant MayRun(role, attempts, b)
      invariant attempts != [] ==> fastCommand != []
      invariant attempts == [] ==> role == ImplementerFast
      invariant attempts != [] && role == ImplementerRecovery && (recoveryCommand.None? || recoveryCommand.value == []) ==>
                  StopsFor(LoopResult(NoCommand(ImplementerRecovery), attempts), b, recoveryCommand)
      invariant forall i | 0 <= i < |attempts| :: !Passed(attempts[i])
      invariant Observes(attempts, env) && Commanded(attempts, recoveryCommand)
      decreases b.maxFast + b.maxRecovery - |attempts|
    {
      AttemptsWithinBudget(attempts, b);
      sequence := sequence + 1;
      var command := if role == ImplementerFast then fastCommand
                     else if recoveryCommand.Some? then recoveryCommand.value else [];
      if command == [] {
        return LoopResult(NoCommand(role), attempts);
      }
      var attempt := AttemptFor(role, env(sequence));
      LegalExtend(attempts, attempt, b);
      ObservesExtend(attempts, role, env);
      CommandedExtend(attempts, attempt, recoveryCommand);
      attempts := attempts + [attempt];
      AttemptsWithinBudget(attempts, b);
      var decision := Decide(attempts, b);
      DecisionHolds(attempts, decision, b, recoveryCommand);
      match decision.action {
        case Review => return LoopResult(ReadyForReview, attempts);
        case RunFast => role := ImplementerFast;
        case RunRecovery => role := ImplementerRecovery;
        case _ => return LoopResult(Stopped(decision.action, decision.rule), attempts);
      }
    }
  }

  // ---------------------------------------------------------------- the loop has one outcome

  lemma OneRole(a: Role, c: Role, h: seq<Attempt>, b: Budgets)
    requires MayRun(a, h, b) && MayRun(c, h, b)
    ensures a == c
  {
  }

  /** Two legal histories of the same environment agree as far as both go. */
  lemma {:induction false} HistoriesAgree(g: seq<Attempt>, h: seq<Attempt>, n: nat, b: Budgets, env: nat -> Observed)
    requires Legal(g, b) && Legal(h, b) && Observes(g, env) && Observes(h, env) && n <= |g| && n <= |h|
    ensures g[..n] == h[..n]
  {
    hide MayRun, Legal;
    if n > 0 {
      HistoriesAgree(g, h, n - 1, b, env);
      LegalAt(g, b, n - 1);
      LegalAt(h, b, n - 1);
      OneRole(g[n - 1].role.value, h[n - 1].role.value, g[..n - 1], b);
      assert g[..n] == g[..n - 1] + [g[n - 1]] && h[..n] == h[..n - 1] + [h[n - 1]];
    }
  }

  /** A history that goes on shows that the shorter one did not stop. */
  lemma NotYetStopped(final: LoopResult, h: seq<Attempt>, b: Budgets, recoveryCommand: Option<seq<string>>)
    requires final.attempts != [] && Legal(h, b) && Commanded(h, recoveryCommand)
    requires |final.attempts| < |h| && h[..|final.attempts|] == final.attempts
    ensures !StopsFor(final, b, recoveryCommand)
  {
    var n := |final.attempts|;
    LegalAt(h, b, n);
    assert h[n].role == Some(ImplementerFast) || h[n].role == Some(ImplementerRecovery);
  }

  /** The budgets, the commands and the environment settle what the loop does and how it ends. */
  lemma OneEnding(a: LoopResult, c: LoopResult, b: Budgets, recoveryCommand: Option<seq<string>>, env: nat -> Observed)
    requires a.attempts != [] && c.attempts != []
    requires Legal(a.attempts, b) && Observes(a.attempts, env) && Commanded(a.attempts, recoveryCommand)
    requires Legal(c.attempts, b) && Observes(c.attempts, env) && Commanded(c.attempts, recoveryCommand)
    requires StopsFor(a, b, recoveryCommand) && StopsFor(c, b, recoveryCommand)
    ensures a == c
  {
    var n := if |a.attempts| <= |c.attempts| then |a.attempts| else |c.attempts|;
    HistoriesAgree(a.attempts, c.attempts, n, b, env);
    hide Legal, Observes, Commanded, Stuck;
    assert a.attempts[..|a.attempts|] == a.attempts && c.attempts[..|c.attempts|] == c.attempts;
    if |a.attempts| < |c.attempts| { NotYetStopped(a, c.attempts, b, recoveryCommand); }
    if |c.attempts| < |a.attempts| { NotYetStopped(c, a.attempts, b, recoveryCommand); }
  }
}
