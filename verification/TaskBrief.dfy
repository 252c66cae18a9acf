/** The frozen contract of one task, as far as the kernel decides by it. */
module TaskBrief {
  import opened Common

  datatype CheckSpec = CheckSpec(
    command: seq<string>,
    cwd: Option<string>,
    timeoutSeconds: Option<int>,
    name: Option<string>)

  datatype ChangeBudget = ChangeBudget(
    maxChangedFiles: nat,
    maxAddedLines: Option<nat>,
    maxNewFiles: nat,
    allowDependencyChanges: bool)

  /** How many executable checks each stage of a proof plan declares. */
  datatype ProofPlan = ProofPlan(
    baseline: nat,
    red: nat,
    automated: nat,
    surface: nat,
    adversarial: nat,
    cleanup: nat)

  datatype TaskBrief = TaskBrief(
    taskId: string,
    allowedPaths: seq<string>,
    protectedPaths: seq<string>,
    requiredChecks: seq<CheckSpec>,
    changeBudget: ChangeBudget,
    permittedNewArtifacts: seq<string>,
    maxFastAttempts: int,
    maxRecoveryAttempts: int,
    criterionIds: seq<string>,
    proofPlan: Option<ProofPlan>)
}
