/** Which evidence may close which claim: two constant tables and a membership decision. */
module EvidencePolicy {
  datatype ClaimType =
    | PromptContractApplied
    | ProductBehavior
    | ScopeIntegrity
    | IntentAlignment
    | Simplicity
    | HostExecution
    | ModelRouting
    | ExternalObservation
    | UnknownClaim(name: string)

  datatype Origin =
    | CoreDeterministic
    | CoreDiffGuard
    | ParentHostReceipt
    | ParentExternalObservation
    | ParentReview
    | Programmatic
    | TestMechanics
    | ModelOutput
    | UnknownOrigin(name: string)

  datatype Authority =
    | ModelClaim
    | ModelReview
    | StaticInspection
    | DiffGuard
    | DeterministicCheck
    | ExternalAuthority
    | UnsupportedAuthority(name: string)

  datatype PolicyReason =
    | ClaimTypeUnknown
    | OriginUnknown
    | OriginNotEligible
    | AuthorityNotEligible
    | Eligible

  datatype Eligibility = Eligibility(allowed: bool, reason: PolicyReason)

  function AllowedOrigins(claim: ClaimType): set<Origin> {
    match claim
    case PromptContractApplied => {CoreDeterministic}
    case ProductBehavior => {CoreDeterministic}
    case ScopeIntegrity => {CoreDiffGuard, CoreDeterministic}
    case IntentAlignment => {ParentReview}
    case Simplicity => {ParentReview}
    case HostExecution => {ParentHostReceipt}
    case ModelRouting => {ParentHostReceipt}
    case ExternalObservation => {ParentExternalObservation}
    case UnknownClaim(_) => {}
  }

  function AuthorityMinimum(claim: ClaimType): set<Authority> {
    match claim
    case PromptContractApplied => {DeterministicCheck}
    case ProductBehavior => {DeterministicCheck}
    case ScopeIntegrity => {DiffGuard, DeterministicCheck}
    case IntentAlignment => {ModelReview}
    case Simplicity => {ModelReview}
    case HostExecution => {ExternalAuthority}
    case ModelRouting => {ExternalAuthority}
    case ExternalObservation => {ExternalAuthority}
    case UnknownClaim(_) => {}
  }

  function CanClose(claim: ClaimType, origin: Origin, authority: Authority): Eligibility {
    if claim.UnknownClaim? then Eligibility(false, ClaimTypeUnknown)
    else if origin.UnknownOrigin? then Eligibility(false, OriginUnknown)
    else if origin !in AllowedOrigins(claim) then Eligibility(false, OriginNotEligible)
    else if authority !in AuthorityMinimum(claim) then Eligibility(false, AuthorityNotEligible)
    else Eligibility(true, Eligible)
  }

  predicate Semantic(claim: ClaimType) {
    claim.IntentAlignment? || claim.Simplicity?
  }

  /** Model-written output closes nothing; a semantic claim is closed by a parent review alone, and a
      review closes semantic claims alone; product behaviour is closed by core checks alone. */
  lemma AuthoritySeparation(claim: ClaimType, origin: Origin, authority: Authority)
    ensures CanClose(claim, origin, authority).allowed ==>
              && !(authority.ModelClaim? || authority.StaticInspection? || authority.UnsupportedAuthority?)
              && !(origin.ModelOutput? || origin.Programmatic? || origin.TestMechanics?)
              && (Semantic(claim) <==> authority.ModelReview?)
              && (Semantic(claim) <==> origin.ParentReview?)
              && (claim.ProductBehavior? ==> origin.CoreDeterministic? && authority.DeterministicCheck?)
    ensures Semantic(claim) ==> CanClose(claim, ParentReview, ModelReview).allowed
    ensures CanClose(ProductBehavior, CoreDeterministic, DeterministicCheck).allowed
  {
  }

  /** The authority that can close a claim, from the origins it can come from. */
  predicate Closes(claim: ClaimType, origin: Origin, authority: Authority) {
    match origin
    case CoreDeterministic =>
      (authority == DeterministicCheck && (claim == PromptContractApplied || claim == ProductBehavior || claim == ScopeIntegrity))
      || (authority == DiffGuard && claim == ScopeIntegrity)
    case CoreDiffGuard => (authority == DiffGuard || authority == DeterministicCheck) && claim == ScopeIntegrity
    case ParentReview => authority == ModelReview && Semantic(claim)
    case ParentHostReceipt => authority == ExternalAuthority && (claim == HostExecution || claim == ModelRouting)
    case ParentExternalObservation => authority == ExternalAuthority && claim == ExternalObservation
    case _ => false
  }

  /** Told by origin rather than by claim, both tables together allow exactly this. */
  lemma AllowedExactly(claim: ClaimType, origin: Origin, authority: Authority)
    ensures CanClose(claim, origin, authority).allowed <==> Closes(claim, origin, authority)
    ensures CanClose(claim, origin, authority).allowed <==> CanClose(claim, origin, authority).reason == Eligible
  {
  }
}
