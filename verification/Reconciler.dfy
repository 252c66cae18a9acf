/** Reconciling a refined brief with the brief it refines. */
module Reconciler {
  import opened Common
  import opened ExecutionBrief

  datatype ReconcileError =
    | InventedCriteria
    | DroppedCriterion
    | InventedFacts
    | DroppedFact
    | DroppedQuestion
    | DowngradedQuestion
    | DroppedUnknowns
    | InventedUnknowns
    | BoundaryChanged
    | CandidatesChanged
    | PathOutsideCandidates
    | PathApprovedAndProtected
    | KindTransition

  function CriterionIds(b: Brief): set<string> {
    set c | c in b.body.criteria :: c.id
  }

  function FactIds(b: Brief): set<string> {
    set f | f in b.body.facts :: f.id
  }

  function UnknownStatements(b: Brief): set<string> {
    set u | u in b.body.unknowns :: u.statement
  }

  function Elements(ss: seq<string>): set<string> {
    set s | s in ss
  }

  /** The questions by id; the last of those that share an id counts. */
  function Blocking(qs: seq<Question>): map<string, bool> {
    if qs == [] then map[] else Blocking(qs[..|qs| - 1])[qs[|qs| - 1].id := qs[|qs| - 1].blocking]
  }

  lemma {:induction false} BlockingExactly(qs: seq<Question>, k: nat)
    requires k < |qs| && forall j | k < j < |qs| :: qs[j].id != qs[k].id
    ensures qs[k].id in Blocking(qs) && Blocking(qs)[qs[k].id] == qs[k].blocking
    ensures forall id | id in Blocking(qs) :: exists i | 0 <= i < |qs| :: qs[i].id == id
  {
    BlockingIds(qs);
    var init := qs[..|qs| - 1];
    if k < |init| { BlockingExactly(init, k); }
  }

  lemma {:induction false} BlockingIds(qs: seq<Question>)
    ensures forall id | id in Blocking(qs) :: exists i | 0 <= i < |qs| :: qs[i].id == id
  {
    if qs != [] {
      var init := qs[..|qs| - 1];
      BlockingIds(init);
      assert forall i | 0 <= i < |init| :: init[i] == qs[i];
    }
  }

  /** No question is dropped, and none that blocks is made not to. */
  predicate KeepsQuestions(a: map<string, bool>, b: map<string, bool>) {
    forall q | q in a :: q in b && (a[q] ==> b[q])
  }

  predicate ScopeContained(a: Scope, b: Scope) {
    && Elements(b.candidates) == Elements(a.candidates)
    && Within(b.approved, a.candidates) && Within(b.guarded, a.candidates) && Disjoint(b.approved, b.guarded)
  }

  /** When a proposal is accepted as a refinement of a brief. */
  predicate Accepts(a: Brief, b: Brief) {
    && CriterionIds(b) == CriterionIds(a)
    && FactIds(b) == FactIds(a)
    && KeepsQuestions(Blocking(a.body.questions), Blocking(b.body.questions))
    && UnknownStatements(b) == UnknownStatements(a)
    && b.body.boundary == a.body.boundary
    && ScopeContained(a.body.scope, b.body.scope)
    && (b.body.kind == a.body.kind || b.body.kind == Active)
  }

  /** The rule a refused proposal breaks. */
  ghost predicate Breaks(e: ReconcileError, a: Brief, b: Brief) {
    match e
    case InventedCriteria => exists c | c in b.body.criteria :: forall d | d in a.body.criteria :: d.id != c.id
    case DroppedCriterion => exists c | c in a.body.criteria :: forall d | d in b.body.criteria :: d.id != c.id
    case InventedFacts => exists f | f in b.body.facts :: forall g | g in a.body.facts :: g.id != f.id
    case DroppedFact => exists f | f in a.body.facts :: forall g | g in b.body.facts :: g.id != f.id
    case DroppedQuestion => exists q | q in Blocking(a.body.questions) :: q !in Blocking(b.body.questions)
    case DowngradedQuestion =>
      exists q | q in Blocking(a.body.questions) && q in Blocking(b.body.questions) ::
        Blocking(a.body.questions)[q] && !Blocking(b.body.questions)[q]
    case DroppedUnknowns => exists u | u in a.body.unknowns :: forall v | v in b.body.unknowns :: v.statement != u.statement
    case InventedUnknowns => exists u | u in b.body.unknowns :: forall v | v in a.body.unknowns :: v.statement != u.statement
    case BoundaryChanged => b.body.boundary != a.body.boundary
    case CandidatesChanged => !(forall s :: s in a.body.scope.candidates <==> s in b.body.scope.candidates)
    case PathOutsideCandidates =>
      exists s | s in b.body.scope.approved || s in b.body.scope.guarded :: s !in a.body.scope.candidates
    case PathApprovedAndProtected => exists s | s in b.body.scope.approved :: s in b.body.scope.guarded
    case KindTransition => b.body.kind != a.body.kind && b.body.kind != Active
  }

  /** A refused proposal breaks the rule it is refused for. */
  lemma RefusedForBreaking(a: Brief, b: Brief)
    ensures ReconcileProposal(a, b).Err? ==> Breaks(ReconcileProposal(a, b).error, a, b)
  {
    hide Blocking;
    var r := ReconcileProposal(a, b);
    if r.Err? {
      match r.error {
        case InventedCriteria => var id :| id in CriterionIds(b) && id !in CriterionIds(a);
        case DroppedCriterion => var id :| id in CriterionIds(a) && id !in CriterionIds(b);
        case InventedFacts => var id :| id in FactIds(b) && id !in FactIds(a);
        case DroppedFact => var id :| id in FactIds(a) && id !in FactIds(b);
        case DroppedUnknowns => var u :| u in UnknownStatements(a) && u !in UnknownStatements(b);
        case InventedUnknowns => var u :| u in UnknownStatements(b) && u !in UnknownStatements(a);
        case CandidatesChanged =>
          assert Elements(b.body.scope.candidates) != Elements(a.body.scope.candidates);
        case _ =>
      }
    }
  }

  /** The first rule a proposal breaks, in the order the rules are checked; the proposal itself when it breaks none. */
  function ReconcileProposal(a: Brief, b: Brief): (r: Result<Brief, ReconcileError>)
    ensures r.Ok? <==> Accepts(a, b)
    ensures r.Ok? ==> r.value == b
  {
    if !(CriterionIds(b) <= CriterionIds(a)) then Err(InventedCriteria)
    else if CriterionIds(b) != CriterionIds(a) then Err(DroppedCriterion)
    else if !(FactIds(b) <= FactIds(a)) then Err(InventedFacts)
    else if FactIds(b) != FactIds(a) then Err(DroppedFact)
    else
      var before, after := Blocking(a.body.questions), Blocking(b.body.questions);
      if exists q | q in before :: q !in after then Err(DroppedQuestion)
      else if exists q | q in before :: before[q] && !after[q] then Err(DowngradedQuestion)
      else if !(UnknownStatements(a) <= UnknownStatements(b)) then Err(DroppedUnknowns)
      else if UnknownStatements(a) != UnknownStatements(b) then Err(InventedUnknowns)
      else if b.body.boundary != a.body.boundary then Err(BoundaryChanged)
      else if Elements(b.body.scope.candidates) != Elements(a.body.scope.candidates) then Err(CandidatesChanged)
      else if !Within(b.body.scope.approved, a.body.scope.candidates) || !Within(b.body.scope.guarded, a.body.scope.candidates)
      then Err(PathOutsideCandidates)
      else if !Disjoint(b.body.scope.approved, b.body.scope.guarded) then Err(PathApprovedAndProtected)
      else if b.body.kind != a.body.kind && b.body.kind != Active then Err(KindTransition)
      else Ok(b)
  }

  /** Every valid brief is a refinement of itself. */
  lemma Reflexive(a: Brief)
    requires Validates(a)
    ensures Accepts(a, a)
  {
  }

  /** A refinement of a refinement is a refinement. */
  lemma Transitive(a: Brief, b: Brief, c: Brief)
    requires Accepts(a, b) && Accepts(b, c)
    ensures Accepts(a, c)
  {
    forall s | s in c.body.scope.approved || s in c.body.scope.guarded ensures s in a.body.scope.candidates {
      assert s in Elements(b.body.scope.candidates);
      assert s in Elements(a.body.scope.candidates);
    }
  }

  /** Only the kind and the scope change: every declared candidate is approved. */
  function Conservative(a: Brief): Brief {
    a.(body := a.body.(kind := Active,
                       scope := Scope(a.body.scope.candidates, a.body.scope.candidates, [], Constrained)))
  }

  /** The conservative proposal of any valid brief is accepted, and once re-hashed it passes full validation;
      re-hashing is needed and is enough, because the hash covers everything but itself. */
  lemma ConservativeIsAccepted(a: Brief)
    requires Validates(a)
    ensures Accepts(a, Conservative(a)) && Accepts(a, Rehashed(Conservative(a)))
    ensures Validates(Rehashed(Conservative(a)))
    ensures Validates(Conservative(a)) <==> Conservative(a) == a
  {
  }

  /** However often a brief is refined, the ids of its acceptance criteria never change. */
  ghost predicate Chain(bs: seq<Brief>) {
    forall i | 0 < i < |bs| :: Accepts(bs[i - 1], bs[i])
  }

  lemma {:induction false} ChainAccepts(bs: seq<Brief>)
    requires bs != [] && Chain(bs) && Validates(bs[0])
    ensures Accepts(bs[0], bs[|bs| - 1])
  {
    if |bs| == 1 {
      Reflexive(bs[0]);
    } else {
      var init := bs[..|bs| - 1];
      ChainAccepts(init);
      Transitive(bs[0], init[|init| - 1], bs[|bs| - 1]);
    }
  }
}
