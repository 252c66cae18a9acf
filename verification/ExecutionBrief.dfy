/** The execution brief: composed from a validated intent, hashed over everything but its own hash. */
module ExecutionBrief {
  import opened Common
  import opened Text

  datatype Provenance = UserExplicit | RepositoryFact | ProofPolicy | ReversibleDefault | ModelHypothesis | UnknownProvenance(name: string)

  /** A span of the request, or a pointer into another artifact. */
  datatype Ref = SpanRef(line: nat, start: nat, end: nat) | ArtifactRef(artifact: string, pointer: string)

  /** An optional list of references; when there is one it must not be empty. */
  type Refs = Option<seq<Ref>>

  datatype Provenanced = Provenanced(statement: string, provenance: Provenance, refs: Refs)

  datatype Criterion = Criterion(id: string, statement: string, provenance: Provenance, refs: Refs)

  datatype Grounded = Grounded(id: string, statement: string, refs: seq<Ref>)

  datatype Question = Question(id: string, statement: string, blocking: bool, refs: seq<Ref>)

  datatype ScopeStatus = Unresolved | Constrained | OtherStatus(name: string)

  datatype Scope = Scope(candidates: seq<string>, approved: seq<string>, guarded: seq<string>, status: ScopeStatus)

  datatype Kind = Shadow | Active | OtherKind(name: string)

  /** The digests of the inputs, and the baseline; validation asks only that they are well formed. */
  datatype Origins = Origins(baseline: string, wellFormed: bool)

  datatype Body = Body(
    kind: Kind,
    origins: Origins,
    objective: Provenanced,
    criteria: seq<Criterion>,
    constraints: seq<Provenanced>,
    nonGoals: seq<Provenanced>,
    boundary: Provenanced,
    assumptions: seq<Provenanced>,
    unknowns: seq<Provenanced>,
    riskSignals: seq<Provenanced>,
    scope: Scope,
    facts: seq<Grounded>,
    inferences: seq<Grounded>,
    questions: seq<Question>)

  /** The hash of a brief covers everything but itself. */
  datatype BriefHash = BriefHashOf(body: Body) | ForeignHash(text: string)

  datatype Brief = Brief(body: Body, hash: BriefHash)

  datatype BriefError =
    | RequestInvalid
    | IntentInvalid
    | RequestMismatch
    | RequestHashMismatch
    | BaselineMissing
    | BriefInvalid

  // ---------------------------------------------------------------- validation

  predicate RefsOk(r: Refs) {
    r.Some? ==> r.value != []
  }

  predicate ProvenancedOk(p: Provenanced) {
    p.statement != "" && !p.provenance.UnknownProvenance? && RefsOk(p.refs)
  }

  predicate AllProvenanced(ps: seq<Provenanced>) {
    forall i | 0 <= i < |ps| :: ProvenancedOk(ps[i])
  }

  predicate CriteriaOk(cs: seq<Criterion>) {
    && cs != []
    && (forall i | 0 <= i < |cs| ::
          cs[i].id != "" && cs[i].statement != "" && !cs[i].provenance.UnknownProvenance? && RefsOk(cs[i].refs))
    && (forall i, j | 0 <= i < j < |cs| :: cs[i].id != cs[j].id)
  }

  predicate StringsOk(ss: seq<string>) {
    forall i | 0 <= i < |ss| :: ss[i] != ""
  }

  predicate Within(few: seq<string>, many: seq<string>) {
    forall s | s in few :: s in many
  }

  predicate Disjoint(a: seq<string>, b: seq<string>) {
    forall s | s in a :: s !in b
  }

  predicate ScopeOk(s: Scope, kind: Kind) {
    && StringsOk(s.candidates) && StringsOk(s.approved) && StringsOk(s.guarded)
    && if kind == Shadow then s.approved == [] && s.guarded == [] && s.status == Unresolved
       else s.status == Constrained && Within(s.approved, s.candidates) && Within(s.guarded, s.candidates)
            && Disjoint(s.approved, s.guarded)
  }

  predicate GroundedOk(gs: seq<Grounded>) {
    forall i | 0 <= i < |gs| :: gs[i].id != "" && gs[i].statement != "" && gs[i].refs != []
  }

  /** A question can never be made non-blocking. */
  predicate QuestionsOk(qs: seq<Question>) {
    forall i | 0 <= i < |qs| :: qs[i].id != "" && qs[i].statement != "" && qs[i].blocking && qs[i].refs != []
  }

  predicate BodyOk(b: Body) {
    && (b.kind == Shadow || b.kind == Active)
    && b.origins.wellFormed && b.origins.baseline != ""
    && ProvenancedOk(b.objective) && ProvenancedOk(b.boundary) && CriteriaOk(b.criteria)
    && AllProvenanced(b.constraints) && AllProvenanced(b.nonGoals) && AllProvenanced(b.assumptions)
    && AllProvenanced(b.unknowns) && AllProvenanced(b.riskSignals)
    && ScopeOk(b.scope, b.kind)
    && GroundedOk(b.facts) && GroundedOk(b.inferences) && QuestionsOk(b.questions)
  }

  predicate Validates(b: Brief) {
    BodyOk(b.body) && b.hash == BriefHashOf(b.body)
  }

  function Rehashed(b: Brief): Brief {
    b.(hash := BriefHashOf(b.body))
  }

  // ---------------------------------------------------------------- composition

  datatype IntentCriterion = IntentCriterion(id: string, statement: string, refs: Refs)

  /** A written intent contract. */
  datatype IntentDocument = IntentDocument(
    originalRequest: string,
    hashMatches: bool,
    objective: string,
    criteria: seq<IntentCriterion>,
    constraints: seq<string>,
    nonGoals: seq<string>,
    boundary: string,
    assumptions: seq<string>,
    unknowns: seq<string>,
    riskSignals: seq<string>,
    targets: seq<string>,
    sourceRefs: map<string, seq<Ref>>)

  predicate IntentOk(i: IntentDocument) {
    && i.originalRequest != "" && i.objective != "" && i.boundary != ""
    && i.criteria != []
    && (forall k | 0 <= k < |i.criteria| :: i.criteria[k].id != "" && i.criteria[k].statement != "" && RefsOk(i.criteria[k].refs))
    && (forall j, k | 0 <= j < k < |i.criteria| :: i.criteria[j].id != i.criteria[k].id)
    && StringsOk(i.constraints) && StringsOk(i.nonGoals) && StringsOk(i.assumptions) && StringsOk(i.unknowns)
    && StringsOk(i.riskSignals) && StringsOk(i.targets)
    && (forall p | p in i.sourceRefs :: i.sourceRefs[p] != [])
  }

  /** The references the intent keeps under a pointer; none and an empty list alike are no references. */
  function RefsAt(i: IntentDocument, pointer: string): (r: Refs)
    requires IntentOk(i)
    ensures RefsOk(r)
  {
    if pointer in i.sourceRefs then Some(i.sourceRefs[pointer]) else None
  }

  function FromStrings(i: IntentDocument, ss: seq<string>, pointer: string, provenance: Provenance): (ps: seq<Provenanced>)
    requires IntentOk(i)
    ensures |ps| == |ss|
    ensures forall k | 0 <= k < |ps| ::
              ps[k] == Provenanced(ss[k], provenance, RefsAt(i, pointer + "/" + Decimal(k)))
  {
    seq(|ss|, k requires 0 <= k < |ss| => Provenanced(ss[k], provenance, RefsAt(i, pointer + "/" + Decimal(k))))
  }

  function FromCriteria(i: IntentDocument): (cs: seq<Criterion>)
    requires IntentOk(i)
    ensures |cs| == |i.criteria|
    ensures KeepsCriteria(cs, i)
  {
    seq(|i.criteria|, k requires 0 <= k < |i.criteria| =>
      Criterion(i.criteria[k].id, i.criteria[k].statement, UserExplicit,
                if i.criteria[k].refs.Some? then i.criteria[k].refs else RefsAt(i, "/acceptanceCriteria/" + Decimal(k))))
  }

  /** Every unknown becomes a blocking question with at least one reference. */
  function FromUnknowns(i: IntentDocument): (qs: seq<Question>)
    requires IntentOk(i)
    ensures QuestionsOk(qs) && AsksAll(qs, i)
  {
    seq(|i.unknowns|, k requires 0 <= k < |i.unknowns| =>
      Question("OQ-" + Padded(k + 1), i.unknowns[k], true,
               var pointer := "/unknowns/" + Decimal(k);
               if RefsAt(i, pointer).Some? then RefsAt(i, pointer).value
               else [ArtifactRef("intent-contract.json", pointer)]))
  }

  function Composed(i: IntentDocument, baseline: string): Brief
    requires IntentOk(i)
  {
    Rehashed(Brief(
      Body(Shadow, Origins(baseline, true),
           Provenanced(i.objective, UserExplicit, RefsAt(i, "/objective")),
           FromCriteria(i),
           FromStrings(i, i.constraints, "/constraints", UserExplicit),
           FromStrings(i, i.nonGoals, "/nonGoals", UserExplicit),
           Provenanced(i.boundary, UserExplicit, RefsAt(i, "/authorizationBoundary")),
           FromStrings(i, i.assumptions, "/assumptions", UserExplicit),
           FromStrings(i, i.unknowns, "/unknowns", UserExplicit),
           FromStrings(i, i.riskSignals, "/riskSignals", ProofPolicy),
           Scope(i.targets, [], [], Unresolved),
           [], [], FromUnknowns(i)),
      ForeignHash("")))
  }

  /** Every string of the intent becomes one item, in order, with the references kept under the string's own pointer. */
  ghost predicate Keeps(ps: seq<Provenanced>, ss: seq<string>, provenance: Provenance, i: IntentDocument, pointer: string)
    requires IntentOk(i)
  {
    && |ps| == |ss|
    && forall k | 0 <= k < |ss| ::
         ps[k].statement == ss[k] && ps[k].provenance == provenance && ps[k].refs == RefsAt(i, pointer + "/" + Decimal(k))
  }

  /** Every criterion with its id, in order; its own references come before those kept under its pointer. */
  ghost predicate KeepsCriteria(cs: seq<Criterion>, i: IntentDocument)
    requires IntentOk(i)
  {
    && |cs| == |i.criteria|
    && forall k | 0 <= k < |i.criteria| ::
         var from := i.criteria[k];
         && cs[k].id == from.id && cs[k].statement == from.statement && cs[k].provenance == UserExplicit
         && (from.refs.Some? ==> cs[k].refs == from.refs)
         && (from.refs.None? ==> cs[k].refs == RefsAt(i, "/acceptanceCriteria/" + Decimal(k)))
  }

  /** Every unknown is asked about, in order, and the answer is waited for; a question without a reference to the
      request refers to the unknown itself. */
  ghost predicate AsksAll(qs: seq<Question>, i: IntentDocument)
    requires IntentOk(i)
  {
    && |qs| == |i.unknowns|
    && forall k | 0 <= k < |i.unknowns| ::
         var pointer := "/unknowns/" + Decimal(k);
         && qs[k].id == "OQ-" + Padded(k + 1) && qs[k].statement == i.unknowns[k] && qs[k].blocking
         && (pointer in i.sourceRefs ==> qs[k].refs == i.sourceRefs[pointer])
         && (pointer !in i.sourceRefs ==> qs[k].refs == [ArtifactRef("intent-contract.json", pointer)])
  }

  ghost predicate KeepsOne(p: Provenanced, statement: string, i: IntentDocument, pointer: string)
    requires IntentOk(i)
  {
    p.statement == statement && p.provenance == UserExplicit && p.refs == RefsAt(i, pointer)
  }

  /** A brief says what the intent says, item by item, with the intent's own references, and adds no fact. Refining a
      brief changes its kind and its scope, and keeps this. */
  ghost predicate Says(b: Body, i: IntentDocument)
    requires IntentOk(i)
  {
    && KeepsOne(b.objective, i.objective, i, "/objective")
    && KeepsOne(b.boundary, i.boundary, i, "/authorizationBoundary")
    && KeepsCriteria(b.criteria, i)
    && Keeps(b.constraints, i.constraints, UserExplicit, i, "/constraints")
    && Keeps(b.nonGoals, i.nonGoals, UserExplicit, i, "/nonGoals")
    && Keeps(b.assumptions, i.assumptions, UserExplicit, i, "/assumptions")
    && Keeps(b.unknowns, i.unknowns, UserExplicit, i, "/unknowns")
    && Keeps(b.riskSignals, i.riskSignals, ProofPolicy, i, "/riskSignals")
    && AsksAll(b.questions, i)
    && b.scope.candidates == i.targets && b.facts == [] && b.inferences == []
  }

  /** A composed brief is a shadow: it says what the intent says and approves no path. */
  ghost predicate Preserves(b: Brief, i: IntentDocument, baseline: string)
    requires IntentOk(i)
  {
    && b.body.kind == Shadow && b.body.origins.baseline == baseline
    && b.body.scope.approved == [] && b.body.scope.guarded == [] && b.body.scope.status == Unresolved
    && Says(b.body, i)
  }

  predicate Blank(s: string) {
    forall k | 0 <= k < |s| :: s[k] in {' ', '\t', '\n', '\r'}
  }

  lemma ComposedValidates(i: IntentDocument, baseline: string)
    requires IntentOk(i) && baseline != ""
    ensures Validates(Composed(i, baseline))
  {
    hide Decimal, Padded, RefsAt;
    var b := Composed(i, baseline).body;
    assert AllProvenanced(b.constraints) && AllProvenanced(b.nonGoals) && AllProvenanced(b.assumptions);
    assert AllProvenanced(b.unknowns) && AllProvenanced(b.riskSignals);
    assert CriteriaOk(b.criteria);
    assert ProvenancedOk(b.objective) && ProvenancedOk(b.boundary);
    assert ScopeOk(b.scope, b.kind) && GroundedOk(b.facts) && QuestionsOk(b.questions);
    assert BodyOk(b);
  }

  lemma ComposedPreserves(i: IntentDocument, baseline: string)
    requires IntentOk(i)
    ensures Preserves(Composed(i, baseline), i, baseline)
  {
    hide Decimal, Padded, RefsAt, IntentOk;
  }

  /** A composed brief always passes the validation it ends with. */
  lemma ComposedIsValid(i: IntentDocument, baseline: string)
    requires IntentOk(i) && baseline != ""
    ensures Validates(Composed(i, baseline)) && Preserves(Composed(i, baseline), i, baseline)
  {
    hide Validates, Preserves, Composed, IntentOk;
    ComposedValidates(i, baseline);
    ComposedPreserves(i, baseline);
  }

  method ComposeExecutionBrief(request: string, i: IntentDocument, baseline: string) returns (r: Result<Brief, BriefError>)
    ensures r.Ok? <==> !Blank(request) && IntentOk(i) && baseline != "" && i.originalRequest == request && i.hashMatches
    ensures r.Ok? ==> Validates(r.value) && Preserves(r.value, i, baseline)
    ensures r == Err(RequestInvalid) <==> Blank(request)
    ensures r == Err(IntentInvalid) <==> !Blank(request) && !IntentOk(i)
    ensures r == Err(BaselineMissing) <==> !Blank(request) && IntentOk(i) && baseline == ""
    ensures r == Err(RequestMismatch) <==> !Blank(request) && IntentOk(i) && baseline != "" && i.originalRequest != request
  {
    if Blank(request) { return Err(RequestInvalid); }
    if !IntentOk(i) { return Err(IntentInvalid); }
    if baseline == "" { return Err(BaselineMissing); }
    if i.originalRequest != request { return Err(RequestMismatch); }
    if !i.hashMatches { return Err(RequestHashMismatch); }
    ComposedIsValid(i, baseline);
    return Ok(Composed(i, baseline));
  }
}
