/** Compiling a request into an intent contract whose every item points back into the request. */
module Intent {
  import opened Common
  import opened Text
  import opened JsonPointer
  import opened Clauses

  /** The word patterns that sort clauses; their contents play no part here. */
  datatype Marks = Marks(constraint: string -> bool, nonGoal: string -> bool, verification: string -> bool, claim: string -> bool)

  /** How texts are compared: spacing and case folded away. */
  type Folding = string -> string

  datatype Criterion = Criterion(id: string, clause: Clause)

  datatype Contract = Contract(
    objective: Clause,
    criteria: seq<Criterion>,
    constraints: seq<Clause>,
    nonGoals: seq<Clause>)

  datatype IntentError = EmptyRequest | NoSemanticContent

  function CriterionId(index: nat): string {
    "AC-" + Padded(index + 1)
  }

  lemma CriterionIdsDiffer(i: nat, j: nat)
    requires CriterionId(i) == CriterionId(j)
    ensures i == j
  {
    var a, b := Padded(i + 1), Padded(j + 1);
    assert CriterionId(i)[3..] == a && CriterionId(j)[3..] == b;
    PaddedRoundTrip(i + 1);
    PaddedRoundTrip(j + 1);
  }

  // ---------------------------------------------------------------- deduplication

  /** A clause that does not fold away, with none like it before. */
  predicate IsNew(c: Clause, before: seq<Clause>, fold: Folding) {
    fold(c.text) != "" && forall d | d in before :: fold(d.text) != fold(c.text)
  }

  /** The first clause of each kind, in the order of the list. */
  function Firsts(clauses: seq<Clause>, fold: Folding): seq<Clause> {
    if clauses == [] then []
    else
      var init, c := clauses[..|clauses| - 1], clauses[|clauses| - 1];
      Firsts(init, fold) + if IsNew(c, init, fold) then [c] else []
  }

  /** The first clause of each kind: only clauses of the original list, no two alike, and one like every clause that does
      not fold away. */
  ghost predicate Deduped(kept: seq<Clause>, clauses: seq<Clause>, fold: Folding) {
    && kept == Firsts(clauses, fold)
    && AllKept(kept, clauses, fold) && Apart(kept, fold) && AllRepresented(clauses, kept, fold)
  }

  predicate AllKept(kept: seq<Clause>, clauses: seq<Clause>, fold: Folding) {
    forall k | 0 <= k < |kept| :: kept[k] in clauses && fold(kept[k].text) != ""
  }

  predicate Apart(kept: seq<Clause>, fold: Folding) {
    forall i, j | 0 <= i < j < |kept| :: fold(kept[i].text) != fold(kept[j].text)
  }

  ghost predicate AllRepresented(clauses: seq<Clause>, kept: seq<Clause>, fold: Folding) {
    forall c | c in clauses && fold(c.text) != "" :: Represented(c, kept, fold)
  }

  ghost predicate Represented(c: Clause, kept: seq<Clause>, fold: Folding) {
    exists k | 0 <= k < |kept| :: fold(kept[k].text) == fold(c.text)
  }

  method DedupeClauses(clauses: seq<Clause>, fold: Folding) returns (kept: seq<Clause>)
    ensures Deduped(kept, clauses, fold)
    ensures clauses != [] && fold(clauses[0].text) != "" ==> kept != [] && kept[0] == clauses[0]
  {
    hide Deduped;
    kept := [];
    var seen: set<string> := {};
    NothingDeduped(fold);
    var i := 0;
    while i < |clauses|
      invariant 0 <= i <= |clauses|
      invariant Deduped(kept, clauses[..i], fold)
      invariant Remembers(seen, kept, fold)
      invariant i > 0 && fold(clauses[0].text) != "" ==> kept != [] && kept[0] == clauses[0]
    {
      var folded := fold(clauses[i].text);
      RememberedIffRepresented(seen, kept, clauses[i], fold);
      DedupeStep(kept, clauses[..i], clauses[i], fold);
      NothingSeen(seen, kept, fold);
      assert clauses[..i + 1] == clauses[..i] + [clauses[i]];
      assert i == 0 ==> clauses[..i] == [];
      if folded != "" && folded !in seen {
        Remember(seen, kept, clauses[i], fold);
        seen := seen + {folded};
        kept := kept + [clauses[i]];
      }
      i := i + 1;
    }
    assert clauses[..i] == clauses;
  }

  ghost predicate Remembers(seen: set<string>, kept: seq<Clause>, fold: Folding) {
    forall f :: f in seen <==> exists k | 0 <= k < |kept| :: fold(kept[k].text) == f
  }

  lemma RememberedIffRepresented(seen: set<string>, kept: seq<Clause>, c: Clause, fold: Folding)
    requires Remembers(seen, kept, fold)
    ensures fold(c.text) in seen <==> Represented(c, kept, fold)
  {
  }

  lemma Remember(seen: set<string>, kept: seq<Clause>, c: Clause, fold: Folding)
    requires Remembers(seen, kept, fold)
    ensures Remembers(seen + {fold(c.text)}, kept + [c], fold)
  {
    var more := kept + [c];
    assert more[|kept|] == c && forall k | 0 <= k < |kept| :: more[k] == kept[k];
  }

  lemma NothingSeen(seen: set<string>, kept: seq<Clause>, fold: Folding)
    requires Remembers(seen, kept, fold)
    ensures kept == [] ==> seen == {}
  {
  }

  lemma NothingDeduped(fold: Folding)
    ensures Deduped([], [], fold) && Remembers({}, [], fold)
  {
  }

  lemma RepresentedStill(d: Clause, kept: seq<Clause>, c: Clause, fold: Folding)
    ensures Represented(d, kept, fold) ==> Represented(d, kept + [c], fold)
    ensures Represented(c, kept + [c], fold)
  {
    var more := kept + [c];
    assert more[|kept|] == c;
    if Represented(d, kept, fold) {
      var k :| 0 <= k < |kept| && fold(kept[k].text) == fold(d.text);
      assert more[k] == kept[k];
    }
  }

  lemma DedupeSkip(before: seq<Clause>, clauses: seq<Clause>, c: Clause, fold: Folding)
    requires Deduped(before, clauses, fold) && (fold(c.text) == "" || Represented(c, before, fold))
    ensures Deduped(before, clauses + [c], fold)
  {
    NotNew(before, clauses, c, fold);
    FirstsNext(clauses, c, fold);
    hide Represented, Firsts, IsNew, Apart;
  }

  lemma NotNew(before: seq<Clause>, clauses: seq<Clause>, c: Clause, fold: Folding)
    requires Deduped(before, clauses, fold)
    ensures IsNew(c, clauses, fold) <==> fold(c.text) != "" && !Represented(c, before, fold)
  {
    hide Firsts;
    if d :| d in clauses && fold(d.text) == fold(c.text) && fold(c.text) != "" {
      var k :| 0 <= k < |before| && fold(before[k].text) == fold(d.text);
      assert Represented(c, before, fold);
    }
  }

  lemma FirstsNext(clauses: seq<Clause>, c: Clause, fold: Folding)
    ensures Firsts(clauses + [c], fold) == Firsts(clauses, fold) + if IsNew(c, clauses, fold) then [c] else []
  {
    assert (clauses + [c])[..|clauses|] == clauses;
  }

  lemma AddRepresents(before: seq<Clause>, clauses: seq<Clause>, c: Clause, fold: Folding)
    requires AllRepresented(clauses, before, fold)
    ensures AllRepresented(clauses + [c], before + [c], fold)
  {
    hide Represented;
    forall d | d in clauses + [c] && fold(d.text) != "" ensures Represented(d, before + [c], fold) {
      RepresentedStill(d, before, c, fold);
    }
  }

  lemma AddApart(before: seq<Clause>, c: Clause, fold: Folding)
    requires !Represented(c, before, fold) && Apart(before, fold)
    ensures Apart(before + [c], fold)
  {
  }

  lemma AddKept(before: seq<Clause>, clauses: seq<Clause>, c: Clause, fold: Folding)
    requires fold(c.text) != "" && AllKept(before, clauses, fold)
    ensures AllKept(before + [c], clauses + [c], fold)
  {
  }

  lemma DedupeAdd(before: seq<Clause>, clauses: seq<Clause>, c: Clause, fold: Folding)
    requires Deduped(before, clauses, fold) && fold(c.text) != "" && !Represented(c, before, fold)
    ensures Deduped(before + [c], clauses + [c], fold)
  {
    NotNew(before, clauses, c, fold);
    FirstsNext(clauses, c, fold);
    hide Firsts, IsNew, Represented, AllKept, Apart, AllRepresented;
    AddKept(before, clauses, c, fold);
    AddApart(before, c, fold);
    AddRepresents(before, clauses, c, fold);
  }

  lemma DedupeStep(before: seq<Clause>, clauses: seq<Clause>, c: Clause, fold: Folding)
    requires Deduped(before, clauses, fold)
    ensures Deduped(if fold(c.text) != "" && !Represented(c, before, fold) then before + [c] else before,
                    clauses + [c], fold)
    ensures clauses == [] ==> before == []
  {
    NoneFromNone(before, clauses, fold);
    hide Deduped, Represented;
    if fold(c.text) != "" && !Represented(c, before, fold) {
      DedupeAdd(before, clauses, c, fold);
    } else {
      DedupeSkip(before, clauses, c, fold);
    }
  }

  lemma NoneFromNone(kept: seq<Clause>, clauses: seq<Clause>, fold: Folding)
    requires Deduped(kept, clauses, fold)
    ensures kept != [] ==> clauses != []
  {
    if kept != [] { assert kept[0] in clauses; }
  }

  // ---------------------------------------------------------------- sorting the clauses

  predicate Unmarked(c: Clause, marks: Marks) {
    !marks.constraint(c.text) && !marks.nonGoal(c.text)
  }

  /** The first clause that neither constrains nor excludes, or the first clause of all. */
  predicate IsObjective(k: nat, clauses: seq<Clause>, marks: Marks) {
    && k < |clauses|
    && (Unmarked(clauses[k], marks) ==> forall j | 0 <= j < k :: !Unmarked(clauses[j], marks))
    && (!Unmarked(clauses[k], marks) ==> k == 0 && forall j | 0 <= j < |clauses| :: !Unmarked(clauses[j], marks))
  }

  method FindObjective(clauses: seq<Clause>, marks: Marks) returns (k: nat)
    requires clauses != []
    ensures IsObjective(k, clauses, marks)
  {
    k := 0;
    while k < |clauses| && !Unmarked(clauses[k], marks)
      invariant 0 <= k <= |clauses| && forall j | 0 <= j < k :: !Unmarked(clauses[j], marks)
    {
      k := k + 1;
    }
    if k == |clauses| { k := 0; }
  }

  /** Which clauses become criteria besides the objective: every list item, and whatever is to be verified. */
  predicate IsCriterion(c: Clause, marks: Marks) {
    || c.listed
    || (!marks.nonGoal(c.text)
        && (marks.verification(c.text) || (marks.constraint(c.text) && marks.claim(c.text))))
  }

  predicate IsConstraint(c: Clause, marks: Marks) {
    marks.constraint(c.text) && !marks.nonGoal(c.text)
  }

  datatype Pick = Criteria | Constraints | NonGoals

  predicate Picks(pick: Pick, c: Clause, marks: Marks) {
    match pick
    case Criteria => IsCriterion(c, marks)
    case Constraints => IsConstraint(c, marks)
    case NonGoals => marks.nonGoal(c.text)
  }

  /** The picked ones among the first n clauses but the objective, in order. */
  function Picked(clauses: seq<Clause>, objective: nat, n: nat, pick: Pick, marks: Marks): (r: seq<Clause>)
    requires n <= |clauses|
    ensures forall c :: c in r <==> exists i | 0 <= i < n :: i != objective && clauses[i] == c && Picks(pick, c, marks)
  {
    if n == 0 then []
    else
      Picked(clauses, objective, n - 1, pick, marks)
      + if n - 1 != objective && Picks(pick, clauses[n - 1], marks) then [clauses[n - 1]] else []
  }

  lemma PickNext(clauses: seq<Clause>, objective: nat, i: nat, pick: Pick, marks: Marks)
    requires i < |clauses|
    ensures Picked(clauses, objective, i + 1, pick, marks) ==
              Picked(clauses, objective, i, pick, marks)
              + if i != objective && Picks(pick, clauses[i], marks) then [clauses[i]] else []
  {
  }

  lemma NonePicked(clauses: seq<Clause>, objective: nat, marks: Marks)
    ensures forall pick :: Picked(clauses, objective, 0, pick, marks) == []
  {
  }

  /** Sorts the clauses; the objective is the first criterion. */
  method SortClauses(clauses: seq<Clause>, objective: nat, marks: Marks)
    returns (criteria: seq<Clause>, constraints: seq<Clause>, nonGoals: seq<Clause>)
    requires objective < |clauses|
    ensures criteria == [clauses[objective]] + Picked(clauses, objective, |clauses|, Criteria, marks)
    ensures constraints == Picked(clauses, objective, |clauses|, Constraints, marks)
    ensures nonGoals == Picked(clauses, objective, |clauses|, NonGoals, marks)
  {
    hide Picked;
    criteria, constraints, nonGoals := [clauses[objective]], [], [];
    NonePicked(clauses, objective, marks);
    var i := 0;
    while i < |clauses|
      invariant 0 <= i <= |clauses|
      invariant criteria == [clauses[objective]] + Picked(clauses, objective, i, Criteria, marks)
      invariant constraints == Picked(clauses, objective, i, Constraints, marks)
      invariant nonGoals == Picked(clauses, objective, i, NonGoals, marks)
    {
      var c := clauses[i];
      PickNext(clauses, objective, i, Criteria, marks);
      PickNext(clauses, objective, i, Constraints, marks);
      PickNext(clauses, objective, i, NonGoals, marks);
      if i != objective {
        if marks.nonGoal(c.text) {
          nonGoals := nonGoals + [c];
          if c.listed { criteria := criteria + [c]; }
        } else if marks.constraint(c.text) {
          constraints := constraints + [c];
          if c.listed || marks.verification(c.text) || marks.claim(c.text) { criteria := criteria + [c]; }
        } else if c.listed || marks.verification(c.text) {
          criteria := criteria + [c];
        }
      }
      i := i + 1;
    }
  }

  function Numbered(clauses: seq<Clause>): (cs: seq<Criterion>)
    ensures |cs| == |clauses|
    ensures forall i | 0 <= i < |cs| :: cs[i] == Criterion(CriterionId(i), clauses[i])
  {
    seq(|clauses|, i requires 0 <= i < |clauses| => Criterion(CriterionId(i), clauses[i]))
  }

  function ClausesIn(criteria: seq<Criterion>): (cs: seq<Clause>)
    ensures |cs| == |criteria| && forall i | 0 <= i < |cs| :: cs[i] == criteria[i].clause
  {
    seq(|criteria|, i requires 0 <= i < |criteria| => criteria[i].clause)
  }

  /** What a contract is of the clauses of its request. */
  ghost predicate ContractOf(contract: Contract, clauses: seq<Clause>, marks: Marks, fold: Folding) {
    exists k: nat :: ContractFor(contract, clauses, k, marks, fold)
  }

  ghost predicate ContractFor(contract: Contract, clauses: seq<Clause>, k: nat, marks: Marks, fold: Folding) {
    && IsObjective(k, clauses, marks) && contract.objective == clauses[k]
    && (forall i | 0 <= i < |contract.criteria| :: contract.criteria[i].id == CriterionId(i))
    && Deduped(ClausesIn(contract.criteria), [clauses[k]] + Picked(clauses, k, |clauses|, Criteria, marks), fold)
    && Deduped(contract.constraints, Picked(clauses, k, |clauses|, Constraints, marks), fold)
    && Deduped(contract.nonGoals, Picked(clauses, k, |clauses|, NonGoals, marks), fold)
    && (fold(contract.objective.text) != "" ==> contract.criteria != [] && contract.criteria[0].clause == contract.objective)
  }

  method CompileIntent(request: string, space: Spaces, sentences: Sentences, marks: Marks, fold: Folding)
    returns (r: Result<Contract, IntentError>, ghost clauses: seq<Clause>)
    requires Cuts(sentences)
    ensures Exact(clauses, request, |request|)
    ensures forall n | 0 <= n < |SplitLines(request)| :: ItemCovered(clauses, SplitLines(request), n, space)
    ensures CuttingsOf(clauses) == AllCuttings(SplitLines(request), |SplitLines(request)|, space, sentences)
    ensures r.Ok? ==> ContractOf(r.value, clauses, marks, fold)
    ensures r.Err? <==> Strip(request, space) == "" || clauses == []
  {
    hide Exact, SplitLines, Strip, ItemCovered, IsObjective, Deduped, Picked, Cuts, CuttingsOf, AllCuttings;
    var cut := ClausesOf(request, space, sentences);
    clauses := cut;
    if Strip(request, space) == "" { return Err(EmptyRequest), clauses; }
    if cut == [] { return Err(NoSemanticContent), clauses; }
    var k := FindObjective(cut, marks);
    var first, constraints, nonGoals := SortClauses(cut, k, marks);
    var criteria := DedupeClauses(first, fold);
    constraints := DedupeClauses(constraints, fold);
    nonGoals := DedupeClauses(nonGoals, fold);
    var contract := Contract(cut[k], Numbered(criteria), constraints, nonGoals);
    assert ClausesIn(contract.criteria) == criteria;
    assert ContractFor(contract, clauses, k, marks, fold);
    return Ok(contract), clauses;
  }

  // ---------------------------------------------------------------- nothing listed is lost

  lemma CriteriaFrom(contract: Contract, clauses: seq<Clause>, o: nat, marks: Marks, fold: Folding)
    requires ContractFor(contract, clauses, o, marks, fold)
    ensures forall k | 0 <= k < |contract.criteria| :: contract.criteria[k].clause in clauses
  {
    hide IsObjective, CriterionId;
    ObjectiveIsClause(o, clauses, marks);
    var from, kept := [clauses[o]] + Picked(clauses, o, |clauses|, Criteria, marks), ClausesIn(contract.criteria);
    forall k | 0 <= k < |contract.criteria| ensures contract.criteria[k].clause in clauses {
      assert kept[k] in from;
      assert from[0] == clauses[o] && clauses[o] in clauses;
    }
  }

  lemma ListedIsKept(contract: Contract, clauses: seq<Clause>, o: nat, marks: Marks, fold: Folding, c: Clause)
    requires ContractFor(contract, clauses, o, marks, fold) && c in clauses && c.listed && fold(c.text) != ""
    ensures Represented(c, ClausesIn(contract.criteria), fold)
  {
    hide IsObjective, CriterionId, Represented, ClausesIn;
    ObjectiveIsClause(o, clauses, marks);
    var from := [clauses[o]] + Picked(clauses, o, |clauses|, Criteria, marks);
    var i :| 0 <= i < |clauses| && clauses[i] == c;
    if i == o {
      assert from[0] == c;
    } else {
      assert Picks(Criteria, c, marks);
      assert c in Picked(clauses, o, |clauses|, Criteria, marks);
    }
    assert c in from;
  }

  lemma CriteriaDiffer(contract: Contract, clauses: seq<Clause>, o: nat, marks: Marks, fold: Folding, i: nat, j: nat)
    requires ContractFor(contract, clauses, o, marks, fold) && i < j < |contract.criteria|
    ensures contract.criteria[i].id != contract.criteria[j].id
    ensures fold(contract.criteria[i].clause.text) != fold(contract.criteria[j].clause.text)
  {
    hide IsObjective, CriterionId, Represented, Picked;
    ObjectiveIsClause(o, clauses, marks);
    var kept := ClausesIn(contract.criteria);
    assert fold(kept[i].text) != fold(kept[j].text);
    if contract.criteria[i].id == contract.criteria[j].id { CriterionIdsDiffer(i, j); }
  }

  lemma CriteriaNumbered(contract: Contract, clauses: seq<Clause>, marks: Marks, fold: Folding)
    requires ContractOf(contract, clauses, marks, fold)
    ensures forall k | 0 <= k < |contract.criteria| ::
              contract.criteria[k].id == CriterionId(k) && contract.criteria[k].id != ""
  {
    hide Deduped, IsObjective, Picked;
  }

  /** Every list item of the request whose text does not fold away has an acceptance criterion with the same folded
      text; every criterion is an exact span of the request; no two criteria are alike, in text or in id. */
  lemma ListItemsBecomeCriteria(contract: Contract, request: string, clauses: seq<Clause>, marks: Marks, fold: Folding)
    requires Exact(clauses, request, |request|) && ContractOf(contract, clauses, marks, fold)
    ensures forall c | c in clauses && c.listed && fold(c.text) != "" ::
              exists k | 0 <= k < |contract.criteria| :: fold(contract.criteria[k].clause.text) == fold(c.text)
    ensures forall k | 0 <= k < |contract.criteria| ::
              var c := contract.criteria[k].clause;
              c.start <= c.end <= |request| && request[c.start..c.end] == c.text && c.text != ""
    ensures forall i, j | 0 <= i < j < |contract.criteria| ::
              && contract.criteria[i].id != contract.criteria[j].id
              && fold(contract.criteria[i].clause.text) != fold(contract.criteria[j].clause.text)
  {
    hide ContractFor;
    var o: nat :| ContractFor(contract, clauses, o, marks, fold);
    CriteriaFrom(contract, clauses, o, marks, fold);
    forall c | c in clauses && c.listed && fold(c.text) != ""
      ensures exists k | 0 <= k < |contract.criteria| :: fold(contract.criteria[k].clause.text) == fold(c.text)
    {
      ListedIsKept(contract, clauses, o, marks, fold, c);
    }
    forall i, j | 0 <= i < j < |contract.criteria|
      ensures contract.criteria[i].id != contract.criteria[j].id
      ensures fold(contract.criteria[i].clause.text) != fold(contract.criteria[j].clause.text)
    {
      CriteriaDiffer(contract, clauses, o, marks, fold, i, j);
    }
  }

  lemma ObjectiveIsClause(k: nat, clauses: seq<Clause>, marks: Marks)
    requires IsObjective(k, clauses, marks)
    ensures k < |clauses|
  {
  }

  // ---------------------------------------------------------------- source references

  const DEFAULT_CONSTRAINT: string := "Preserve behavior outside the accepted objective."
  const DEFAULT_NON_GOAL: string := "Unrequested production operations or external side effects."

  function Texts(clauses: seq<Clause>): (ts: seq<string>)
    ensures |ts| == |clauses| && forall i | 0 <= i < |ts| :: ts[i] == clauses[i].text
  {
    seq(|clauses|, i requires 0 <= i < |clauses| => clauses[i].text)
  }

  function WithDefault(texts: seq<string>, default_: string): (r: seq<string>)
    ensures texts <= r && default_ in r && |r| <= |texts| + 1 && (default_ in texts ==> r == texts)
  {
    if default_ in texts then texts else texts + [default_]
  }

  function Strings(texts: seq<string>): (r: seq<Json>)
    ensures |r| == |texts| && forall i | 0 <= i < |r| :: r[i] == Str(texts[i])
  {
    seq(|texts|, i requires 0 <= i < |texts| => Str(texts[i]))
  }

  function CriterionJson(c: Criterion): Json {
    Obj(map["id" := Str(c.id), "statement" := Str(c.clause.text)])
  }

  function CriteriaJson(cs: seq<Criterion>): (r: seq<Json>)
    ensures |r| == |cs| && forall i | 0 <= i < |r| :: r[i] == CriterionJson(cs[i])
  {
    seq(|cs|, i requires 0 <= i < |cs| => CriterionJson(cs[i]))
  }

  /** The lists of a contract that source references point into. */
  datatype Section = CriteriaSection | ConstraintSection | NonGoalSection

  function SectionName(s: Section): (name: string)
    ensures '/' !in name && '~' !in name && name != "objective"
  {
    match s
    case CriteriaSection => "acceptanceCriteria"
    case ConstraintSection => "constraints"
    case NonGoalSection => "nonGoals"
  }

  function SectionItems(contract: Contract, s: Section): seq<Json> {
    match s
    case CriteriaSection => CriteriaJson(contract.criteria)
    case ConstraintSection => Strings(WithDefault(Texts(contract.constraints), DEFAULT_CONSTRAINT))
    case NonGoalSection => Strings(WithDefault(Texts(contract.nonGoals), DEFAULT_NON_GOAL))
  }

  /** The clauses a section's items were made from; a default item has none. */
  function SectionClauses(contract: Contract, s: Section): seq<Clause> {
    match s
    case CriteriaSection => ClausesIn(contract.criteria)
    case ConstraintSection => contract.constraints
    case NonGoalSection => contract.nonGoals
  }

  /** The contract as JSON, with whatever other fields it has. */
  function ContractJson(contract: Contract, others: map<string, Json>): Json {
    Obj(others + map[
      "objective" := Str(contract.objective.text),
      SectionName(CriteriaSection) := Arr(SectionItems(contract, CriteriaSection)),
      SectionName(ConstraintSection) := Arr(SectionItems(contract, ConstraintSection)),
      SectionName(NonGoalSection) := Arr(SectionItems(contract, NonGoalSection))])
  }

  /** The text an item of the contract shows. */
  function Shown(item: Json): Option<string> {
    match item
    case Str(t) => Some(t)
    case Obj(fields) => if "statement" in fields && fields["statement"].Str? then Some(fields["statement"].text) else None
    case _ => None
  }

  /** Evaluating the pointer in the contract reaches an item that shows the clause's text. */
  predicate Labels(json: Json, pointer: string, c: Clause) {
    Evaluate(json, pointer).Ok? && Shown(Evaluate(json, pointer).value) == Some(c.text)
  }

  lemma {:induction false} EscapePlain(name: string)
    requires '/' !in name && '~' !in name
    ensures Escape(name) == name
  {
    if name != [] {
      EscapePlain(name[1..]);
      assert name[0] in name && [name[0]] + name[1..] == name;
    }
  }

  lemma PrintItem(name: string, i: nat)
    requires '/' !in name && '~' !in name
    ensures Print([Key(name), Index(i)]) == "/" + name + "/" + Decimal(i)
    ensures Print([Key(name)]) == "/" + name
  {
    EscapePlain(name);
    assert [Key(name), Index(i)][1..] == [Index(i)] && [Index(i)][1..] == [] && [Key(name)][1..] == [];
    assert Print([Index(i)]) == "/" + Decimal(i) by { assert Print([]) == ""; }
    assert "/" + name + ("/" + Decimal(i)) == "/" + name + "/" + Decimal(i);
    assert Print([]) == "" && "/" + name + "" == "/" + name;
  }

  lemma SectionNamesDiffer()
    ensures |SectionName(CriteriaSection)| == 18 && |SectionName(ConstraintSection)| == 11
    ensures |SectionName(NonGoalSection)| == 8 && |"objective"| == 9
  {
  }

  lemma SectionField(contract: Contract, others: map<string, Json>, s: Section)
    ensures SectionName(s) in ContractJson(contract, others).fields
    ensures ContractJson(contract, others).fields[SectionName(s)] == Arr(SectionItems(contract, s))
  {
    hide SectionName, SectionItems;
    SectionNamesDiffer();
    match s {
      case CriteriaSection =>
      case ConstraintSection =>
      case NonGoalSection =>
    }
  }

  lemma ItemShows(contract: Contract, s: Section, i: nat)
    requires i < |SectionClauses(contract, s)|
    ensures i < |SectionItems(contract, s)| && Shown(SectionItems(contract, s)[i]) == Some(SectionClauses(contract, s)[i].text)
  {
  }

  lemma ItemResolves(contract: Contract, others: map<string, Json>, s: Section, i: nat)
    requires i < |SectionClauses(contract, s)|
    ensures Labels(ContractJson(contract, others), "/" + SectionName(s) + "/" + Decimal(i), SectionClauses(contract, s)[i])
  {
    hide SectionName, SectionItems, Evaluate, ContractJson, Shown, SectionClauses;
    var json, path := ContractJson(contract, others), [Key(SectionName(s)), Index(i)];
    SectionField(contract, others, s);
    ItemShows(contract, s, i);
    PrintItem(SectionName(s), i);
    assert path[1..] == [Index(i)] && [Index(i)][1..] == [];
    assert json.Obj? by { ContractIsObject(contract, others); }
    var items := Arr(SectionItems(contract, s));
    assert NodeAt(items, [Index(i)]) == NodeAt(items.items[i], []);
    assert NodeAt(json, path) == Some(items.items[i]);
    PointerRoundTrip(json, path);
  }

  lemma ContractIsObject(contract: Contract, others: map<string, Json>)
    ensures ContractJson(contract, others).Obj?
    ensures "objective" in ContractJson(contract, others).fields
    ensures ContractJson(contract, others).fields["objective"] == Str(contract.objective.text)
  {
    hide SectionName, SectionItems;
    SectionNamesDiffer();
  }

  lemma FieldResolves(json: Json, name: string, c: Clause)
    requires '/' !in name && '~' !in name && json.Obj? && name in json.fields && json.fields[name] == Str(c.text)
    ensures Labels(json, "/" + name, c)
  {
    hide Evaluate, Decimal;
    PrintItem(name, 0);
    assert [Key(name)][1..] == [];
    assert NodeAt(json, [Key(name)]) == Some(json.fields[name]);
    PointerRoundTrip(json, [Key(name)]);
  }

  lemma ObjectiveResolves(contract: Contract, others: map<string, Json>)
    ensures Labels(ContractJson(contract, others), "/objective", contract.objective)
  {
    hide ContractJson, Labels;
    ContractIsObject(contract, others);
    FieldResolves(ContractJson(contract, others), "objective", contract.objective);
    assert "/" + "objective" == "/objective";
  }

  /** Every key made for a section, and the objective's, resolves to the item it labels. */
  ghost predicate AllResolve(refs: map<string, Clause>, json: Json) {
    forall p | p in refs :: Labels(json, p, refs[p])
  }

  /** Each key is for the item it names. */
  ghost predicate SectionFits(refs: map<string, Clause>, contract: Contract, s: Section) {
    forall i | 0 <= i < |SectionClauses(contract, s)| ::
      var key := ItemKey(s, i);
      key in refs && refs[key] == SectionClauses(contract, s)[i]
  }

  function ItemKey(s: Section, i: nat): string {
    "/" + SectionName(s) + "/" + Decimal(i)
  }

  ghost predicate RefsFit(refs: map<string, Clause>, contract: Contract) {
    && "/objective" in refs && refs["/objective"] == contract.objective
    && SectionFits(refs, contract, CriteriaSection) && SectionFits(refs, contract, ConstraintSection)
    && SectionFits(refs, contract, NonGoalSection)
  }

  lemma KeysDiffer(s: Section, i: nat, t: Section, j: nat)
    requires ItemKey(s, i) == ItemKey(t, j)
    ensures s == t && i == j
  {
    hide Decimal;
    assert ItemKey(s, i)[1] == SectionName(s)[0] && ItemKey(t, j)[1] == SectionName(t)[0];
    assert "acceptanceCriteria"[0] == 'a' && "constraints"[0] == 'c' && "nonGoals"[0] == 'n';
    var n := 2 + |SectionName(s)|;
    assert ItemKey(s, i)[n..] == Decimal(i) && ItemKey(s, j)[n..] == Decimal(j);
    DecimalsDiffer(i, j);
  }

  lemma NoItemIsObjective(s: Section, i: nat)
    ensures ItemKey(s, i) != "/objective"
  {
    hide Decimal;
    assert ItemKey(s, i)[1] == SectionName(s)[0] && "/objective"[1] == 'o';
    assert "acceptanceCriteria"[0] == 'a' && "constraints"[0] == 'c' && "nonGoals"[0] == 'n';
  }

  /** The keys of one section. */
  method AddSection(contract: Contract, s: Section, refs: map<string, Clause>, ghost others: map<string, Json>)
    returns (more: map<string, Clause>)
    requires AllResolve(refs, ContractJson(contract, others))
    ensures AllResolve(more, ContractJson(contract, others)) && SectionFits(more, contract, s)
    ensures forall p | p in refs && !(exists i: nat :: p == ItemKey(s, i)) :: p in more && more[p] == refs[p]
  {
    hide SectionName, SectionItems, Evaluate, ContractJson, Labels, SectionClauses, ItemKey;
    more := refs;
    var clauses := SectionClauses(contract, s);
    var i := 0;
    while i < |clauses|
      invariant 0 <= i <= |clauses|
      invariant AllResolve(more, ContractJson(contract, others))
      invariant forall p | p in refs && !(exists i: nat :: p == ItemKey(s, i)) :: p in more && more[p] == refs[p]
      invariant forall j | 0 <= j < i :: ItemKey(s, j) in more && more[ItemKey(s, j)] == clauses[j]
    {
      ItemHasKey(contract, others, s, i);
      forall j: nat | j != i ensures ItemKey(s, j) != ItemKey(s, i) {
        if ItemKey(s, j) == ItemKey(s, i) { KeysDiffer(s, j, s, i); }
      }
      more := more[ItemKey(s, i) := clauses[i]];
      i := i + 1;
    }
  }

  lemma ItemHasKey(contract: Contract, others: map<string, Json>, s: Section, i: nat)
    requires i < |SectionClauses(contract, s)|
    ensures Labels(ContractJson(contract, others), ItemKey(s, i), SectionClauses(contract, s)[i])
  {
    hide SectionName, SectionItems, Evaluate, ContractJson, Labels, SectionClauses;
    ItemResolves(contract, others, s, i);
  }

  lemma SectionKept(refs: map<string, Clause>, more: map<string, Clause>, contract: Contract, s: Section, t: Section)
    requires SectionFits(refs, contract, s) && s != t
    requires forall p | p in refs && !(exists i: nat :: p == ItemKey(t, i)) :: p in more && more[p] == refs[p]
    ensures SectionFits(more, contract, s)
  {
    hide ItemKey, SectionClauses;
    forall i | 0 <= i < |SectionClauses(contract, s)|
      ensures ItemKey(s, i) in more && more[ItemKey(s, i)] == SectionClauses(contract, s)[i]
    {
      forall j: nat ensures ItemKey(s, i) != ItemKey(t, j) {
        if ItemKey(s, i) == ItemKey(t, j) { KeysDiffer(s, i, t, j); }
      }
    }
  }

  lemma ObjectiveKept(refs: map<string, Clause>, more: map<string, Clause>, t: Section)
    requires "/objective" in refs
    requires forall p | p in refs && !(exists i: nat :: p == ItemKey(t, i)) :: p in more && more[p] == refs[p]
    ensures "/objective" in more && more["/objective"] == refs["/objective"]
  {
    hide ItemKey;
    forall i: nat ensures ItemKey(t, i) != "/objective" { NoItemIsObjective(t, i); }
  }

  /** The source references of a contract: each item has its own key, and each key, read as a pointer into the written
      contract, reaches the very item the reference is for, whatever else the contract holds. */
  method SourceRefs(contract: Contract, ghost others: map<string, Json>) returns (refs: map<string, Clause>)
    ensures AllResolve(refs, ContractJson(contract, others)) && RefsFit(refs, contract)
  {
    hide SectionName, SectionItems, Evaluate, ContractJson, Labels, SectionClauses, ItemKey, SectionFits;
    ObjectiveResolves(contract, others);
    var first := map["/objective" := contract.objective];
    var second := AddSection(contract, CriteriaSection, first, others);
    ObjectiveKept(first, second, CriteriaSection);
    var third := AddSection(contract, ConstraintSection, second, others);
    ObjectiveKept(second, third, ConstraintSection);
    SectionKept(second, third, contract, CriteriaSection, ConstraintSection);
    refs := AddSection(contract, NonGoalSection, third, others);
    ObjectiveKept(third, refs, NonGoalSection);
    SectionKept(third, refs, contract, CriteriaSection, NonGoalSection);
    SectionKept(third, refs, contract, ConstraintSection, NonGoalSection);
  }
}
