/** Conservative merging of template policies. */
module PromptAlgebra {
  import opened Common

  datatype Level = ReadOnly | RepositoryMutation | ExplicitOnly | GitRemote

  function Rank(l: Level): nat {
    match l case ReadOnly => 0 case RepositoryMutation => 1 case ExplicitOnly => 2 case GitRemote => 3
  }

  /** A merged policy is identified by the templates it was merged from. */
  datatype PolicyId = NamedPolicy(text: string) | MergedPolicy(parts: seq<(PolicyId, string)>)

  datatype Policy = Policy(
    id: PolicyId,
    version: string,
    ceiling: Option<Level>,
    mustDo: set<string>,
    mustNot: set<string>,
    allowed: set<string>,
    guarded: set<string>,
    proofs: set<string>,
    sections: seq<string>,
    stops: set<string>)

  datatype MergeError = EmptyTemplateList | ContradictoryRules | ScopeWideningRejected

  /** How rules are compared: case and spacing folded away. Nothing depends on which folding it is. */
  type Normal = string -> string

  // ---------------------------------------------------------------- what a merge is

  function Union(ts: seq<Policy>, field: Policy -> set<string>): set<string> {
    set t, x | t in ts && x in field(t) :: x
  }

  const DUTIES: Policy -> set<string> := (t: Policy) => t.mustDo
  const PROHIBITIONS: Policy -> set<string> := (t: Policy) => t.mustNot
  const GUARDED: Policy -> set<string> := (t: Policy) => t.guarded
  const PROOFS: Policy -> set<string> := (t: Policy) => t.proofs
  const STOPS: Policy -> set<string> := (t: Policy) => t.stops

  function Duties(ts: seq<Policy>): set<string> {
    Union(ts, DUTIES)
  }

  function Prohibitions(ts: seq<Policy>): set<string> {
    Union(ts, PROHIBITIONS)
  }

  function Guarded(ts: seq<Policy>): set<string> {
    Union(ts, GUARDED)
  }

  function Proofs(ts: seq<Policy>): set<string> {
    Union(ts, PROOFS)
  }

  function Stops(ts: seq<Policy>): set<string> {
    Union(ts, STOPS)
  }

  /** Some duty and some prohibition are the same rule. */
  predicate Contradict(duties: set<string>, prohibitions: set<string>, normal: Normal) {
    exists d, p | d in duties && p in prohibitions :: normal(d) == normal(p)
  }

  /** The paths every constraining template allows; none when no template constrains the scope. */
  function CommonScope(ts: seq<Policy>): set<string> {
    set t, x | t in ts && x in t.allowed && (forall u | u in ts && u.allowed != {} :: x in u.allowed) :: x
  }

  predicate Constrains(ts: seq<Policy>) {
    exists t | t in ts :: t.allowed != {}
  }

  /** The lowest ceiling any template declares. */
  predicate IsCeiling(c: Option<Level>, ts: seq<Policy>) {
    && (c.None? <==> forall t | t in ts :: t.ceiling.None?)
    && (c.Some? ==>
          && (exists t | t in ts :: t.ceiling == c)
          && (forall t | t in ts && t.ceiling.Some? :: Rank(c.value) <= Rank(t.ceiling.value)))
  }

  /** Each element where it first occurs. */
  function Firsts(xs: seq<string>): (r: seq<string>)
    ensures forall x :: x in r <==> x in xs
  {
    if xs == [] then []
    else
      var init, last := xs[..|xs| - 1], xs[|xs| - 1];
      assert xs == init + [last];
      if last in init then Firsts(init) else Firsts(init) + [last]
  }

  function AllSections(ts: seq<Policy>): seq<string> {
    if ts == [] then [] else AllSections(ts[..|ts| - 1]) + ts[|ts| - 1].sections
  }

  predicate Mergeable(ts: seq<Policy>, normal: Normal) {
    && ts != []
    && !Contradict(Duties(ts), Prohibitions(ts), normal)
    && (Constrains(ts) ==> CommonScope(ts) != {})
  }

  ghost predicate Merges(p: Policy, ts: seq<Policy>) {
    && p.mustDo == Duties(ts) && p.mustNot == Prohibitions(ts)
    && p.allowed == CommonScope(ts) && p.guarded == Guarded(ts)
    && p.proofs == Proofs(ts) && p.stops == Stops(ts)
    && IsCeiling(p.ceiling, ts)
    && p.sections == Firsts(AllSections(ts))
  }

  /** A merge, rule by rule: a duty, prohibition, guarded path, proof or stop of the merge is one of some template, and a
      path is allowed when every template that constrains the scope allows it, and some does. */
  lemma MergeMeans(p: Policy, ts: seq<Policy>, x: string)
    requires Merges(p, ts)
    ensures x in p.mustDo <==> exists t | t in ts :: x in t.mustDo
    ensures x in p.mustNot <==> exists t | t in ts :: x in t.mustNot
    ensures x in p.guarded <==> exists t | t in ts :: x in t.guarded
    ensures x in p.proofs <==> exists t | t in ts :: x in t.proofs
    ensures x in p.stops <==> exists t | t in ts :: x in t.stops
    ensures x in p.allowed <==>
              (exists t | t in ts :: t.allowed != {}) && forall t | t in ts && t.allowed != {} :: x in t.allowed
    ensures x in p.sections <==> exists t | t in ts :: x in t.sections
  {
    InSections(ts, x);
    assert forall t: Policy :: DUTIES(t) == t.mustDo && PROHIBITIONS(t) == t.mustNot;
    assert forall t: Policy :: GUARDED(t) == t.guarded && PROOFS(t) == t.proofs && STOPS(t) == t.stops;
    hide Firsts, AllSections;
  }

  /** A duty of the one is a prohibition of the other. */
  predicate Clash(t: Policy, u: Policy, normal: Normal) {
    exists d, p | d in t.mustDo && p in u.mustNot :: normal(d) == normal(p)
  }

  /** Templates merge unless a duty of one and a prohibition of one are the same rule, or there is no path that every
      constrained scope allows. */
  lemma MergeableExactly(ts: seq<Policy>, normal: Normal)
    ensures Mergeable(ts, normal) <==>
              && ts != [] && (forall t, u | t in ts && u in ts :: !Clash(t, u, normal))
              && (Constrains(ts) ==> exists x :: AllAllow(ts, x))
  {
    ContradictExactly(ts, normal);
    hide Contradict, Clash, AllAllow, CommonScope;
    if Constrains(ts) {
      forall x ensures x in CommonScope(ts) <==> AllAllow(ts, x) { InCommonScope(ts, x); }
      if CommonScope(ts) != {} {
        var x :| x in CommonScope(ts);
        assert AllAllow(ts, x);
      }
    }
  }

  lemma ContradictExactly(ts: seq<Policy>, normal: Normal)
    ensures Contradict(Duties(ts), Prohibitions(ts), normal) <==> exists t, u | t in ts && u in ts :: Clash(t, u, normal)
  {
    assert forall t: Policy :: DUTIES(t) == t.mustDo && PROHIBITIONS(t) == t.mustNot;
    if Contradict(Duties(ts), Prohibitions(ts), normal) {
      var d, p :| d in Duties(ts) && p in Prohibitions(ts) && normal(d) == normal(p);
      var t :| t in ts && d in DUTIES(t);
      var u :| u in ts && p in PROHIBITIONS(u);
      assert Clash(t, u, normal);
    }
    if t, u :| t in ts && u in ts && Clash(t, u, normal) {
      var d, p :| d in t.mustDo && p in u.mustNot && normal(d) == normal(p);
      assert d in Duties(ts) && p in Prohibitions(ts);
    }
  }

  /** The ceiling of a merge is the first of the four levels that any template declares. */
  lemma CeilingMeans(c: Option<Level>, ts: seq<Policy>)
    requires IsCeiling(c, ts)
    ensures c == Some(ReadOnly) <==> exists t | t in ts :: t.ceiling == Some(ReadOnly)
    ensures c == Some(RepositoryMutation) <==>
              && (exists t | t in ts :: t.ceiling == Some(RepositoryMutation))
              && forall t | t in ts :: t.ceiling != Some(ReadOnly)
    ensures c == Some(GitRemote) <==>
              && (exists t | t in ts :: t.ceiling == Some(GitRemote))
              && forall t | t in ts && t.ceiling.Some? :: t.ceiling == Some(GitRemote)
  {
    if t :| t in ts && t.ceiling == Some(ReadOnly) { CeilingBounds(c, ts, t); }
    if t :| t in ts && t.ceiling == Some(RepositoryMutation) { CeilingBounds(c, ts, t); }
    if t :| t in ts && t.ceiling == Some(GitRemote) { CeilingBounds(c, ts, t); }
  }

  /** The first of these occurs here, and the other has not occurred yet. */
  predicate Precedes(xs: seq<string>, x: string, y: string, n: nat) {
    n < |xs| && xs[n] == x && y !in xs[..n + 1]
  }

  /** The sections of a merge stand in the order in which they first occur, each once. */
  lemma {:induction false} FirstsInOrder(xs: seq<string>, i: nat, j: nat)
    requires i < j < |Firsts(xs)|
    ensures exists n: nat :: Precedes(xs, Firsts(xs)[i], Firsts(xs)[j], n)
  {
    var init := xs[..|xs| - 1];
    if j < |Firsts(init)| {
      FirstsInOrder(init, i, j);
      var n: nat :| Precedes(init, Firsts(init)[i], Firsts(init)[j], n);
      assert xs[n] == init[n] && xs[..n + 1] == init[..n + 1];
      assert Precedes(xs, Firsts(xs)[i], Firsts(xs)[j], n);
    } else {
      assert Firsts(init)[i] in init;
      var n: nat :| n < |init| && init[n] == Firsts(init)[i];
      assert xs[..n + 1] == init[..n + 1] && forall x | x in init[..n + 1] :: x in init;
      assert Precedes(xs, Firsts(xs)[i], Firsts(xs)[j], n);
    }
  }

  // ---------------------------------------------------------------- the merge

  lemma NoSections()
    ensures AllSections([]) == [] && Firsts([]) == []
  {
  }

  lemma SectionsNext(ts: seq<Policy>, i: nat)
    requires i < |ts|
    ensures AllSections(ts[..i + 1]) == AllSections(ts[..i]) + ts[i].sections
  {
    assert ts[..i + 1][..i] == ts[..i];
  }

  lemma FirstsNext(all: seq<string>, section: string)
    ensures Firsts(all + [section]) == if section in Firsts(all) then Firsts(all) else Firsts(all) + [section]
  {
    assert (all + [section])[..|all|] == all;
  }

  method MergeSections(ts: seq<Policy>) returns (sections: seq<string>)
    ensures sections == Firsts(AllSections(ts))
  {
    hide Firsts, AllSections;
    NoSections();
    sections := [];
    var seen: set<string> := {};
    ghost var all: seq<string> := [];
    var i := 0;
    while i < |ts|
      invariant 0 <= i <= |ts|
      invariant all == AllSections(ts[..i]) && sections == Firsts(all)
      invariant forall x :: x in seen <==> x in sections
    {
      var j := 0;
      ghost var before := all;
      while j < |ts[i].sections|
        invariant 0 <= j <= |ts[i].sections|
        invariant all == before + ts[i].sections[..j] && sections == Firsts(all)
        invariant forall x :: x in seen <==> x in sections
      {
        var section := ts[i].sections[j];
        assert ts[i].sections[..j + 1] == ts[i].sections[..j] + [section];
        FirstsNext(all, section);
        assert before + ts[i].sections[..j + 1] == all + [section];
        if section !in seen {
          seen := seen + {section};
          sections := sections + [section];
        }
        all := all + [section];
        j := j + 1;
      }
      assert ts[i].sections[..j] == ts[i].sections;
      SectionsNext(ts, i);
      i := i + 1;
    }
    assert ts[..i] == ts;
  }

  method MergeCeiling(ts: seq<Policy>) returns (c: Option<Level>)
    ensures IsCeiling(c, ts)
  {
    c := None;
    var i := 0;
    while i < |ts|
      invariant 0 <= i <= |ts| && IsCeiling(c, ts[..i])
    {
      var more := ts[..i] + [ts[i]];
      assert ts[..i + 1] == more;
      assert forall t :: t in more <==> t in ts[..i] || t == ts[i];
      if ts[i].ceiling.Some? && (c.None? || Rank(ts[i].ceiling.value) < Rank(c.value)) { c := ts[i].ceiling; }
      i := i + 1;
    }
    assert ts[..i] == ts;
  }

  function IdentityOf(ts: seq<Policy>): PolicyId {
    MergedPolicy(seq(|ts|, i requires 0 <= i < |ts| => (ts[i].id, ts[i].version)))
  }

  method MergeTemplates(ts: seq<Policy>, normal: Normal) returns (r: Result<Policy, MergeError>)
    ensures r.Ok? <==> Mergeable(ts, normal)
    ensures r.Ok? ==> Merges(r.value, ts) && r.value.id == IdentityOf(ts) && r.value.version == "2.0"
    ensures r == Err(ContradictoryRules) <==> ts != [] && Contradict(Duties(ts), Prohibitions(ts), normal)
  {
    if ts == [] { return Err(EmptyTemplateList); }
    var mustDo, mustNot := Duties(ts), Prohibitions(ts);
    if Contradict(mustDo, mustNot, normal) { return Err(ContradictoryRules); }
    var allowed := CommonScope(ts);
    if Constrains(ts) && allowed == {} { return Err(ScopeWideningRejected); }
    var ceiling := MergeCeiling(ts);
    var sections := MergeSections(ts);
    return Ok(Policy(IdentityOf(ts), "2.0", ceiling, mustDo, mustNot, allowed, Guarded(ts), Proofs(ts), sections, Stops(ts)));
  }

  // ---------------------------------------------------------------- grouping does not matter

  /** The same policy but for its identity. */
  predicate SameMeaning(p: Policy, q: Policy) {
    p.(id := q.id, version := q.version) == q
  }

  lemma CeilingUnique(a: Option<Level>, b: Option<Level>, ts: seq<Policy>)
    requires IsCeiling(a, ts) && IsCeiling(b, ts)
    ensures a == b
  {
  }

  lemma MergeUnique(p: Policy, q: Policy, ts: seq<Policy>)
    requires Merges(p, ts) && Merges(q, ts)
    ensures SameMeaning(p, q)
  {
    CeilingUnique(p.ceiling, q.ceiling, ts);
  }

  lemma {:induction false} SectionsAppend(xs: seq<Policy>, ys: seq<Policy>)
    ensures AllSections(xs + ys) == AllSections(xs) + AllSections(ys)
  {
    if ys == [] {
      assert xs + ys == xs;
    } else {
      var init := ys[..|ys| - 1];
      SectionsAppend(xs, init);
      assert (xs + ys)[..|xs + ys| - 1] == xs + init;
    }
  }

  lemma {:induction false} FirstsAppend(a: seq<string>, b: seq<string>)
    ensures Firsts(Firsts(a) + b) == Firsts(a + b)
  {
    if b == [] {
      FirstsTwice(a);
      assert Firsts(a) + b == Firsts(a) && a + b == a;
    } else {
      var init, last := b[..|b| - 1], b[|b| - 1];
      FirstsAppend(a, init);
      assert (Firsts(a) + b)[..|Firsts(a) + b| - 1] == Firsts(a) + init;
      assert (a + b)[..|a + b| - 1] == a + init;
    }
  }

  lemma {:induction false} FirstsTwice(a: seq<string>)
    ensures Firsts(Firsts(a)) == Firsts(a)
  {
    if a != [] {
      var init, last := a[..|a| - 1], a[|a| - 1];
      FirstsTwice(init);
      if last !in init { assert Firsts(a)[..|Firsts(a)| - 1] == Firsts(init); }
    }
  }

  lemma {:induction false} FirstsAppendBoth(a: seq<string>, b: seq<string>)
    ensures Firsts(a + Firsts(b)) == Firsts(a + b)
  {
    hide Firsts;
    if b == [] {
      NoSections();
      assert a + Firsts(b) == a + b;
    } else {
      var init, last := b[..|b| - 1], b[|b| - 1];
      FirstsAppendBoth(a, init);
      assert b == init + [last] && a + b == (a + init) + [last];
      FirstsNext(init, last);
      FirstsNext(a + init, last);
      FirstsNext(a + Firsts(init), last);
      assert a + (Firsts(init) + [last]) == (a + Firsts(init)) + [last];
    }
  }

  function Flatten(gs: seq<seq<Policy>>): (ts: seq<Policy>)
    ensures forall t :: t in ts <==> exists i | 0 <= i < |gs| :: t in gs[i]
  {
    if gs == [] then []
    else
      var init, last := gs[..|gs| - 1], gs[|gs| - 1];
      assert gs == init + [last];
      Flatten(init) + last
  }

  /** Each of these policies is a merge of its group. */
  ghost predicate MergedGroups(ps: seq<Policy>, gs: seq<seq<Policy>>, normal: Normal) {
    |ps| == |gs| && forall i | 0 <= i < |gs| :: Mergeable(gs[i], normal) && Merges(ps[i], gs[i])
  }

  lemma {:induction false} GroupedSections(ps: seq<Policy>, gs: seq<seq<Policy>>)
    requires |ps| == |gs| && forall i | 0 <= i < |gs| :: ps[i].sections == Firsts(AllSections(gs[i]))
    ensures Firsts(AllSections(ps)) == Firsts(AllSections(Flatten(gs)))
  {
    if gs != [] {
      var n := |gs| - 1;
      GroupedSections(ps[..n], gs[..n]);
      var before, after := AllSections(Flatten(gs[..n])), AllSections(gs[n]);
      SectionsAppend(Flatten(gs[..n]), gs[n]);
      // Firsts(S(ps)) = Firsts(S(ps[..n]) + Firsts(after)), and S(ps[..n]) may be replaced by its own firsts.
      FirstsAppend(AllSections(ps[..n]), Firsts(after));
      FirstsAppend(before, Firsts(after));
      FirstsAppendBoth(before, after);
    }
  }

  lemma UnionOfUnions(ps: seq<Policy>, gs: seq<seq<Policy>>, field: Policy -> set<string>)
    requires |ps| == |gs| && forall i | 0 <= i < |gs| :: field(ps[i]) == Union(gs[i], field)
    ensures Union(ps, field) == Union(Flatten(gs), field)
  {
    hide Flatten;
    forall x ensures x in Union(ps, field) <==> x in Union(Flatten(gs), field) {
      if x in Union(ps, field) {
        var p :| p in ps && x in field(p);
        var i :| 0 <= i < |ps| && ps[i] == p;
        var t :| t in gs[i] && x in field(t);
        assert t in Flatten(gs);
      }
      if x in Union(Flatten(gs), field) {
        var t :| t in Flatten(gs) && x in field(t);
        var i :| 0 <= i < |gs| && t in gs[i];
        assert x in field(ps[i]) && ps[i] in ps;
      }
    }
  }

  lemma GroupedUnions(ps: seq<Policy>, gs: seq<seq<Policy>>)
    requires |ps| == |gs| && forall i | 0 <= i < |gs| :: Merges(ps[i], gs[i])
    ensures Duties(ps) == Duties(Flatten(gs)) && Prohibitions(ps) == Prohibitions(Flatten(gs))
    ensures Guarded(ps) == Guarded(Flatten(gs)) && Proofs(ps) == Proofs(Flatten(gs)) && Stops(ps) == Stops(Flatten(gs))
  {
    hide Firsts, AllSections, IsCeiling, CommonScope, Union, Flatten;
    UnionOfUnions(ps, gs, DUTIES);
    UnionOfUnions(ps, gs, PROHIBITIONS);
    UnionOfUnions(ps, gs, GUARDED);
    UnionOfUnions(ps, gs, PROOFS);
    UnionOfUnions(ps, gs, STOPS);
  }

  lemma CeilingBounds(c: Option<Level>, ts: seq<Policy>, t: Policy)
    requires IsCeiling(c, ts) && t in ts && t.ceiling.Some?
    ensures c.Some? && Rank(c.value) <= Rank(t.ceiling.value)
  {
  }

  lemma CeilingDeclared(c: Option<Level>, ts: seq<Policy>)
    requires IsCeiling(c, ts) && c.Some?
    ensures exists t | t in ts :: t.ceiling == c
  {
  }

  lemma CeilingFrom(c: Option<Level>, ts: seq<Policy>)
    requires forall t | t in ts && t.ceiling.Some? :: c.Some? && Rank(c.value) <= Rank(t.ceiling.value)
    requires c.Some? ==> exists t | t in ts :: t.ceiling == c
    ensures IsCeiling(c, ts)
  {
  }

  lemma GroupedCeiling(ps: seq<Policy>, gs: seq<seq<Policy>>, c: Option<Level>)
    requires |ps| == |gs| && forall i | 0 <= i < |gs| :: IsCeiling(ps[i].ceiling, gs[i])
    requires IsCeiling(c, ps)
    ensures IsCeiling(c, Flatten(gs))
  {
    hide Flatten, Rank, IsCeiling;
    var ts := Flatten(gs);
    forall t | t in ts && t.ceiling.Some? ensures c.Some? && Rank(c.value) <= Rank(t.ceiling.value) {
      var i :| 0 <= i < |gs| && t in gs[i];
      CeilingBounds(ps[i].ceiling, gs[i], t);
      CeilingBounds(c, ps, ps[i]);
    }
    if c.Some? {
      CeilingDeclared(c, ps);
      var p :| p in ps && p.ceiling == c;
      var i :| 0 <= i < |ps| && ps[i] == p;
      CeilingDeclared(ps[i].ceiling, gs[i]);
      var t :| t in gs[i] && t.ceiling == p.ceiling;
      assert t in ts;
    }
    CeilingFrom(c, ts);
  }

  /** A mergeable group constrains the scope exactly when its merge does. */
  lemma GroupConstrains(p: Policy, ts: seq<Policy>, normal: Normal)
    requires Mergeable(ts, normal) && Merges(p, ts)
    ensures p.allowed != {} <==> Constrains(ts)
  {
    if p.allowed != {} {
      var x :| x in p.allowed;
      var t :| t in ts && x in t.allowed;
    }
  }

  lemma GroupedConstraint(ps: seq<Policy>, gs: seq<seq<Policy>>, normal: Normal)
    requires MergedGroups(ps, gs, normal)
    ensures Constrains(ps) <==> Constrains(Flatten(gs))
  {
    hide Mergeable, Merges, Flatten;
    if Constrains(Flatten(gs)) {
      var t :| t in Flatten(gs) && t.allowed != {};
      var i :| 0 <= i < |gs| && t in gs[i];
      GroupConstrains(ps[i], gs[i], normal);
      assert Constrains(gs[i]) && ps[i] in ps;
    }
    if p :| p in ps && p.allowed != {} {
      var i :| 0 <= i < |ps| && ps[i] == p;
      GroupConstrains(ps[i], gs[i], normal);
      var t :| t in gs[i] && t.allowed != {};
      assert t in Flatten(gs);
    }
  }

  predicate AllAllow(ts: seq<Policy>, x: string) {
    forall u | u in ts && u.allowed != {} :: x in u.allowed
  }

  lemma InCommonScope(ts: seq<Policy>, x: string)
    ensures x in CommonScope(ts) <==> Constrains(ts) && AllAllow(ts, x)
  {
    if Constrains(ts) && AllAllow(ts, x) {
      var t :| t in ts && t.allowed != {};
    }
  }

  lemma GroupAllows(p: Policy, ts: seq<Policy>, normal: Normal, x: string)
    requires Mergeable(ts, normal) && Merges(p, ts)
    ensures AllAllow(ts, x) <==> (p.allowed != {} ==> x in p.allowed)
  {
    GroupConstrains(p, ts, normal);
    InCommonScope(ts, x);
  }

  lemma GroupedScope(ps: seq<Policy>, gs: seq<seq<Policy>>, normal: Normal)
    requires MergedGroups(ps, gs, normal)
    ensures CommonScope(ps) == CommonScope(Flatten(gs))
  {
    hide Mergeable, Merges, CommonScope, Constrains, Flatten;
    forall x ensures x in CommonScope(ps) <==> x in CommonScope(Flatten(gs)) {
      InCommonScope(ps, x);
      InCommonScope(Flatten(gs), x);
      GroupedConstraint(ps, gs, normal);
      forall i | 0 <= i < |gs| ensures AllAllow(gs[i], x) <==> (ps[i].allowed != {} ==> x in ps[i].allowed) {
        GroupAllows(ps[i], gs[i], normal, x);
      }
      if AllAllow(Flatten(gs), x) {
        forall p | p in ps && p.allowed != {} ensures x in p.allowed {
          var i :| 0 <= i < |ps| && ps[i] == p;
          assert AllAllow(gs[i], x);
        }
      }
      if AllAllow(ps, x) {
        forall u | u in Flatten(gs) && u.allowed != {} ensures x in u.allowed {
          var i :| 0 <= i < |gs| && u in gs[i];
          assert ps[i] in ps;
          assert AllAllow(gs[i], x);
        }
      }
    }
  }

  lemma AGroupFails(gs: seq<seq<Policy>>, i: nat, normal: Normal)
    requires i < |gs| && gs[i] != [] && !Mergeable(gs[i], normal)
    ensures !Mergeable(Flatten(gs), normal)
  {
    var ts := Flatten(gs);
    assert forall t | t in gs[i] :: t in ts;
    if Contradict(Duties(gs[i]), Prohibitions(gs[i]), normal) {
      assert Duties(gs[i]) <= Duties(ts) && Prohibitions(gs[i]) <= Prohibitions(ts);
    } else {
      assert Constrains(ts);
      forall x ensures x !in CommonScope(ts) {
        InCommonScope(ts, x);
        InCommonScope(gs[i], x);
      }
    }
  }

  /** However templates are grouped before they are merged, merging the groups' merges and merging all templates at
      once either both fail or both succeed with policies that differ in nothing but their identity. */
  lemma GroupingDoesNotMatter(gs: seq<seq<Policy>>, ps: seq<Policy>, p: Policy, q: Policy, normal: Normal)
    requires gs != [] && forall i | 0 <= i < |gs| :: gs[i] != []
    ensures (exists i | 0 <= i < |gs| :: !Mergeable(gs[i], normal)) ==> !Mergeable(Flatten(gs), normal)
    ensures MergedGroups(ps, gs, normal) ==> (Mergeable(ps, normal) <==> Mergeable(Flatten(gs), normal))
    ensures MergedGroups(ps, gs, normal) && Merges(p, ps) && Merges(q, Flatten(gs)) ==> SameMeaning(p, q)
  {
    if i :| 0 <= i < |gs| && !Mergeable(gs[i], normal) { AGroupFails(gs, i, normal); }
    if MergedGroups(ps, gs, normal) {
      hide Mergeable, Duties, Prohibitions, Guarded, Proofs, Stops, CommonScope, IsCeiling, AllSections, Firsts, Constrains;
      GroupedUnions(ps, gs);
      GroupedConstraint(ps, gs, normal);
      GroupedScope(ps, gs, normal);
      assert gs[0] != [] && gs[0][0] in Flatten(gs);
      MergeableMeans(ps, normal);
      MergeableMeans(Flatten(gs), normal);
      if Merges(p, ps) && Merges(q, Flatten(gs)) {
        GroupedSections(ps, gs);
        GroupedCeiling(ps, gs, p.ceiling);
        CeilingUnique(p.ceiling, q.ceiling, Flatten(gs));
      }
    }
  }

  const PLAIN: Policy := Policy(NamedPolicy("plain"), "", None, {}, {}, {}, {}, {}, [], {})

  /** An empty group is the exception: merging it fails, and merging everything at once may not. */
  lemma EmptyGroupFails(normal: Normal)
    ensures !Mergeable([], normal) && Flatten([[], [PLAIN]]) == [PLAIN] && Mergeable(Flatten([[], [PLAIN]]), normal)
  {
    var gs: seq<seq<Policy>> := [[], [PLAIN]];
    assert gs[..1] == [[]] && gs[..0] == [] && gs[1..] == [[PLAIN]];
    assert Flatten([]) == [];
    assert [PLAIN][..0] == [];
    assert Duties([PLAIN]) == {} && Prohibitions([PLAIN]) == {};
    assert !Constrains([PLAIN]);
  }

  lemma MergeableMeans(ts: seq<Policy>, normal: Normal)
    ensures Mergeable(ts, normal) <==>
      ts != [] && !Contradict(Duties(ts), Prohibitions(ts), normal) && (Constrains(ts) ==> CommonScope(ts) != {})
  {
  }

  /** The order of the templates, and repeats among them, matter to nothing but the order of the sections. */
  lemma OrderOnlyOrdersSections(xs: seq<Policy>, ys: seq<Policy>, p: Policy, q: Policy, normal: Normal)
    requires forall t :: t in xs <==> t in ys
    ensures Mergeable(xs, normal) <==> Mergeable(ys, normal)
    ensures Merges(p, xs) && Merges(q, ys) ==>
              SameMeaning(p.(sections := q.sections), q) && (forall s :: s in p.sections <==> s in q.sections)
  {
    assert Duties(xs) == Duties(ys) && Prohibitions(xs) == Prohibitions(ys) && Guarded(xs) == Guarded(ys);
    assert Proofs(xs) == Proofs(ys) && Stops(xs) == Stops(ys) && CommonScope(xs) == CommonScope(ys);
    assert xs == [] <==> ys == [] by {
      if xs != [] { assert xs[0] in ys; }
      if ys != [] { assert ys[0] in xs; }
    }
    if Merges(p, xs) && Merges(q, ys) {
      assert IsCeiling(q.ceiling, xs);
      CeilingUnique(p.ceiling, q.ceiling, xs);
      forall s ensures s in p.sections <==> s in q.sections {
        InSections(xs, s);
        InSections(ys, s);
      }
    }
  }

  lemma {:induction false} InSections(ts: seq<Policy>, s: string)
    ensures s in AllSections(ts) <==> exists t :: t in ts && s in t.sections
  {
    if ts != [] {
      var init, last := ts[..|ts| - 1], ts[|ts| - 1];
      InSections(init, s);
      assert forall t :: t in ts <==> t in init || t == last;
    }
  }

  // ---------------------------------------------------------------- the written form

  /** The elements of a set in some order; sorting is one such order. */
  type Order = set<string> -> seq<string>

  ghost predicate Lists(order: Order) {
    forall s: set<string>, x :: x in order(s) <==> x in s
  }

  datatype PolicyDict = PolicyDict(
    id: PolicyId,
    version: string,
    ceiling: Option<string>,
    mustDo: seq<string>,
    mustNot: seq<string>,
    allowed: seq<string>,
    guarded: seq<string>,
    proofs: seq<string>,
    sections: seq<string>,
    stops: seq<string>)

  function LevelName(l: Level): (name: string)
    ensures name != ""
  {
    match l
    case ReadOnly => "READ_ONLY"
    case RepositoryMutation => "REPOSITORY_MUTATION"
    case ExplicitOnly => "EXPLICIT_ONLY"
    case GitRemote => "GIT_REMOTE"
  }

  function LevelNamed(name: string): Option<Level> {
    if name == "READ_ONLY" then Some(ReadOnly)
    else if name == "REPOSITORY_MUTATION" then Some(RepositoryMutation)
    else if name == "EXPLICIT_ONLY" then Some(ExplicitOnly)
    else if name == "GIT_REMOTE" then Some(GitRemote)
    else None
  }

  function Elements(xs: seq<string>): (s: set<string>)
    ensures forall x :: x in s <==> x in xs
  {
    set x | x in xs
  }

  function ToDict(p: Policy, order: Order): PolicyDict {
    PolicyDict(p.id, p.version, if p.ceiling.Some? then Some(LevelName(p.ceiling.value)) else None,
               order(p.mustDo), order(p.mustNot), order(p.allowed), order(p.guarded), order(p.proofs), p.sections,
               order(p.stops))
  }

  /** None when the ceiling names no level. */
  function FromDict(d: PolicyDict): Option<Policy> {
    var declared := d.ceiling.Some? && d.ceiling.value != "";
    var ceiling := if declared then LevelNamed(d.ceiling.value) else None;
    if declared && ceiling.None? then None
    else
      Some(Policy(d.id, if d.version == "" then "1.0" else d.version, ceiling, Elements(d.mustDo), Elements(d.mustNot),
                  Elements(d.allowed), Elements(d.guarded), Elements(d.proofs), d.sections, Elements(d.stops)))
  }

  lemma LevelRoundTrip(l: Level)
    ensures LevelNamed(LevelName(l)) == Some(l)
  {
    assert |LevelName(ReadOnly)| == 9 && |LevelName(RepositoryMutation)| == 19;
    assert |LevelName(ExplicitOnly)| == 13 && |LevelName(GitRemote)| == 10;
  }

  /** Reading a written policy back gives the same policy exactly when its version is not empty: an empty version
      is read back as 1.0, and nothing else is lost. */
  lemma DictRoundTrip(p: Policy, order: Order)
    requires Lists(order)
    ensures FromDict(ToDict(p, order)) == Some(p) <==> p.version != ""
    ensures FromDict(ToDict(p, order)) == Some(p.(version := if p.version == "" then "1.0" else p.version))
  {
    hide LevelName, LevelNamed;
    if p.ceiling.Some? { LevelRoundTrip(p.ceiling.value); }
    assert forall s: set<string> :: Elements(order(s)) == s;
    assert "1.0" != "" by { assert |"1.0"| == 3; }
  }

  /** A policy with an empty version, and what is read back of it. */
  lemma EmptyVersionIsLost(order: Order)
    requires Lists(order)
    ensures FromDict(ToDict(PLAIN, order)) == Some(PLAIN.(version := "1.0")) && PLAIN.version != "1.0"
  {
    hide FromDict, ToDict;
    DictRoundTrip(PLAIN, order);
    assert |"1.0"| == 3;
  }

  // ---------------------------------------------------------------- compiling an invocation

  /** What an invocation adds to the selected templates. */
  datatype Invocation = Invocation(mustDo: seq<string>, mustNot: seq<string>, allowed: seq<string>, guarded: seq<string>,
                                   evidence: seq<string>)

  predicate Compilable(ts: seq<Policy>, i: Invocation, normal: Normal) {
    && Mergeable(ts, normal)
    && !Contradict(Duties(ts) + Elements(i.mustDo), Prohibitions(ts) + Elements(i.mustNot), normal)
    && (CommonScope(ts) != {} ==> Elements(i.allowed) <= CommonScope(ts))
  }

  predicate NoRepeats(xs: seq<string>) {
    forall i, j | 0 <= i < j < |xs| :: xs[i] != xs[j]
  }

  lemma {:induction false} FirstsHaveNoRepeats(xs: seq<string>)
    ensures NoRepeats(Firsts(xs))
  {
    if xs != [] {
      var init, last := xs[..|xs| - 1], xs[|xs| - 1];
      FirstsHaveNoRepeats(init);
      assert forall k | 0 <= k < |Firsts(init)| :: Firsts(init)[k] in init;
    }
  }

  /** The template's items, then the invocation's, each once. */
  function Combined(own: set<string>, more: seq<string>, order: Order): seq<string> {
    Firsts(order(own) + more)
  }

  lemma CombinedElements(s: set<string>, more: seq<string>, order: Order)
    requires Lists(order)
    ensures Elements(Combined(s, more, order)) == s + Elements(more) && NoRepeats(Combined(s, more, order))
  {
    FirstsHaveNoRepeats(order(s) + more);
  }

  /** A compiled prompt carries every template duty and prohibition beside the invocation's, never a duty that is
      also prohibited, and never a path that a constraining template does not allow. */
  method CompileIr(ts: seq<Policy>, i: Invocation, normal: Normal, order: Order)
    returns (r: Result<Invocation, MergeError>)
    requires Lists(order)
    ensures r.Ok? <==> Compilable(ts, i, normal)
    ensures r.Ok? ==>
              && Elements(r.value.mustDo) == Duties(ts) + Elements(i.mustDo) && NoRepeats(r.value.mustDo)
              && Elements(r.value.mustNot) == Prohibitions(ts) + Elements(i.mustNot) && NoRepeats(r.value.mustNot)
              && Elements(r.value.guarded) == Guarded(ts) + Elements(i.guarded)
              && Elements(r.value.evidence) == Proofs(ts) + Elements(i.evidence)
              && !Contradict(Elements(r.value.mustDo), Elements(r.value.mustNot), normal)
    ensures r.Ok? ==> forall t | t in ts && t.allowed != {} :: Elements(r.value.allowed) <= t.allowed
    ensures r.Ok? && i.allowed != [] ==> r.value.allowed == i.allowed
  {
    hide Duties, Prohibitions, Guarded, Proofs, Firsts;
    var merged := MergeTemplates(ts, normal);
    if merged.Err? { return Err(merged.error); }
    var p := merged.value;
    var mustDo, mustNot := Combined(p.mustDo, i.mustDo, order), Combined(p.mustNot, i.mustNot, order);
    CombinedElements(p.mustDo, i.mustDo, order);
    CombinedElements(p.mustNot, i.mustNot, order);
    CombinedElements(p.guarded, i.guarded, order);
    CombinedElements(p.proofs, i.evidence, order);
    if Contradict(Elements(mustDo), Elements(mustNot), normal) { return Err(ContradictoryRules); }
    if p.allowed != {} && i.allowed != [] {
      if !(Elements(i.allowed) <= p.allowed) { return Err(ScopeWideningRejected); }
    }
    var allowed := if i.allowed != [] then i.allowed else order(p.allowed);
    forall t | t in ts && t.allowed != {} ensures Elements(allowed) <= t.allowed {
      assert p.allowed != {};
    }
    return Ok(Invocation(mustDo, mustNot, allowed, Combined(p.guarded, i.guarded, order),
                         Combined(p.proofs, i.evidence, order)));
  }
}
