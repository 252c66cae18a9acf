/** The usage ledger: deduplicated recording, aggregation per invocation, grouping, and budget arithmetic. */
module Usage {
  import L = ObligationLifecycle
  import ObligationTheorems
  import ProofGraph
  import opened Common
  import opened Text

  datatype Field = InputTokens | OutputTokens | CacheRead | CacheWrite | Reasoning | OtherField(name: string)

  const TOKEN_FIELDS: seq<Field> := [InputTokens, OutputTokens, CacheRead, CacheWrite, Reasoning]

  datatype Kind = Delta | Cumulative | Final | OtherKind(name: string)

  datatype Observation = Observation(
    invocationId: string,
    source: string,
    runtime: string,
    session: Option<string>,
    kind: Kind,
    eventId: Option<string>,
    tokens: map<Field, int>,
    model: string,
    role: string,
    taskId: string,
    tier: string)

  /** A line of the ledger; the timestamp is not part of the key. */
  datatype Row = Row(observation: Observation, timestamp: string)

  datatype LedgerError = UnsupportedKind | UnsupportedField | NegativeTokens

  // ---------------------------------------------------------------- keys

  function FieldName(f: Field): string {
    match f
    case InputTokens => "input"
    case OutputTokens => "output"
    case CacheRead => "cacheRead"
    case CacheWrite => "cacheWrite"
    case Reasoning => "reasoning"
    case OtherField(name) => name
  }

  function KindName(k: Kind): string {
    match k
    case Delta => "delta"
    case Cumulative => "cumulative"
    case Final => "final"
    case OtherKind(name) => name
  }

  function IntText(n: int): string {
    if n < 0 then "-" + Decimal(-n) else Decimal(n)
  }

  function FieldText(f: Field, amount: int): string {
    "\"" + FieldName(f) + "\":" + IntText(amount)
  }

  /** The rest of the tokens as the key's last part spells them: as JSON, with their keys in order. */
  function TokensText(tokens: map<Field, int>, fields: seq<Field>, first: bool): string {
    if fields == [] then "}"
    else if fields[0] !in tokens then TokensText(tokens, fields[1..], first)
    else (if first then "" else ",") + FieldText(fields[0], tokens[fields[0]]) + TokensText(tokens, fields[1..], false)
  }

  const SORTED_FIELDS: seq<Field> := [CacheRead, CacheWrite, InputTokens, OutputTokens, Reasoning]

  function OrElse(text: Option<string>, other: string): string {
    if text.Some? && text.value != "" then text.value else other
  }

  function Key(o: Observation): string {
    o.source + ":" + o.runtime + ":" + OrElse(o.session, "no-session") + ":" + o.invocationId + ":" + KindName(o.kind)
    + ":" + OrElse(o.eventId, "{" + TokensText(o.tokens, SORTED_FIELDS, true))
  }

  /** Nothing but the part of the text between its two ends tells these apart. */
  lemma Cancel(a: string, x: string, y: string, b: string)
    requires a + x + b == a + y + b
    ensures x == y
  {
    assert |x| == |y|;
    assert (a + x + b)[|a|..|a| + |x|] == x && (a + y + b)[|a|..|a| + |x|] == y;
  }

  /** Two observations that differ in one part of the key alone have different keys. */
  lemma KeySeparates(o: Observation, p: Observation)
    requires Key(o) == Key(p)
    ensures o == p.(source := o.source) ==> o == p
    ensures o == p.(runtime := o.runtime) ==> o == p
    ensures o == p.(invocationId := o.invocationId) ==> o == p
    ensures o == p.(session := o.session) ==> OrElse(o.session, "no-session") == OrElse(p.session, "no-session")
    ensures o == p.(kind := o.kind) && SupportedKind(o.kind) && SupportedKind(p.kind) ==> o == p
    ensures o == p.(eventId := o.eventId) && HasEvent(o) && HasEvent(p) ==> o == p
    ensures o == p.(tokens := o.tokens) && !HasEvent(o) && Recordable(o) && Recordable(p) ==> o == p
  {
    hide OrElse, KindName, TokensText, Recordable;
    KeyParts(o);
    KeyParts(p);
    var s, c, e := OrElse(o.session, "no-session"), ":", Suffix(o);
    if o == p.(source := o.source) { Cancel("", o.source, p.source, KeyAfterSource(o)); }
    if o == p.(runtime := o.runtime) { Cancel(o.source + ":", o.runtime, p.runtime, KeyAfterRuntime(o)); }
    if o == p.(session := o.session) {
      Cancel(o.source + ":" + o.runtime + ":", s, OrElse(p.session, "no-session"), KeyAfterSession(o));
    }
    if o == p.(invocationId := o.invocationId) {
      Cancel(KeyBeforeInvocation(o), o.invocationId, p.invocationId, ":" + KindName(o.kind) + ":" + e);
    }
    if o == p.(kind := o.kind) && SupportedKind(o.kind) && SupportedKind(p.kind) {
      Cancel(KeyBeforeKind(o), KindName(o.kind), KindName(p.kind), ":" + e);
      KindNamesDiffer(o.kind, p.kind);
    }
    if o == p.(eventId := o.eventId) && HasEvent(o) && HasEvent(p) {
      Cancel(KeyBeforeSuffix(o), Suffix(o), Suffix(p), "");
      EventSuffix(o);
      EventSuffix(p);
    }
    if o == p.(tokens := o.tokens) && !HasEvent(o) && Recordable(o) && Recordable(p) {
      Cancel(KeyBeforeSuffix(o), Suffix(o), Suffix(p), "");
      TokensSuffix(o, p);
    }
  }

  predicate HasEvent(o: Observation) {
    o.eventId.Some? && o.eventId.value != ""
  }

  function Suffix(o: Observation): string {
    OrElse(o.eventId, "{" + TokensText(o.tokens, SORTED_FIELDS, true))
  }

  function KeyBeforeInvocation(o: Observation): string {
    o.source + ":" + o.runtime + ":" + OrElse(o.session, "no-session") + ":"
  }

  function KeyBeforeKind(o: Observation): string {
    KeyBeforeInvocation(o) + o.invocationId + ":"
  }

  function KeyBeforeSuffix(o: Observation): string {
    KeyBeforeKind(o) + KindName(o.kind) + ":"
  }

  function KeyAfterSession(o: Observation): string {
    ":" + o.invocationId + ":" + KindName(o.kind) + ":" + Suffix(o)
  }

  function KeyAfterRuntime(o: Observation): string {
    ":" + OrElse(o.session, "no-session") + KeyAfterSession(o)
  }

  function KeyAfterSource(o: Observation): string {
    ":" + o.runtime + KeyAfterRuntime(o)
  }

  /** The key, taken apart at each of its parts. */
  lemma KeyParts(o: Observation)
    ensures Key(o) == "" + o.source + KeyAfterSource(o)
    ensures Key(o) == (o.source + ":") + o.runtime + KeyAfterRuntime(o)
    ensures Key(o) == (o.source + ":" + o.runtime + ":") + OrElse(o.session, "no-session") + KeyAfterSession(o)
    ensures Key(o) == KeyBeforeInvocation(o) + o.invocationId + (":" + KindName(o.kind) + ":" + Suffix(o))
    ensures Key(o) == KeyBeforeKind(o) + KindName(o.kind) + (":" + Suffix(o))
    ensures Key(o) == KeyBeforeSuffix(o) + Suffix(o) + ""
  {
    hide OrElse, KindName, TokensText;
  }

  lemma KindNamesDiffer(a: Kind, b: Kind)
    requires SupportedKind(a) && SupportedKind(b) && KindName(a) == KindName(b)
    ensures a == b
  {
    assert |"delta"| == 5 && |"cumulative"| == 10 && |"final"| == 5 && "delta"[0] == 'd' && "final"[0] == 'f';
  }

  lemma EventSuffix(o: Observation)
    requires HasEvent(o)
    ensures o.eventId == Some(Suffix(o))
  {
  }

  lemma TokensSuffix(o: Observation, p: Observation)
    requires !HasEvent(o) && !HasEvent(p) && Suffix(o) == Suffix(p) && Recordable(o) && Recordable(p)
    ensures o.tokens == p.tokens
  {
    hide TokensText;
    var a, b := TokensText(o.tokens, SORTED_FIELDS, true), TokensText(p.tokens, SORTED_FIELDS, true);
    assert ("{" + a)[1..] == a && ("{" + b)[1..] == b;
    SortedFields();
    TokensReadBack(o.tokens, p.tokens, SORTED_FIELDS, true);
    forall f ensures (f in o.tokens <==> f in p.tokens) && (f in o.tokens ==> o.tokens[f] == p.tokens[f]) {
      if f in o.tokens || f in p.tokens { assert f in SORTED_FIELDS; }
    }
  }

  lemma SortedFields()
    ensures forall i, j | 0 <= i < j < |SORTED_FIELDS| :: SORTED_FIELDS[i] != SORTED_FIELDS[j]
    ensures forall f | f in SORTED_FIELDS :: !f.OtherField?
    ensures forall f: Field | !f.OtherField? :: f in SORTED_FIELDS
  {
    var s := SORTED_FIELDS;
    assert s[0] == CacheRead && s[1] == CacheWrite && s[2] == InputTokens && s[3] == OutputTokens && s[4] == Reasoning;
  }

  lemma FieldNamesDiffer(f: Field, g: Field)
    requires !f.OtherField? && !g.OtherField? && FieldName(f) == FieldName(g)
    ensures f == g
  {
    assert |"input"| == 5 && |"output"| == 6 && |"cacheRead"| == 9 && |"cacheWrite"| == 10 && |"reasoning"| == 9;
    assert "cacheRead"[0] == 'c' && "reasoning"[0] == 'r';
  }

  lemma NoQuote(f: Field)
    requires !f.OtherField?
    ensures '"' !in FieldName(f)
  {
  }

  lemma FirstMark(a: string, r: string, mark: char)
    requires mark !in a
    ensures var x := a + [mark] + r; x[|a|] == mark && forall i | 0 <= i < |a| :: x[i] != mark
    ensures var x := a + [mark] + r; x[..|a|] == a && x[|a| + 1..] == r
  {
  }

  /** A text without this mark, then the mark, is told apart from what follows. */
  lemma UpToMark(a: string, r: string, b: string, s: string, mark: char)
    requires mark !in a && mark !in b && a + [mark] + r == b + [mark] + s
    ensures a == b && r == s
  {
    FirstMark(a, r, mark);
    FirstMark(b, s, mark);
  }

  lemma FirstNonDigit(a: string, r: string)
    requires (forall i | 0 <= i < |a| :: IsDigit(a[i])) && r != [] && !IsDigit(r[0])
    ensures var x := a + r; !IsDigit(x[|a|]) && forall i | 0 <= i < |a| :: IsDigit(x[i])
    ensures var x := a + r; x[..|a|] == a && x[|a|..] == r
  {
  }

  lemma UpToNonDigit(a: string, r: string, b: string, s: string)
    requires (forall i | 0 <= i < |a| :: IsDigit(a[i])) && (forall i | 0 <= i < |b| :: IsDigit(b[i]))
    requires r != [] && s != [] && !IsDigit(r[0]) && !IsDigit(s[0]) && a + r == b + s
    ensures a == b && r == s
  {
    FirstNonDigit(a, r);
    FirstNonDigit(b, s);
  }

  function Before(first: bool): string {
    if first then "\"" else ",\""
  }

  /** The rest of the tokens begins with its first field that is there; without one it only closes. */
  lemma {:induction false} TokensBegin(tokens: map<Field, int>, fields: seq<Field>, first: bool) returns (i: nat, rest: string)
    ensures i <= |fields| && forall j | 0 <= j < i :: fields[j] !in tokens
    ensures i < |fields| ==>
              && fields[i] in tokens
              && TokensText(tokens, fields, first) == Before(first) + (FieldName(fields[i]) + ['"'] + rest)
    ensures i == |fields| ==> |TokensText(tokens, fields, first)| == 1
  {
    hide FieldName, IntText;
    i, rest := 0, "";
    if fields != [] {
      if fields[0] in tokens {
        rest := ":" + IntText(tokens[fields[0]]) + TokensText(tokens, fields[1..], false);
        assert "\":" == ['"'] + ":";
      } else {
        i, rest := TokensBegin(tokens, fields[1..], first);
        i := i + 1;
      }
    }
  }

  lemma NextIsNoDigit(tokens: map<Field, int>, fields: seq<Field>)
    ensures TokensText(tokens, fields, false) != [] && !IsDigit(TokensText(tokens, fields, false)[0])
  {
  }

  lemma PresentAlike(t: map<Field, int>, u: map<Field, int>, fields: seq<Field>, first: bool)
    requires forall f | f in fields :: !f.OtherField?
    requires fields != [] && fields[0] in t && TokensText(t, fields, first) == TokensText(u, fields, first)
    ensures fields[0] in u
  {
    hide FieldName, IntText, TokensText;
    var i, r := TokensBegin(t, fields, first);
    var k, s := TokensBegin(u, fields, first);
    var x, n := TokensText(t, fields, first), |Before(first)|;
    assert x[n..] == FieldName(fields[i]) + ['"'] + r && x[n..] == FieldName(fields[k]) + ['"'] + s;
    NoQuote(fields[i]);
    NoQuote(fields[k]);
    UpToMark(FieldName(fields[i]), r, FieldName(fields[k]), s, '"');
    FieldNamesDiffer(fields[i], fields[k]);
  }

  lemma {:induction false} TokensReadBack(t: map<Field, int>, u: map<Field, int>, fields: seq<Field>, first: bool)
    requires forall i, j | 0 <= i < j < |fields| :: fields[i] != fields[j]
    requires forall f | f in fields :: !f.OtherField?
    requires (forall f | f in t :: t[f] >= 0) && (forall f | f in u :: u[f] >= 0)
    requires TokensText(t, fields, first) == TokensText(u, fields, first)
    ensures forall f | f in fields :: (f in t <==> f in u) && (f in t ==> t[f] == u[f])
  {
    hide FieldName;
    if fields != [] {
      var f, more := fields[0], fields[1..];
      if f in t { PresentAlike(t, u, fields, first); }
      if f in u { PresentAlike(u, t, fields, first); }
      if f in t {
        var before := (if first then "" else ",") + ("\"" + FieldName(f) + "\":");
        var r, s := TokensText(t, more, false), TokensText(u, more, false);
        var x := TokensText(t, fields, first);
        assert x == before + (Decimal(t[f]) + r) && x == before + (Decimal(u[f]) + s);
        assert x[|before|..] == Decimal(t[f]) + r && x[|before|..] == Decimal(u[f]) + s;
        NextIsNoDigit(t, more);
        NextIsNoDigit(u, more);
        UpToNonDigit(Decimal(t[f]), r, Decimal(u[f]), s);
        DecimalsDiffer(t[f], u[f]);
        TokensReadBack(t, u, more, false);
      } else {
        TokensReadBack(t, u, more, first);
      }
    }
  }

  /** The key is blind to attribution, to the tokens of a record that names its event, and to nothing else. */
  lemma KeyForgets(o: Observation, p: Observation)
    requires o == p.(model := o.model, role := o.role, taskId := o.taskId, tier := o.tier, tokens := o.tokens)
    requires o.tokens == p.tokens || HasEvent(o)
    ensures Key(o) == Key(p)
  {
  }

  function KeysOf(rows: seq<Row>): (keys: set<string>)
    ensures forall k :: k in keys <==> exists i | 0 <= i < |rows| :: Key(rows[i].observation) == k
  {
    set i | 0 <= i < |rows| :: Key(rows[i].observation)
  }

  // ---------------------------------------------------------------- recording

  predicate SupportedKind(k: Kind) {
    k == Delta || k == Cumulative || k == Final
  }

  /** An observation the ledger can hold; one without tokens is passed over. */
  predicate Recordable(o: Observation) {
    && SupportedKind(o.kind) && o.tokens != map[]
    && (forall f | f in o.tokens :: !f.OtherField? && o.tokens[f] >= 0)
  }

  /** The ledger after one delivery: a first delivery is appended, a repeat changes nothing. */
  function Delivered(rows: seq<Row>, d: Row): seq<Row> {
    if Recordable(d.observation) && Key(d.observation) !in KeysOf(rows) then rows + [d] else rows
  }

  function DeliveredAll(rows: seq<Row>, ds: seq<Row>): seq<Row> {
    if ds == [] then rows else Delivered(DeliveredAll(rows, ds[..|ds| - 1]), ds[|ds| - 1])
  }

  class UsageFile {
    var rows: seq<Row>

    constructor ()
      ensures rows == []
    {
      rows := [];
    }
  }

  class TokenLedger {
    const file: UsageFile
    var keys: Option<set<string>>

    /** The key cache, once loaded, is the keys on file. */
    ghost predicate Valid()
      reads this, file
    {
      keys.Some? ==> keys.value == KeysOf(file.rows)
    }

    constructor (file: UsageFile)
      ensures Valid() && this.file == file && keys == None
    {
      this.file, this.keys := file, None;
    }

    method LoadKeys() returns (loaded: set<string>)
      requires Valid()
      modifies this`keys
      ensures Valid() && loaded == KeysOf(file.rows) && keys == Some(loaded)
    {
      if keys.None? {
        var found: set<string> := {};
        var i := 0;
        while i < |file.rows|
          invariant 0 <= i <= |file.rows|
          invariant found == KeysOf(file.rows[..i])
          invariant keys.None?
        {
          assert file.rows[..i + 1] == file.rows[..i] + [file.rows[i]];
          found := found + {Key(file.rows[i].observation)};
          i := i + 1;
        }
        assert file.rows[..i] == file.rows;
        keys := Some(found);
      }
      loaded := keys.value;
    }

    method Record(o: Observation, timestamp: string) returns (r: Result<Option<Row>, LedgerError>)
      requires Valid()
      modifies this`keys, file
      ensures Valid() && file.rows == Delivered(old(file.rows), Row(o, timestamp))
      ensures r.Err? <==> !SupportedKind(o.kind) || (o.tokens != map[] && !Recordable(o))
      ensures r == Err(UnsupportedKind) <==> !SupportedKind(o.kind)
      ensures r == Err(UnsupportedField) ==> exists f | f in o.tokens :: f.OtherField?
      ensures r == Err(NegativeTokens) ==> exists f | f in o.tokens :: o.tokens[f] < 0
      ensures r.Ok? ==> r.value == if file.rows != old(file.rows) then Some(Row(o, timestamp)) else None
    {
      if !SupportedKind(o.kind) { return Err(UnsupportedKind); }
      if o.tokens == map[] { return Ok(None); }
      if f :| f in o.tokens && f.OtherField? { return Err(UnsupportedField); }
      if f :| f in o.tokens && o.tokens[f] < 0 { return Err(NegativeTokens); }
      DeliveredKey(file.rows, Row(o, timestamp));
      var loaded := LoadKeys();
      if Key(o) in loaded { return Ok(None); }
      file.rows := file.rows + [Row(o, timestamp)];
      keys := Some(loaded + {Key(o)});
      return Ok(Some(Row(o, timestamp)));
    }
  }

  lemma {:induction false} DeliveredKeys(rows: seq<Row>, ds: seq<Row>)
    ensures rows <= DeliveredAll(rows, ds)
    ensures forall k :: k in KeysOf(DeliveredAll(rows, ds)) <==>
              k in KeysOf(rows) || exists d | d in ds :: Recordable(d.observation) && Key(d.observation) == k
  {
    hide Key;
    if ds != [] {
      var init, d := ds[..|ds| - 1], ds[|ds| - 1];
      DeliveredKeys(rows, init);
      assert ds == init + [d];
      DeliveredKey(DeliveredAll(rows, init), d);
    }
  }

  lemma DeliveredKey(rows: seq<Row>, d: Row)
    ensures rows <= Delivered(rows, d)
    ensures KeysOf(Delivered(rows, d)) ==
              KeysOf(rows) + if Recordable(d.observation) then {Key(d.observation)} else {}
  {
    hide Key;
    var after := Delivered(rows, d);
    assert forall i | 0 <= i < |rows| :: after[i] == rows[i];
    if after != rows {
      assert after[|rows|] == d;
      forall k ensures k in KeysOf(after) <==> k in KeysOf(rows) || k == Key(d.observation) {
      }
    }
  }

  /** Delivering again what was already delivered, any number of times and in any order, leaves the file as it was;
      a ledger re-opened on the file behaves the same, for its cache is read back from the file. */
  lemma {:induction false} RedeliveryChangesNothing(ds: seq<Row>, again: seq<Row>)
    requires forall r | r in again && Recordable(r.observation) ::
               exists d | d in ds :: Recordable(d.observation) && Key(d.observation) == Key(r.observation)
    ensures DeliveredAll([], ds + again) == DeliveredAll([], ds)
  {
    hide Key;
    if again == [] {
      assert ds + again == ds;
    } else {
      var init, r := again[..|again| - 1], again[|again| - 1];
      RedeliveryChangesNothing(ds, init);
      DeliveredKeys([], ds);
      var all := ds + again;
      assert all[..|all| - 1] == ds + init && all[|all| - 1] == r;
    }
  }

  /** The first recordable delivery with this key. */
  predicate FirstWithKey(ds: seq<Row>, n: nat) {
    && n < |ds| && Recordable(ds[n].observation)
    && forall j | 0 <= j < n && Recordable(ds[j].observation) :: Key(ds[j].observation) != Key(ds[n].observation)
  }

  ghost predicate IsFirst(ds: seq<Row>, r: Row) {
    exists n: nat :: FirstWithKey(ds, n) && ds[n] == r
  }

  /** The file holds first deliveries only, no key twice, and the first delivery of every key. */
  lemma {:induction false} FileIsFirstDeliveries(ds: seq<Row>)
    ensures var rows := DeliveredAll([], ds);
            && (forall i, j | 0 <= i < j < |rows| :: Key(rows[i].observation) != Key(rows[j].observation))
            && (forall i | 0 <= i < |rows| :: IsFirst(ds, rows[i]))
            && (forall n: nat | FirstWithKey(ds, n) :: ds[n] in rows)
  {
    hide Key, Recordable;
    if ds != [] {
      var init, d := ds[..|ds| - 1], ds[|ds| - 1];
      FileIsFirstDeliveries(init);
      DeliveredKeys([], init);
      var before, rows := DeliveredAll([], init), DeliveredAll([], ds);
      DeliveredKey(before, d);
      forall n: nat | n < |init| ensures FirstWithKey(ds, n) <==> FirstWithKey(init, n) {
        assert forall j | 0 <= j <= n :: ds[j] == init[j];
      }
      assert FirstWithKey(ds, |init|) <==> rows == before + [d] by {
        LastIsFirst(ds);
      }
      forall i | 0 <= i < |rows| ensures IsFirst(ds, rows[i]) {
        if i < |before| {
          assert rows[i] == before[i];
          var n: nat :| FirstWithKey(init, n) && init[n] == before[i];
          assert FirstWithKey(ds, n) && ds[n] == rows[i];
        } else {
          assert FirstWithKey(ds, |init|) && ds[|init|] == rows[i];
        }
      }
      forall i, j | 0 <= i < j < |rows| ensures Key(rows[i].observation) != Key(rows[j].observation) {
        assert rows[i] == before[i];
        if j < |before| { assert rows[j] == before[j]; } else { assert rows[j] == d; }
      }
      forall n: nat | FirstWithKey(ds, n) ensures ds[n] in rows {
        if n < |init| {
          assert init[n] in before;
        } else {
          assert rows[|before|] == d;
        }
      }
    }
  }

  lemma LastIsFirst(ds: seq<Row>)
    requires ds != []
    ensures var init, d := ds[..|ds| - 1], ds[|ds| - 1];
            FirstWithKey(ds, |init|) <==>
              Recordable(d.observation) && Key(d.observation) !in KeysOf(DeliveredAll([], init))
  {
    hide Key, Recordable;
    var init, d := ds[..|ds| - 1], ds[|ds| - 1];
    DeliveredKeys([], init);
    if Key(d.observation) in KeysOf(DeliveredAll([], init)) {
      var e :| e in init && Recordable(e.observation) && Key(e.observation) == Key(d.observation);
      var j :| 0 <= j < |init| && init[j] == e;
      assert ds[j] == e;
    } else {
      forall j | 0 <= j < |init| && Recordable(ds[j].observation) ensures Key(ds[j].observation) != Key(d.observation) {
        assert ds[j] == init[j] && init[j] in init;
      }
    }
  }

  // ---------------------------------------------------------------- aggregation

  function Amount(tokens: map<Field, int>, f: Field): int {
    if f in tokens then tokens[f] else 0
  }

  function Max(a: int, b: int): int {
    if a > b then a else b
  }

  /** The largest cumulative amount, 0 when there is none. */
  function MaxCumulative(items: seq<Observation>, f: Field): (max: int)
    ensures max >= 0 && forall o | o in items && o.kind == Cumulative :: Amount(o.tokens, f) <= max
    ensures max == 0 || exists o | o in items :: o.kind == Cumulative && Amount(o.tokens, f) == max
  {
    if items == [] then 0
    else
      var rest, o := MaxCumulative(items[..|items| - 1], f), items[|items| - 1];
      if o.kind == Cumulative then Max(rest, Amount(o.tokens, f)) else rest
  }

  function SumDeltas(items: seq<Observation>, f: Field): int {
    if items == [] then 0
    else
      var o := items[|items| - 1];
      SumDeltas(items[..|items| - 1], f) + if o.kind == Delta then Amount(o.tokens, f) else 0
  }

  predicate FromProvider(o: Observation) {
    o.source != "tokscale"
  }

  function Providers(items: seq<Observation>): (r: seq<Observation>)
    ensures r != [] <==> exists o | o in items :: FromProvider(o)
  {
    if items == [] then []
    else
      var o := items[|items| - 1];
      Providers(items[..|items| - 1]) + if FromProvider(o) then [o] else []
  }

  /** Provider records, or all records when there is no provider record. */
  function Primary(items: seq<Observation>): seq<Observation> {
    if Providers(items) != [] then Providers(items) else items
  }

  function LastFinal(items: seq<Observation>): Option<Observation> {
    if items == [] then None
    else if items[|items| - 1].kind == Final then Some(items[|items| - 1])
    else LastFinal(items[..|items| - 1])
  }

  /** The tokens of one invocation: the last final record's, else the largest cumulative amount and all deltas. */
  function InvocationTokens(items: seq<Observation>, f: Field): int {
    var primary := Primary(items);
    match LastFinal(primary)
    case Some(o) => Amount(o.tokens, f)
    case None => MaxCumulative(primary, f) + SumDeltas(primary, f)
  }

  /** The record an invocation is attributed by: the last final one, else the last one. */
  function Chosen(items: seq<Observation>): Observation
    requires items != []
  {
    var primary := Primary(items);
    match LastFinal(primary)
    case Some(o) => o
    case None => primary[|primary| - 1]
  }

  lemma {:induction false} ProvidersInsert(a: seq<Observation>, t: Observation, b: seq<Observation>)
    requires !FromProvider(t)
    ensures Providers(a + [t] + b) == Providers(a + b)
  {
    hide FromProvider;
    if b == [] {
      assert (a + [t] + b)[..|a|] == a && a + b == a;
    } else {
      var init := b[..|b| - 1];
      ProvidersInsert(a, t, init);
      var with, without := a + [t] + b, a + b;
      assert with[..|with| - 1] == a + [t] + init && with[|with| - 1] == b[|b| - 1];
      assert without[..|without| - 1] == a + init && without[|without| - 1] == b[|b| - 1];
    }
  }

  /** A tokscale record, wherever it comes, never changes the tokens of an invocation with a provider record. */
  lemma TokscaleNeverCounts(a: seq<Observation>, t: Observation, b: seq<Observation>, f: Field)
    requires !FromProvider(t) && exists o | o in a + b :: FromProvider(o)
    ensures InvocationTokens(a + [t] + b, f) == InvocationTokens(a + b, f)
  {
    ProvidersInsert(a, t, b);
  }

  // ---------------------------------------------------------------- record by record

  predicate HasProvider(items: seq<Observation>) {
    exists o | o in items :: FromProvider(o)
  }

  /** A record of the invocation that counts: a provider's, or any while there is none of a provider. */
  predicate Counts(items: seq<Observation>, o: Observation) {
    FromProvider(o) || !HasProvider(items)
  }

  /** A final record counts. */
  predicate Settled(items: seq<Observation>) {
    exists o | o in items :: o.kind == Final && Counts(items, o)
  }

  /** The cumulative part of an invocation's tokens. */
  function CumulativePart(items: seq<Observation>, f: Field): int {
    MaxCumulative(Primary(items), f)
  }

  lemma {:induction false} ProvidersAre(items: seq<Observation>)
    ensures forall o :: o in Providers(items) <==> o in items && FromProvider(o)
  {
    hide FromProvider;
    if items != [] {
      var init, last := items[..|items| - 1], items[|items| - 1];
      ProvidersAre(init);
      assert items == init + [last];
    }
  }

  lemma PrimaryAre(items: seq<Observation>)
    ensures forall o :: o in Primary(items) <==> o in items && Counts(items, o)
  {
    hide FromProvider;
    ProvidersAre(items);
  }

  /** The cumulative part is the largest amount of a cumulative record that counts, or 0. */
  lemma CumulativePartIs(items: seq<Observation>, f: Field)
    ensures CumulativePart(items, f) >= 0
    ensures forall o | o in items && Counts(items, o) && o.kind == Cumulative :: Amount(o.tokens, f) <= CumulativePart(items, f)
    ensures CumulativePart(items, f) == 0
            || exists o | o in items :: Counts(items, o) && o.kind == Cumulative && Amount(o.tokens, f) == CumulativePart(items, f)
  {
    PrimaryAre(items);
    hide Primary, Counts;
  }

  lemma {:induction false} LastFinalIs(items: seq<Observation>)
    ensures LastFinal(items).Some? <==> exists o | o in items :: o.kind == Final
  {
    if items != [] {
      var init, last := items[..|items| - 1], items[|items| - 1];
      LastFinalIs(init);
      assert items == init + [last];
    }
  }

  lemma SettledIs(items: seq<Observation>)
    ensures Settled(items) <==> LastFinal(Primary(items)).Some?
  {
    LastFinalIs(Primary(items));
    PrimaryAre(items);
    hide Counts, Primary;
  }

  /** A record of the standing of those that count so far joins them. */
  lemma PrimaryExtends(items: seq<Observation>, o: Observation)
    requires items != [] ==> (FromProvider(o) <==> HasProvider(items))
    ensures Primary(items + [o]) == Primary(items) + [o]
  {
    hide FromProvider;
    assert (items + [o])[..|items|] == items;
    ProvidersAre(items);
    ProvidersAre(items + [o]);
    if items != [] && !HasProvider(items) { assert Providers(items) == []; }
  }

  /** What one more record does to an invocation's tokens, when it is a provider's and so are those that count so far, or
      when no provider's is there at all. A final record settles them: they are its amounts, whatever came before. Once
      they are settled no other record changes them. Until then a delta adds its amounts, and a cumulative record raises
      the cumulative part to its amount and never lowers it. */
  lemma NextRecord(items: seq<Observation>, o: Observation, f: Field)
    requires items != [] ==> (FromProvider(o) <==> HasProvider(items))
    ensures o.kind == Final ==> InvocationTokens(items + [o], f) == Amount(o.tokens, f) && Settled(items + [o])
    ensures o.kind != Final ==> (Settled(items + [o]) <==> Settled(items))
    ensures o.kind != Final && Settled(items) ==> InvocationTokens(items + [o], f) == InvocationTokens(items, f)
    ensures o.kind == Delta && !Settled(items) ==>
              && InvocationTokens(items + [o], f) == InvocationTokens(items, f) + Amount(o.tokens, f)
              && CumulativePart(items + [o], f) == CumulativePart(items, f)
    ensures o.kind == Cumulative && !Settled(items) ==>
              && InvocationTokens(items + [o], f) - CumulativePart(items + [o], f)
                 == InvocationTokens(items, f) - CumulativePart(items, f)
              && CumulativePart(items + [o], f) == Max(CumulativePart(items, f), Amount(o.tokens, f))
    ensures o.kind.OtherKind? && !Settled(items) ==> InvocationTokens(items + [o], f) == InvocationTokens(items, f)
  {
    SettledIs(items);
    SettledIs(items + [o]);
    PrimaryExtends(items, o);
    hide Primary, Settled, FromProvider;
    var before, after := Primary(items), Primary(items + [o]);
    assert after[..|before|] == before;
  }

  /** An invocation without records has no tokens. */
  lemma NoRecords(f: Field)
    ensures InvocationTokens([], f) == 0 && !Settled([]) && CumulativePart([], f) == 0
  {
  }

  /** The first provider's record puts an end to the others: it counts as if it were alone. */
  lemma FirstProviderRecord(items: seq<Observation>, o: Observation, f: Field)
    requires FromProvider(o) && !HasProvider(items)
    ensures InvocationTokens(items + [o], f) == InvocationTokens([o], f)
    ensures Chosen(items + [o]) == o
  {
    AloneIsPrimary(items, o);
    AloneIsPrimary([], o);
    hide Primary, FromProvider, HasProvider;
    assert [] + [o] == [o];
    LastOfOne(o);
  }

  lemma LastOfOne(o: Observation)
    ensures LastFinal([o]) == if o.kind == Final then Some(o) else None
  {
    assert [o][..0] == [];
  }

  lemma AloneIsPrimary(items: seq<Observation>, o: Observation)
    requires FromProvider(o) && !HasProvider(items)
    ensures Primary(items + [o]) == [o]
  {
    hide FromProvider;
    ProvidersAre(items);
    assert Providers(items) == [];
    assert (items + [o])[..|items|] == items;
  }

  /** An invocation is attributed by the final record that settled it, and until then by its last record that counts. */
  lemma NextAttribution(items: seq<Observation>, o: Observation)
    requires items != [] ==> (FromProvider(o) <==> HasProvider(items))
    ensures o.kind == Final || !Settled(items) ==> Chosen(items + [o]) == o
    ensures o.kind != Final && Settled(items) ==> items != [] && Chosen(items + [o]) == Chosen(items)
  {
    SettledIs(items);
    PrimaryExtends(items, o);
    hide Primary, FromProvider;
    var before, after := Primary(items), Primary(items + [o]);
    assert after[..|before|] == before;
  }

  /** A tokscale record, wherever it comes, attributes no invocation with a provider record. */
  lemma TokscaleNeverAttributes(a: seq<Observation>, t: Observation, b: seq<Observation>)
    requires !FromProvider(t) && HasProvider(a + b)
    ensures a + b != [] && Chosen(a + [t] + b) == Chosen(a + b)
  {
    TokscaleNeverPrimary(a, t, b);
    hide Primary, FromProvider, LastFinal;
  }

  lemma TokscaleNeverPrimary(a: seq<Observation>, t: Observation, b: seq<Observation>)
    requires !FromProvider(t) && HasProvider(a + b)
    ensures Primary(a + [t] + b) == Primary(a + b) != []
  {
    ProvidersInsert(a, t, b);
    hide FromProvider;
  }

  // ---------------------------------------------------------------- groups

  /** One invocation's summary row. */
  datatype Invocation = Invocation(id: string, tokens: map<Field, int>, model: string, role: string, taskId: string, tier: string)

  datatype Group = Group(name: string, tokens: map<Field, int>, invocations: nat)

  function Label(item: Invocation, grouping: Invocation -> string): (name: string)
    ensures name != "" && (grouping(item) != "" ==> name == grouping(item))
  {
    if grouping(item) != "" then grouping(item) else "unattributed"
  }

  function Added(tokens: map<Field, int>, more: map<Field, int>): (r: map<Field, int>)
    ensures forall f | f in TOKEN_FIELDS :: Amount(r, f) == Amount(tokens, f) + Amount(more, f)
  {
    map f | f in TOKEN_FIELDS :: Amount(tokens, f) + Amount(more, f)
  }

  function SumItems(items: seq<Invocation>, f: Field): int {
    if items == [] then 0 else SumItems(items[..|items| - 1], f) + Amount(items[|items| - 1].tokens, f)
  }

  /** The sum over the invocations whose name is among these. */
  function SumIn(items: seq<Invocation>, grouping: Invocation -> string, labels: set<string>, f: Field): int {
    if items == [] then 0
    else
      var last := items[|items| - 1];
      SumIn(items[..|items| - 1], grouping, labels, f) + if Label(last, grouping) in labels then Amount(last.tokens, f) else 0
  }

  function CountOf(items: seq<Invocation>, grouping: Invocation -> string, name: string): nat {
    if items == [] then 0
    else CountOf(items[..|items| - 1], grouping, name) + if Label(items[|items| - 1], grouping) == name then 1 else 0
  }

  predicate DistinctNames(groups: seq<Group>) {
    forall i, j | 0 <= i < j < |groups| :: groups[i].name != groups[j].name
  }

  /** The group holds exactly its name's invocations and tokens. */
  ghost predicate Holds(g: Group, items: seq<Invocation>, grouping: Invocation -> string) {
    && (forall f | f in TOKEN_FIELDS :: Amount(g.tokens, f) == SumIn(items, grouping, {g.name}, f))
    && g.invocations == CountOf(items, grouping, g.name)
  }

  predicate Names(groups: seq<Group>, name: string) {
    exists i | 0 <= i < |groups| :: groups[i].name == name
  }

  /** One group for each name that occurs, holding exactly that name's invocations and tokens. */
  ghost predicate GroupsOf(groups: seq<Group>, items: seq<Invocation>, grouping: Invocation -> string) {
    && DistinctNames(groups)
    && (forall i | 0 <= i < |groups| :: Holds(groups[i], items, grouping))
    && (forall i | 0 <= i < |items| :: Names(groups, Label(items[i], grouping)))
  }

  method FindGroup(groups: seq<Group>, name: string) returns (k: nat)
    ensures k <= |groups| && (k < |groups| ==> groups[k].name == name)
    ensures k == |groups| <==> !Names(groups, name)
  {
    k := 0;
    while k < |groups| && groups[k].name != name
      invariant 0 <= k <= |groups| && forall j | 0 <= j < k :: groups[j].name != name
    {
      k := k + 1;
    }
  }

  lemma {:induction false} NothingElsewhere(items: seq<Invocation>, grouping: Invocation -> string, name: string, f: Field)
    requires forall i | 0 <= i < |items| :: Label(items[i], grouping) != name
    ensures SumIn(items, grouping, {name}, f) == 0 && CountOf(items, grouping, name) == 0
  {
    if items != [] { NothingElsewhere(items[..|items| - 1], grouping, name, f); }
  }

  /** The groups after one more invocation. */
  function Joined(groups: seq<Group>, item: Invocation, grouping: Invocation -> string, k: nat): seq<Group>
    requires k <= |groups|
  {
    if k < |groups| then
      groups[k := Group(groups[k].name, Added(groups[k].tokens, item.tokens), groups[k].invocations + 1)]
    else groups + [Group(Label(item, grouping), Added(map[], item.tokens), 1)]
  }

  lemma HoldsMore(g: Group, items: seq<Invocation>, item: Invocation, grouping: Invocation -> string)
    requires Holds(g, items, grouping)
    ensures if Label(item, grouping) == g.name
            then Holds(Group(g.name, Added(g.tokens, item.tokens), g.invocations + 1), items + [item], grouping)
            else Holds(g, items + [item], grouping)
  {
    hide Label;
    var all := items + [item];
    assert all[..|items|] == items && all[|items|] == item;
  }

  lemma HoldsNew(items: seq<Invocation>, item: Invocation, grouping: Invocation -> string)
    requires forall i | 0 <= i < |items| :: Label(items[i], grouping) != Label(item, grouping)
    ensures Holds(Group(Label(item, grouping), map[], 0), items, grouping)
  {
    NothingElsewhere(items, grouping, Label(item, grouping), InputTokens);
    forall f { NothingElsewhere(items, grouping, Label(item, grouping), f); }
  }

  lemma NamesKept(groups: seq<Group>, item: Invocation, grouping: Invocation -> string, k: nat, name: string)
    requires k <= |groups| && (k < |groups| ==> groups[k].name == Label(item, grouping))
    ensures Names(Joined(groups, item, grouping, k), name) <==> Names(groups, name) || name == Label(item, grouping)
  {
    hide Label, Added;
    var after := Joined(groups, item, grouping, k);
    assert forall i | 0 <= i < |groups| :: after[i].name == groups[i].name;
    assert after[k].name == Label(item, grouping);
  }

  lemma GroupsExtend(groups: seq<Group>, items: seq<Invocation>, item: Invocation, grouping: Invocation -> string, k: nat)
    requires GroupsOf(groups, items, grouping) && k <= |groups|
    requires k < |groups| ==> groups[k].name == Label(item, grouping)
    requires k == |groups| ==> !Names(groups, Label(item, grouping))
    ensures GroupsOf(Joined(groups, item, grouping, k), items + [item], grouping)
  {
    hide Label, Amount, Added, Names, SumIn, CountOf;
    var all, after := items + [item], Joined(groups, item, grouping, k);
    NamesAre(groups);
    if k == |groups| {
      HoldsNew(items, item, grouping);
      HoldsMore(Group(Label(item, grouping), map[], 0), items, item, grouping);
    }
    forall i, j | 0 <= i < j < |after| ensures after[i].name != after[j].name {
      assert Names(groups, groups[i].name);
      assert after[i].name == groups[i].name;
      assert j < |groups| ==> after[j].name == groups[j].name;
    }
    forall i | 0 <= i < |after| ensures Holds(after[i], all, grouping) {
      if i < |groups| { HoldsMore(groups[i], items, item, grouping); }
      if i < |groups| && i != k {
        assert Names(groups, groups[i].name);
        assert groups[i].name != Label(item, grouping);
      }
    }
    forall i | 0 <= i < |all| ensures Names(after, Label(all[i], grouping)) {
      NamesKept(groups, item, grouping, k, Label(all[i], grouping));
      if i < |items| { assert all[i] == items[i]; }
    }
  }

  lemma NamesAre(groups: seq<Group>)
    ensures forall i | 0 <= i < |groups| :: Names(groups, groups[i].name)
  {
  }

  method GroupSummaries(items: seq<Invocation>, grouping: Invocation -> string) returns (groups: seq<Group>)
    ensures GroupsOf(groups, items, grouping)
  {
    hide Label, Holds, Names, Joined;
    groups := [];
    var i := 0;
    while i < |items|
      invariant 0 <= i <= |items|
      invariant GroupsOf(groups, items[..i], grouping)
    {
      var k := FindGroup(groups, Label(items[i], grouping));
      GroupsExtend(groups, items[..i], items[i], grouping, k);
      assert items[..i + 1] == items[..i] + [items[i]];
      groups := JoinGroup(groups, items[i], grouping, k);
      i := i + 1;
    }
    assert items[..i] == items;
  }

  /** Adds an invocation to its group, or opens the group with it. */
  method JoinGroup(groups: seq<Group>, item: Invocation, grouping: Invocation -> string, k: nat) returns (r: seq<Group>)
    requires k <= |groups|
    ensures r == Joined(groups, item, grouping, k)
  {
    r := groups;
    if k == |groups| { r := r + [Group(Label(item, grouping), map[], 0)]; }
    var g := r[k];
    r := r[k := Group(g.name, Added(g.tokens, item.tokens), g.invocations + 1)];
  }

  function SumGroups(groups: seq<Group>, f: Field): int {
    if groups == [] then 0 else SumGroups(groups[..|groups| - 1], f) + Amount(groups[|groups| - 1].tokens, f)
  }

  function LabelsOf(groups: seq<Group>): set<string> {
    set i | 0 <= i < |groups| :: groups[i].name
  }

  lemma {:induction false} SumInSplits(items: seq<Invocation>, grouping: Invocation -> string, labels: set<string>, name: string,
                                       f: Field)
    requires name !in labels
    ensures SumIn(items, grouping, labels + {name}, f) == SumIn(items, grouping, labels, f) + SumIn(items, grouping, {name}, f)
  {
    if items != [] { SumInSplits(items[..|items| - 1], grouping, labels, name, f); }
  }

  lemma {:induction false} SumInAll(items: seq<Invocation>, grouping: Invocation -> string, labels: set<string>, f: Field)
    requires forall i | 0 <= i < |items| :: Label(items[i], grouping) in labels
    ensures SumIn(items, grouping, labels, f) == SumItems(items, f)
  {
    if items != [] { SumInAll(items[..|items| - 1], grouping, labels, f); }
  }

  lemma LabelsExtend(groups: seq<Group>, g: Group)
    ensures LabelsOf(groups + [g]) == LabelsOf(groups) + {g.name}
  {
    var all := groups + [g];
    forall x ensures x in LabelsOf(all) <==> x in LabelsOf(groups) || x == g.name {
      if x in LabelsOf(groups) {
        var i :| 0 <= i < |groups| && groups[i].name == x;
        assert all[i].name == x;
      }
      assert all[|groups|].name == g.name;
    }
  }

  lemma {:induction false} SumGroupsIsSumIn(groups: seq<Group>, items: seq<Invocation>, grouping: Invocation -> string, f: Field)
    requires DistinctNames(groups)
    requires forall i | 0 <= i < |groups| :: Amount(groups[i].tokens, f) == SumIn(items, grouping, {groups[i].name}, f)
    ensures SumGroups(groups, f) == SumIn(items, grouping, LabelsOf(groups), f)
  {
    hide Label, Amount, SumIn;
    if groups == [] {
      SumInNone(items, grouping, f);
      assert LabelsOf(groups) == {};
    } else {
      var init, g := groups[..|groups| - 1], groups[|groups| - 1];
      SumGroupsIsSumIn(init, items, grouping, f);
      LabelsExtend(init, g);
      assert groups == init + [g];
      SumInSplits(items, grouping, LabelsOf(init), g.name, f);
    }
  }

  lemma {:induction false} SumInNone(items: seq<Invocation>, grouping: Invocation -> string, f: Field)
    ensures SumIn(items, grouping, {}, f) == 0
  {
    if items != [] { SumInNone(items[..|items| - 1], grouping, f); }
  }

  /** Whatever the invocations are grouped by, the groups add up to the totals, field by field. */
  lemma GroupsSumToTotals(groups: seq<Group>, items: seq<Invocation>, grouping: Invocation -> string, f: Field)
    requires GroupsOf(groups, items, grouping) && f in TOKEN_FIELDS
    ensures SumGroups(groups, f) == SumItems(items, f)
  {
    SumGroupsIsSumIn(groups, items, grouping, f);
    forall i | 0 <= i < |items| ensures Label(items[i], grouping) in LabelsOf(groups) {
      assert Names(groups, Label(items[i], grouping));
    }
    SumInAll(items, grouping, LabelsOf(groups), f);
  }

  // ---------------------------------------------------------------- the summary of a ledger

  /** The observations of one invocation, in the order of the file. */
  function ObservationsOf(rows: seq<Row>, id: string): (items: seq<Observation>)
    ensures items != [] <==> Measured(rows, id)
  {
    if rows == [] then []
    else
      var o := rows[|rows| - 1].observation;
      assert Measured(rows, id) <==> Measured(rows[..|rows| - 1], id) || o.invocationId == id by { MeasuredNext(rows, id); }
      ObservationsOf(rows[..|rows| - 1], id) + if o.invocationId == id then [o] else []
  }

  predicate Measured(rows: seq<Row>, id: string) {
    exists i | 0 <= i < |rows| :: rows[i].observation.invocationId == id
  }

  lemma MeasuredNext(rows: seq<Row>, id: string)
    requires rows != []
    ensures Measured(rows, id) <==>
              Measured(rows[..|rows| - 1], id) || rows[|rows| - 1].observation.invocationId == id
  {
    var init := rows[..|rows| - 1];
    if Measured(init, id) {
      var i :| 0 <= i < |init| && init[i].observation.invocationId == id;
      assert rows[i] == init[i];
    }
  }

  /** One more row is one more record of its own invocation, after those on file, and of no other. */
  lemma NextRow(rows: seq<Row>, r: Row, id: string)
    ensures ObservationsOf(rows + [r], id) ==
              ObservationsOf(rows, id) + if r.observation.invocationId == id then [r.observation] else []
  {
    assert (rows + [r])[..|rows|] == rows;
  }

  function InvocationOf(id: string, items: seq<Observation>): (r: Invocation)
    requires items != []
    ensures r.id == id && forall f | f in TOKEN_FIELDS :: Amount(r.tokens, f) == InvocationTokens(items, f)
    ensures r.model == Chosen(items).model && r.role == Chosen(items).role
    ensures r.taskId == Chosen(items).taskId && r.tier == Chosen(items).tier
  {
    var o := Chosen(items);
    Invocation(id, map f | f in TOKEN_FIELDS :: InvocationTokens(items, f), o.model, o.role, o.taskId, o.tier)
  }

  /** Which part of an invocation a summary groups by. */
  datatype Dimension = ByModel | ByRole | ByTask | ByTier

  function Grouping(d: Dimension): (grouping: Invocation -> string)
    ensures d == ByModel ==> forall i :: grouping(i) == i.model
    ensures d == ByRole ==> forall i :: grouping(i) == i.role
    ensures d == ByTask ==> forall i :: grouping(i) == i.taskId
    ensures d == ByTier ==> forall i :: grouping(i) == i.tier
  {
    match d
    case ByModel => (i: Invocation) => i.model
    case ByRole => (i: Invocation) => i.role
    case ByTask => (i: Invocation) => i.taskId
    case ByTier => (i: Invocation) => i.tier
  }

  datatype Summary = Summary(totals: map<Field, int>, invocations: seq<Invocation>, groups: map<Dimension, seq<Group>>)

  /** One invocation for every id on file, made of just that id's observations; totals over them, and groups of them by
      every dimension. */
  ghost predicate SummaryOf(s: Summary, rows: seq<Row>) {
    && (forall i, j | 0 <= i < j < |s.invocations| :: s.invocations[i].id != s.invocations[j].id)
    && (forall i | 0 <= i < |s.invocations| ::
          && ObservationsOf(rows, s.invocations[i].id) != []
          && s.invocations[i] == InvocationOf(s.invocations[i].id, ObservationsOf(rows, s.invocations[i].id)))
    && (forall k | 0 <= k < |rows| :: HasId(s.invocations, rows[k].observation.invocationId))
    && (forall f | f in TOKEN_FIELDS :: Amount(s.totals, f) == SumItems(s.invocations, f))
    && (forall d: Dimension :: d in s.groups && GroupsOf(s.groups[d], s.invocations, Grouping(d)))
  }

  predicate HasId(items: seq<Invocation>, id: string) {
    exists i | 0 <= i < |items| :: items[i].id == id
  }

  /** The ids of the file, each where it first occurs. */
  method CollectIds(rows: seq<Row>) returns (ids: seq<string>)
    ensures forall i, j | 0 <= i < j < |ids| :: ids[i] != ids[j]
    ensures forall id :: id in ids <==> Measured(rows, id)
  {
    ids := [];
    var k := 0;
    while k < |rows|
      invariant 0 <= k <= |rows|
      invariant forall i, j | 0 <= i < j < |ids| :: ids[i] != ids[j]
      invariant forall id :: id in ids <==> Measured(rows[..k], id)
    {
      var more := rows[..k + 1];
      assert more[..|more| - 1] == rows[..k];
      forall id ensures Measured(more, id) <==> Measured(rows[..k], id) || rows[k].observation.invocationId == id {
        MeasuredNext(more, id);
      }
      if rows[k].observation.invocationId !in ids { ids := ids + [rows[k].observation.invocationId]; }
      k := k + 1;
    }
    assert rows[..k] == rows;
  }

  /** Invocation by invocation: its summary, and the totals so far. */
  method SummarizeInvocations(rows: seq<Row>, ids: seq<string>) returns (items: seq<Invocation>, totals: map<Field, int>)
    requires forall i | 0 <= i < |ids| :: ObservationsOf(rows, ids[i]) != []
    ensures |items| == |ids| && forall i | 0 <= i < |ids| :: items[i] == InvocationOf(ids[i], ObservationsOf(rows, ids[i]))
    ensures forall f | f in TOKEN_FIELDS :: Amount(totals, f) == SumItems(items, f)
  {
    hide InvocationOf, ObservationsOf, Amount, Added, Chosen, InvocationTokens;
    items, totals := [], map[];
    NothingYet();
    var i := 0;
    while i < |ids|
      invariant 0 <= i <= |ids| && |items| == i
      invariant forall j | 0 <= j < i :: items[j] == InvocationOf(ids[j], ObservationsOf(rows, ids[j]))
      invariant forall f | f in TOKEN_FIELDS :: Amount(totals, f) == SumItems(items, f)
    {
      var item := InvocationOf(ids[i], ObservationsOf(rows, ids[i]));
      assert (items + [item])[..|items|] == items;
      totals := Added(totals, item.tokens);
      items := items + [item];
      i := i + 1;
    }
  }

  lemma NothingYet()
    ensures forall f :: Amount(map[], f) == SumItems([], f)
  {
  }

  method Summarize(rows: seq<Row>) returns (s: Summary)
    ensures SummaryOf(s, rows)
  {
    hide GroupsOf, InvocationOf, ObservationsOf, Amount, SumItems;
    var ids := CollectIds(rows);
    forall i | 0 <= i < |ids| ensures ObservationsOf(rows, ids[i]) != [] {
      assert ids[i] in ids;
    }
    var items, totals := SummarizeInvocations(rows, ids);
    var byModel := GroupSummaries(items, Grouping(ByModel));
    var byRole := GroupSummaries(items, Grouping(ByRole));
    var byTask := GroupSummaries(items, Grouping(ByTask));
    var byTier := GroupSummaries(items, Grouping(ByTier));
    s := Summary(totals, items, map[ByModel := byModel, ByRole := byRole, ByTask := byTask, ByTier := byTier]);
    forall k | 0 <= k < |rows| ensures HasId(s.invocations, rows[k].observation.invocationId) {
      var id := rows[k].observation.invocationId;
      assert Measured(rows, id);
      var i :| 0 <= i < |ids| && ids[i] == id;
      assert s.invocations[i].id == id;
    }
    forall d: Dimension ensures d in s.groups && GroupsOf(s.groups[d], s.invocations, Grouping(d)) {
      match d {
        case ByModel =>
        case ByRole =>
        case ByTask =>
        case ByTier =>
      }
    }
  }

  /** The groups of a ledger's summary, by any dimension, add up to its totals, which are those of the invocations on
      file; and whatever was delivered again changes none of it, for the file is the same. */
  lemma SummaryOfDeliveries(ds: seq<Row>, again: seq<Row>, s: Summary, d: Dimension, f: Field)
    requires SummaryOf(s, DeliveredAll([], ds)) && f in TOKEN_FIELDS
    requires forall r | r in again && Recordable(r.observation) ::
               exists e | e in ds :: Recordable(e.observation) && Key(e.observation) == Key(r.observation)
    ensures SumGroups(s.groups[d], f) == Amount(s.totals, f) == SumItems(s.invocations, f)
    ensures forall i | 0 <= i < |s.invocations| ::
              Amount(s.invocations[i].tokens, f) == InvocationTokens(ObservationsOf(DeliveredAll([], ds), s.invocations[i].id), f)
    ensures SummaryOf(s, DeliveredAll([], ds + again))
  {
    hide Key, GroupsOf, ObservationsOf, InvocationTokens, Recordable;
    RedeliveryChangesNothing(ds, again);
    GroupsSumToTotals(s.groups[d], s.invocations, Grouping(d), f);
  }

  // ---------------------------------------------------------------- budgets

  /** Cache reads count a tenth, rounded up. */
  function Discounted(cacheRead: int): int {
    (cacheRead + 9) / 10
  }

  function Direct(tokens: map<Field, int>): int {
    Amount(tokens, InputTokens) + Amount(tokens, OutputTokens) + Amount(tokens, CacheWrite) + Amount(tokens, Reasoning)
  }

  predicate HasFields(tokens: map<Field, int>) {
    exists f | f in TOKEN_FIELDS :: f in tokens
  }

  /** What an invocation counts against the run budget; a total without fields counts in full. */
  function BudgetedTotal(tokens: map<Field, int>, rawTotal: Option<int>): int {
    if !HasFields(tokens) then if rawTotal.Some? then rawTotal.value else 0
    else Direct(tokens) + Discounted(Amount(tokens, CacheRead))
  }

  function SumFields(tokens: map<Field, int>, fields: seq<Field>): int {
    if fields == [] then 0 else Amount(tokens, fields[0]) + SumFields(tokens, fields[1..])
  }

  /** All fields but cache reads count in full, and cache reads save nine tenths of what they come to, rounded down. */
  lemma BudgetedTotalIs(tokens: map<Field, int>, rawTotal: Option<int>)
    ensures HasFields(tokens) ==>
              var saved := SumFields(tokens, TOKEN_FIELDS) - BudgetedTotal(tokens, rawTotal);
              10 * saved <= 9 * Amount(tokens, CacheRead) < 10 * saved + 10
    ensures !HasFields(tokens) ==> SumFields(tokens, TOKEN_FIELDS) == 0
    ensures !HasFields(tokens) ==> BudgetedTotal(tokens, rawTotal) == OrZero(rawTotal)
  {
    FieldsListed();
    FiveFields(tokens);
  }

  lemma FiveFields(tokens: map<Field, int>)
    ensures SumFields(tokens, TOKEN_FIELDS) == Direct(tokens) + Amount(tokens, CacheRead)
  {
    hide Amount;
    assert TOKEN_FIELDS[1..] == [OutputTokens, CacheRead, CacheWrite, Reasoning];
    assert [OutputTokens, CacheRead, CacheWrite, Reasoning][1..] == [CacheRead, CacheWrite, Reasoning];
    assert [CacheRead, CacheWrite, Reasoning][1..] == [CacheWrite, Reasoning];
    assert [CacheWrite, Reasoning][1..] == [Reasoning];
    assert SumFields(tokens, [Reasoning]) == Amount(tokens, Reasoning);
    assert SumFields(tokens, [CacheWrite, Reasoning]) == Amount(tokens, CacheWrite) + Amount(tokens, Reasoning);
    assert SumFields(tokens, TOKEN_FIELDS[1..]) == Amount(tokens, OutputTokens) + SumFields(tokens, [CacheRead, CacheWrite, Reasoning]);
    assert SumFields(tokens, TOKEN_FIELDS) == Amount(tokens, TOKEN_FIELDS[0]) + SumFields(tokens, TOKEN_FIELDS[1..]);
  }

  function OrZero(amount: Option<int>): int {
    match amount case Some(n) => n case None => 0
  }

  function SumBudgeted(us: seq<map<Field, int>>): int {
    if us == [] then 0 else SumBudgeted(us[..|us| - 1]) + BudgetedTotal(us[|us| - 1], None)
  }

  function SumTokens(us: seq<map<Field, int>>): map<Field, int> {
    if us == [] then map[] else Added(SumTokens(us[..|us| - 1]), us[|us| - 1])
  }

  lemma AddedFields(a: map<Field, int>, b: map<Field, int>)
    ensures HasFields(Added(a, b))
    ensures Direct(Added(a, b)) == Direct(a) + Direct(b)
    ensures Amount(Added(a, b), CacheRead) == Amount(a, CacheRead) + Amount(b, CacheRead)
  {
    FieldsListed();
    assert InputTokens in Added(a, b);
  }

  lemma FieldsListed()
    ensures InputTokens in TOKEN_FIELDS && OutputTokens in TOKEN_FIELDS && CacheRead in TOKEN_FIELDS
    ensures CacheWrite in TOKEN_FIELDS && Reasoning in TOKEN_FIELDS
  {
    var t := TOKEN_FIELDS;
    assert t[0] == InputTokens && t[1] == OutputTokens && t[2] == CacheRead && t[3] == CacheWrite && t[4] == Reasoning;
  }

  /** The exact gap between rounding every invocation and rounding their sum. */
  lemma {:induction false} RoundingGap(us: seq<map<Field, int>>)
    requires forall i | 0 <= i < |us| :: HasFields(us[i])
    ensures SumBudgeted(us) >= Direct(SumTokens(us)) + Discounted(Amount(SumTokens(us), CacheRead))
    ensures 10 * (SumBudgeted(us) - Direct(SumTokens(us))) <= Amount(SumTokens(us), CacheRead) + 9 * |us|
  {
    hide HasFields, Direct, Amount, Added;
    if us == [] {
      NoTokens();
    } else {
      var init, u := us[..|us| - 1], us[|us| - 1];
      assert forall i | 0 <= i < |init| :: init[i] == us[i];
      RoundingGap(init);
      AddedFields(SumTokens(init), u);
    }
  }

  lemma NoTokens()
    ensures Direct(map[]) == 0 && Amount(map[], CacheRead) == 0
  {
  }

  /** Counting invocation by invocation never undercounts their sum, and overcounts it by less than a token each:
      by at most nine tenths of a token per invocation, rounded down. */
  lemma BudgetedPerInvocation(us: seq<map<Field, int>>)
    requires us != [] && forall i | 0 <= i < |us| :: HasFields(us[i])
    ensures 0 <= SumBudgeted(us) - BudgetedTotal(SumTokens(us), None) <= 9 * |us| / 10
  {
    hide HasFields, Direct, Amount, Added;
    RoundingGap(us);
    AddedFields(SumTokens(us[..|us| - 1]), us[|us| - 1]);
  }

  function OneCachedToken(n: nat): (us: seq<map<Field, int>>)
    ensures |us| == n && forall i | 0 <= i < n :: us[i] == map[CacheRead := 1]
  {
    seq(n, i requires 0 <= i < n => map[CacheRead := 1])
  }

  lemma {:induction false} OneCachedSums(n: nat)
    ensures SumBudgeted(OneCachedToken(n)) == n
    ensures Direct(SumTokens(OneCachedToken(n))) == 0 && Amount(SumTokens(OneCachedToken(n)), CacheRead) == n
  {
    FieldsListed();
    if n > 0 {
      OneCachedSums(n - 1);
      var us, one := OneCachedToken(n), map[CacheRead := 1];
      assert us[..n - 1] == OneCachedToken(n - 1) && us[n - 1] == one;
      AddedFields(SumTokens(OneCachedToken(n - 1)), one);
      assert Direct(one) == 0 && Amount(one, CacheRead) == 1 && HasFields(one);
    }
  }

  /** The bound is met for every number of invocations: one cached token each. */
  lemma BudgetedBoundIsMet(n: nat)
    requires n > 0
    ensures SumBudgeted(OneCachedToken(n)) - BudgetedTotal(SumTokens(OneCachedToken(n)), None) == 9 * n / 10
  {
    OneCachedSums(n);
    var us := OneCachedToken(n);
    AddedFields(SumTokens(us[..n - 1]), us[n - 1]);
  }

  // ---------------------------------------------------------------- the run's hard budget

  /** What a role reports: its budgeted total if it names one, else its fields or its raw total. */
  datatype RoleUsage = RoleUsage(budgeted: Option<int>, tokens: map<Field, int>, rawTotal: Option<int>)

  function CostOf(u: RoleUsage): (cost: int)
    ensures u.budgeted.Some? ==> cost == u.budgeted.value
    ensures u.budgeted.None? && !HasFields(u.tokens) ==> cost == OrZero(u.rawTotal)
    ensures u.budgeted.None? && HasFields(u.tokens) ==> cost == BudgetedTotal(u.tokens, None)
  {
    if u.budgeted.Some? then u.budgeted.value else BudgetedTotal(u.tokens, u.rawTotal)
  }

  /** The hard limit that goes with a tier. */
  function TierLimit(tier: L.Tier): (limit: int)
    ensures limit > 0
  {
    match tier
    case T0 => 20_000
    case T1 => 60_000
    case T2 => 180_000
    case T3 => 360_000
  }

  /** The tier after a recovery: the light ones are raised. */
  function Raised(tier: L.Tier): L.Tier {
    if tier == L.T0 || tier == L.T1 then L.T2 else tier
  }

  /** What happens to the budget in a run: a role's invocation is accounted, or a recovery resolves it again. */
  datatype BudgetEvent = Invoked(usage: RoleUsage) | Recovery

  function Consumed(es: seq<BudgetEvent>): int {
    if es == [] then 0
    else Consumed(es[..|es| - 1]) + match es[|es| - 1] case Invoked(u) => CostOf(u) case Recovery => 0
  }

  function TierAfter(tier: L.Tier, es: seq<BudgetEvent>): L.Tier {
    if es == [] then tier
    else
      var before := TierAfter(tier, es[..|es| - 1]);
      if es[|es| - 1].Recovery? then Raised(before) else before
  }

  /** The limit in force after these events. */
  function LimitAfter(tier: L.Tier, es: seq<BudgetEvent>): (limit: int)
    ensures limit > 0
  {
    TierLimit(TierAfter(tier, es))
  }

  /** A recovery never lowers the limit, and it raises the tier just as the obligations' recovery does. */
  lemma RecoveryRaises(s: L.Session)
    ensures TierLimit(s.strategy.tier) <= TierLimit(Raised(s.strategy.tier))
    ensures L.Activated(s).strategy.tier == Raised(s.strategy.tier)
  {
  }

  class RoleBudget {
    var tier: L.Tier
    var limit: int
    var consumed: int

    constructor (tier: L.Tier)
      ensures this.tier == tier && limit == TierLimit(tier) && consumed == 0
    {
      this.tier, limit, consumed := tier, TierLimit(tier), 0;
    }

    /** False when the hard limit is passed, which ends the run. */
    method Account(u: RoleUsage) returns (ok: bool)
      modifies this`consumed
      ensures consumed == old(consumed) + CostOf(u)
      ensures ok <==> consumed <= limit
    {
      consumed := consumed + CostOf(u);
      ok := consumed <= limit;
    }

    method Recover()
      modifies this`tier, this`limit
      ensures tier == Raised(old(tier)) && limit == TierLimit(tier)
    {
      if tier == L.T0 || tier == L.T1 { tier := L.T2; }
      limit := TierLimit(tier);
    }
  }

  lemma EventsNext(tier: L.Tier, es: seq<BudgetEvent>, k: nat)
    requires k < |es|
    ensures Consumed(es[..k + 1]) == Consumed(es[..k]) + match es[k] case Invoked(u) => CostOf(u) case Recovery => 0
    ensures TierAfter(tier, es[..k + 1]) == if es[k].Recovery? then Raised(TierAfter(tier, es[..k])) else TierAfter(tier, es[..k])
  {
    assert es[..k + 1][..k] == es[..k];
  }

  /** A run's invocations and recoveries, until the budget stops it. Whenever a further role is invoked the consumption
      so far is within the limit then in force, whatever recoveries raised it in between; so that limit is overshot
      by no more than the last invocation's cost. */
  method RunBudget(tier: L.Tier, es: seq<BudgetEvent>) returns (done: nat, exhausted: bool)
    ensures done <= |es| && (!exhausted ==> done == |es|)
    ensures forall k | 0 <= k < done :: Consumed(es[..k]) <= LimitAfter(tier, es[..k])
    ensures exhausted ==>
              && done > 0 && es[done - 1].Invoked?
              && LimitAfter(tier, es[..done]) < Consumed(es[..done])
              && Consumed(es[..done]) <= LimitAfter(tier, es[..done]) + CostOf(es[done - 1].usage)
    ensures !exhausted ==> Consumed(es) <= LimitAfter(tier, es)
  {
    hide Consumed, TierAfter, CostOf;
    var budget := new RoleBudget(tier);
    assert es[..0] == [] && Consumed([]) == 0 && TierAfter(tier, []) == tier by { NoEvents(tier); }
    done := 0;
    while done < |es|
      invariant done <= |es|
      invariant budget.consumed == Consumed(es[..done])
      invariant budget.tier == TierAfter(tier, es[..done]) && budget.limit == TierLimit(budget.tier)
      invariant forall k | 0 <= k <= done :: Consumed(es[..k]) <= LimitAfter(tier, es[..k])
    {
      EventsNext(tier, es, done);
      match es[done] {
        case Invoked(u) =>
          var ok := budget.Account(u);
          if !ok { return done + 1, true; }
        case Recovery =>
          budget.Recover();
      }
      done := done + 1;
    }
    assert es[..done] == es;
    return done, false;
  }

  lemma NoEvents(tier: L.Tier)
    ensures Consumed([]) == 0 && TierAfter(tier, []) == tier
  {
  }

  lemma {:induction false} TierOfEvents(tier: L.Tier, es: seq<BudgetEvent>)
    ensures TierAfter(tier, es) == if Recovery in es then Raised(tier) else tier
  {
    if es != [] {
      TierOfEvents(tier, es[..|es| - 1]);
      ObligationTheorems.InInitOrLast(es, Recovery);
    }
  }

  /** The limit in force is that of the run's own tier, however its invocations and its steps are interleaved, as long as
      the budget saw a recovery exactly when the run took that step. */
  lemma LimitFollowsRun(criteria: seq<ProofGraph.ObligationId>, strategy: L.Strategy, steps: seq<L.Step>, es: seq<BudgetEvent>)
    requires Recovery in es <==> L.RecoveryActivated in steps
    ensures LimitAfter(strategy.tier, es) == TierLimit(L.AfterAll(L.InitialSession(criteria, strategy), steps).strategy.tier)
  {
    TierOfEvents(strategy.tier, es);
    ObligationTheorems.StrategyOfRun(L.InitialSession(criteria, strategy), steps);
  }
}
