/** JSON trees and the pointer evaluator used to check a claim against an artifact (RFC 6901). */
module JsonPointer {
  import opened Common
  import opened Text

  datatype Json =
    | Null
    | Bool(flag: bool)
    | Num(number: int)
    | Str(text: string)
    | Arr(items: seq<Json>)
    | Obj(fields: map<string, Json>)

  datatype PointerError = NotAPointer | KeyMissing | NotAnIndex | IndexOutOfRange | NotAContainer

  /** Replaces each occurrence of the two characters "~d", scanning from the left. */
  function ReplaceTilde(s: string, d: char, sub: char): string {
    if |s| < 2 then s
    else if s[0] == '~' && s[1] == d then [sub] + ReplaceTilde(s[2..], d, sub)
    else [s[0]] + ReplaceTilde(s[1..], d, sub)
  }

  /** First ~1, then ~0: the order section 4 of RFC 6901 demands. */
  function Unescape(token: string): string {
    ReplaceTilde(ReplaceTilde(token, '1', '/'), '0', '~')
  }

  function Signed(sign: char, n: int): int {
    if sign == '-' then -n else n
  }

  /** A signed decimal integer, or None where the conversion raises. */
  function ParseInt(token: string): Option<int> {
    if token != [] && (token[0] == '-' || token[0] == '+') then
      match ParseDigits(token[1..])
      case None => None
      case Some(n) =>
        Some(Signed(token[0], n))
    else
      match ParseDigits(token)
      case None => None
      case Some(n) => Some(n)
  }

  /** One step down; a negative index counts from the end. */
  function Descend(current: Json, token: string): Result<Json, PointerError> {
    match current
    case Arr(items) =>
      (match ParseInt(token)
       case None => Err(NotAnIndex)
       case Some(i) =>
         if 0 <= i < |items| then Ok(items[i])
         else if -|items| <= i < 0 then Ok(items[|items| + i])
         else Err(IndexOutOfRange))
    case Obj(fields) => if token in fields then Ok(fields[token]) else Err(KeyMissing)
    case _ => Err(NotAContainer)
  }

  function Walk(value: Json, tokens: seq<string>): Result<Json, PointerError> {
    if tokens == [] then Ok(value)
    else match Descend(value, Unescape(tokens[0]))
      case Err(e) => Err(e)
      case Ok(next) => Walk(next, tokens[1..])
  }

  function Evaluate(value: Json, pointer: string): Result<Json, PointerError> {
    if pointer == "" then Ok(value)
    else if pointer[0] != '/' then Err(NotAPointer)
    else Walk(value, Split(pointer[1..], '/'))
  }

  method EvaluatePointer(value: Json, pointer: string) returns (r: Result<Json, PointerError>)
    ensures r == Evaluate(value, pointer)
  {
    if pointer == "" { return Ok(value); }
    if pointer[0] != '/' { return Err(NotAPointer); }
    var tokens := Split(pointer[1..], '/');
    var current := value;
    var i := 0;
    while i < |tokens|
      invariant 0 <= i <= |tokens|
      invariant Walk(value, tokens) == Walk(current, tokens[i..])
    {
      var next := Descend(current, Unescape(tokens[i]));
      assert tokens[i..][0] == tokens[i] && tokens[i..][1..] == tokens[i + 1..];
      match next {
        case Err(e) => return Err(e);
        case Ok(json) => current := json;
      }
      i := i + 1;
    }
    return Ok(current);
  }

  // ---------------------------------------------------------------- printing

  datatype Step = Key(name: string) | Index(i: nat)

  /** The node at a path of object keys and in-range array indices. */
  function NodeAt(value: Json, path: seq<Step>): Option<Json> {
    if path == [] then Some(value)
    else match (value, path[0])
      case (Obj(fields), Key(name)) => if name in fields then NodeAt(fields[name], path[1..]) else None
      case (Arr(items), Index(i)) => if i < |items| then NodeAt(items[i], path[1..]) else None
      case _ => None
  }

  function Escape(name: string): string {
    if name == [] then []
    else (if name[0] == '~' then "~0" else if name[0] == '/' then "~1" else [name[0]]) + Escape(name[1..])
  }

  function Token(step: Step): string {
    match step
    case Key(name) => Escape(name)
    case Index(i) => Decimal(i)
  }

  /** Section 3 of RFC 6901: every reference token is preceded by a slash. */
  function Print(path: seq<Step>): string {
    if path == [] then "" else "/" + Token(path[0]) + Print(path[1..])
  }

  /** The state between the two replacements. */
  function HalfEscape(name: string): string {
    if name == [] then []
    else (if name[0] == '~' then "~0" else [name[0]]) + HalfEscape(name[1..])
  }

  lemma {:induction false} UndoSlashes(name: string)
    ensures ReplaceTilde(Escape(name), '1', '/') == HalfEscape(name)
  {
    if name != [] {
      UndoSlashes(name[1..]);
      var rest := Escape(name[1..]);
      if name[0] == '~' {
        var s := "~0" + rest;
        assert s[1..] == "0" + rest;
        assert ("0" + rest)[1..] == rest;
        assert ReplaceTilde("0" + rest, '1', '/') == "0" + ReplaceTilde(rest, '1', '/');
      } else if name[0] == '/' {
        assert ("~1" + rest)[2..] == rest;
      } else {
        assert ([name[0]] + rest)[1..] == rest;
      }
    }
  }

  lemma {:induction false} UndoTildes(name: string)
    ensures ReplaceTilde(HalfEscape(name), '0', '~') == name
  {
    if name != [] {
      UndoTildes(name[1..]);
      var rest := HalfEscape(name[1..]);
      if name[0] == '~' {
        assert ("~0" + rest)[2..] == rest;
      } else {
        assert ([name[0]] + rest)[1..] == rest;
      }
    }
  }

  lemma UnescapeEscape(name: string)
    ensures Unescape(Escape(name)) == name
  {
    UndoSlashes(name);
    UndoTildes(name);
  }

  lemma {:induction false} EscapeHasNoSlash(name: string)
    ensures '/' !in Escape(name)
  {
    if name != [] { EscapeHasNoSlash(name[1..]); }
  }

  lemma {:induction false} PlainTokenUnchanged(s: string, d: char, sub: char)
    requires '~' !in s
    ensures ReplaceTilde(s, d, sub) == s
  {
    if |s| >= 2 { PlainTokenUnchanged(s[1..], d, sub); }
  }

  /** Unescaping a printed token gives back the key, or a numeral that reads back as the index. */
  lemma TokenReadsBack(step: Step)
    ensures '/' !in Token(step)
    ensures step.Key? ==> Unescape(Token(step)) == step.name
    ensures step.Index? ==> ParseInt(Unescape(Token(step))) == Some(step.i)
  {
    match step {
      case Key(name) =>
        UnescapeEscape(name);
        EscapeHasNoSlash(name);
      case Index(i) =>
        DecimalRoundTrip(i);
        PlainTokenUnchanged(Decimal(i), '1', '/');
        PlainTokenUnchanged(Decimal(i), '0', '~');
    }
  }

  function Tokens(path: seq<Step>): (ts: seq<string>)
    ensures |ts| == |path|
  {
    if path == [] then [] else [Token(path[0])] + Tokens(path[1..])
  }

  /** A printed path without its leading slash. */
  function Body(path: seq<Step>): string
    requires path != []
  {
    Token(path[0]) + Print(path[1..])
  }

  lemma PrintIsSlashBody(path: seq<Step>)
    requires path != []
    ensures Print(path) == ['/'] + Body(path)
  {
    var token, rest := Token(path[0]), Print(path[1..]);
    assert ("/" + token) + rest == "/" + (token + rest);
  }

  lemma {:induction false} BodySplits(path: seq<Step>)
    requires path != []
    ensures Split(Body(path), '/') == Tokens(path)
  {
    var token := Token(path[0]);
    TokenReadsBack(path[0]);
    if |path| == 1 {
      assert path[1..] == [];
      assert Body(path) == token;
      SplitJoined(token, "", '/');
    } else {
      var tail := path[1..];
      BodySplits(tail);
      PrintIsSlashBody(tail);
      assert Body(path) == token + ['/'] + Body(tail);
      SplitJoined(token, Body(tail), '/');
    }
  }

  lemma {:induction false} WalkFollowsPath(value: Json, path: seq<Step>)
    requires NodeAt(value, path).Some?
    ensures Walk(value, Tokens(path)) == Ok(NodeAt(value, path).value)
  {
    if path != [] {
      TokenReadsBack(path[0]);
      var next := match path[0] case Key(name) => value.fields[name] case Index(i) => value.items[i];
      WalkFollowsPath(next, path[1..]);
      assert Tokens(path)[1..] == Tokens(path[1..]);
    }
  }

  /** Printing any path into any tree and evaluating the pointer yields the node at that path. */
  lemma PointerRoundTrip(value: Json, path: seq<Step>)
    requires NodeAt(value, path).Some?
    ensures Evaluate(value, Print(path)) == Ok(NodeAt(value, path).value)
  {
    if path != [] {
      PrintIsSlashBody(path);
      BodySplits(path);
      assert Print(path)[1..] == Body(path);
      WalkFollowsPath(value, path);
    }
  }

  // ---------------------------------------------------------------- paths that lead nowhere

  /** Somewhere along the path there is no key of that name, no item of that index, or nothing to step into. */
  ghost predicate Misses(value: Json, path: seq<Step>) {
    path != [] &&
    match (value, path[0])
    case (Obj(fields), Key(name)) => name in fields ==> Misses(fields[name], path[1..])
    case (Arr(items), Index(i)) => i < |items| ==> Misses(items[i], path[1..])
    case (Obj(_), Index(_)) => false
    case (Arr(_), Key(_)) => false
    case _ => true
  }

  /** What is missing, at the first place where something is. */
  ghost function Missing(value: Json, path: seq<Step>): PointerError
    requires Misses(value, path)
  {
    match (value, path[0])
    case (Obj(fields), Key(name)) => if name in fields then Missing(fields[name], path[1..]) else KeyMissing
    case (Arr(items), Index(i)) => if i < |items| then Missing(items[i], path[1..]) else IndexOutOfRange
    case _ => NotAContainer
  }

  lemma {:induction false} WalkMisses(value: Json, path: seq<Step>)
    requires Misses(value, path)
    ensures Walk(value, Tokens(path)) == Err(Missing(value, path))
  {
    TokenReadsBack(path[0]);
    assert Tokens(path)[1..] == Tokens(path[1..]);
    match (value, path[0]) {
      case (Obj(fields), Key(name)) => if name in fields { WalkMisses(fields[name], path[1..]); }
      case (Arr(items), Index(i)) => if i < |items| { WalkMisses(items[i], path[1..]); }
      case _ =>
    }
  }

  /** Printing a path that leads nowhere and evaluating the pointer fails, for what is missing first. */
  lemma PointerMisses(value: Json, path: seq<Step>)
    requires Misses(value, path)
    ensures Evaluate(value, Print(path)) == Err(Missing(value, path))
  {
    PrintIsSlashBody(path);
    BodySplits(path);
    assert Print(path)[1..] == Body(path);
    WalkMisses(value, path);
  }

  /** A negative index counts from the end of an array, as the source's lists do; a token that is no number fails. */
  lemma NegativeIndex(items: seq<Json>, k: nat)
    requires k > 0
    ensures Descend(Arr(items), "-" + Decimal(k)) ==
              if k <= |items| then Ok(items[|items| - k]) else Err(IndexOutOfRange)
  {
    DecimalRoundTrip(k);
    assert ("-" + Decimal(k))[1..] == Decimal(k);
  }
}
