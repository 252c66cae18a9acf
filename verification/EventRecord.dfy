/** The record encoding of the event log: one JSON object on one line. */
module EventRecord {
  import opened Common
  import opened Text

  /** An event; every field but these two is left out, for all are serialised alike. */
  datatype Event = Event(sequence: nat, message: string)

  // ---------------------------------------------------------------- strings

  function HexDigit(d: nat): (c: char)
    requires d < 16
    ensures c !in {'"', '\\'} && ' ' <= c && !Separator(c)
  {
    if d < 10 then Digit(d) else (('a' as int) + (d - 10)) as char
  }

  function HexValue(c: char): Option<nat> {
    if IsDigit(c) then Some(DigitValue(c))
    else if 'a' <= c <= 'f' then Some((c as int) - ('a' as int) + 10)
    else None
  }

  /** Quotes, backslashes and control characters are escaped; everything else stands for itself. */
  function EscapeChar(c: char): string {
    if c == '"' then ['\\', '"']
    else if c == '\\' then ['\\', '\\']
    else if c == '\n' then ['\\', 'n']
    else if c == '\r' then ['\\', 'r']
    else if c == '\t' then ['\\', 't']
    else if c == '\U{8}' then ['\\', 'b']
    else if c == '\U{C}' then ['\\', 'f']
    else if c < ' ' then ['\\', 'u', '0', '0', HexDigit((c as int) / 16), HexDigit((c as int) % 16)]
    else [c]
  }

  function EscapeText(s: string): string {
    if s == [] then [] else EscapeChar(s[0]) + EscapeText(s[1..])
  }

  /** One escaped character at the head of the text, and what follows it. */
  function ReadEscape(s: string): Option<(char, string)>
    requires s != [] && s[0] == '\\'
  {
    if |s| < 2 then None
    else if s[1] == '"' then Some(('"', s[2..]))
    else if s[1] == '\\' then Some(('\\', s[2..]))
    else if s[1] == 'n' then Some(('\n', s[2..]))
    else if s[1] == 'r' then Some(('\r', s[2..]))
    else if s[1] == 't' then Some(('\t', s[2..]))
    else if s[1] == 'b' then Some(('\U{8}', s[2..]))
    else if s[1] == 'f' then Some(('\U{C}', s[2..]))
    else if s[1] == 'u' && |s| >= 6 && s[2] == '0' && s[3] == '0' then
      match (HexValue(s[4]), HexValue(s[5]))
      case (Some(high), Some(low)) => Some(((16 * high + low) as char, s[6..]))
      case _ => None
    else None
  }

  /** The text up to the closing quote, and what follows it. */
  function ReadText(s: string): (r: Option<(string, string)>)
    decreases |s|
  {
    if s == [] || s[0] < ' ' then None
    else if s[0] == '"' then Some(("", s[1..]))
    else if s[0] == '\\' then
      match ReadEscape(s)
      case None => None
      case Some((c, rest)) =>
        (match ReadText(rest)
         case None => None
         case Some((more, after)) => Some(([c] + more, after)))
    else
      match ReadText(s[1..])
      case None => None
      case Some((more, after)) => Some(([s[0]] + more, after))
  }

  lemma HexRoundTrip(d: nat)
    requires d < 16
    ensures HexValue(HexDigit(d)) == Some(d)
  {
  }

  /** A character that stands for itself. */
  predicate Literal(c: char) {
    c != '"' && c != '\\' && c >= ' '
  }

  lemma ReadHex(c: char, rest: string)
    requires c < ' '
    ensures ReadEscape(['\\', 'u', '0', '0', HexDigit((c as int) / 16), HexDigit((c as int) % 16)] + rest) == Some((c, rest))
  {
    var high, low := (c as int) / 16, (c as int) % 16;
    var s := ['\\', 'u', '0', '0', HexDigit(high), HexDigit(low)] + rest;
    HexRoundTrip(high);
    HexRoundTrip(low);
    assert 16 * high + low == c as int;
    assert s[6..] == rest;
  }

  lemma ReadEscapedChar(c: char, rest: string)
    ensures Literal(c) ==> EscapeChar(c) == [c]
    ensures !Literal(c) ==>
              var s := EscapeChar(c) + rest; s != [] && s[0] == '\\' && ReadEscape(s) == Some((c, rest))
  {
    var s := EscapeChar(c) + rest;
    if !Literal(c) {
      ReadHexIfNeeded(c, rest);
      if |EscapeChar(c)| == 2 { assert s[2..] == rest; }
    }
  }

  lemma ReadHexIfNeeded(c: char, rest: string)
    ensures c < ' ' ==>
      ReadEscape(['\\', 'u', '0', '0', HexDigit((c as int) / 16), HexDigit((c as int) % 16)] + rest) == Some((c, rest))
  {
    if c < ' ' { ReadHex(c, rest); }
  }

  /** Reading an escaped text up to its quote gives the text back, whatever follows. */
  lemma {:induction false} ReadEscapedText(s: string, rest: string)
    ensures ReadText(EscapeText(s) + "\"" + rest) == Some((s, rest))
  {
    if s == [] {
      assert EscapeText(s) + "\"" + rest == "\"" + rest;
      assert ("\"" + rest)[1..] == rest;
    } else {
      assert [s[0]] + s[1..] == s;
      var tail := EscapeText(s[1..]) + "\"" + rest;
      ReadEscapedText(s[1..], rest);
      ReadEscapedChar(s[0], tail);
      assert EscapeText(s) + "\"" + rest == EscapeChar(s[0]) + tail;
      if Literal(s[0]) { assert (EscapeChar(s[0]) + tail)[1..] == tail; }
    }
  }

  // ---------------------------------------------------------------- records

  const HEAD: string := "{\"sequence\":"
  const MIDDLE: string := ",\"message\":\""
  const TAIL: string := "\"}"

  function Encode(e: Event): string {
    HEAD + (Decimal(e.sequence) + (MIDDLE + (EscapeText(e.message) + TAIL)))
  }

  /** The digits at the head of the text. */
  function Digits(s: string): (n: nat)
    ensures n <= |s| && forall i | 0 <= i < n :: IsDigit(s[i])
    ensures n < |s| ==> !IsDigit(s[n])
  {
    if s == [] || !IsDigit(s[0]) then 0 else 1 + Digits(s[1..])
  }

  predicate StartsWith(s: string, prefix: string) {
    |prefix| <= |s| && s[..|prefix|] == prefix
  }

  /** Reads one whole record; anything else is no event. */
  function Decode(line: string): Option<Event> {
    if !StartsWith(line, HEAD) then None
    else
      var s := line[|HEAD|..];
      var n := Digits(s);
      match ParseDigits(s[..n])
      case None => None
      case Some(sequence) =>
        var t := s[n..];
        if !StartsWith(t, MIDDLE) then None
        else
          match ReadText(t[|MIDDLE|..])
          case Some((message, "}")) => Some(Event(sequence, message))
          case _ => None
  }

  lemma DigitsOf(a: string, b: string)
    requires forall i | 0 <= i < |a| :: IsDigit(a[i])
    requires b == [] || !IsDigit(b[0])
    ensures Digits(a + b) == |a|
  {
    if a != [] {
      DigitsOf(a[1..], b);
      assert (a + b)[1..] == a[1..] + b;
    }
  }

  lemma Drops(a: string, b: string)
    ensures StartsWith(a + b, a) && (a + b)[|a|..] == b
  {
  }

  lemma DecodeEncoded(e: Event)
    ensures Decode(Encode(e)) == Some(e)
  {
    var body := EscapeText(e.message) + TAIL;
    var t := MIDDLE + body;
    var s := Decimal(e.sequence) + t;
    Drops(HEAD, s);
    DecimalRoundTrip(e.sequence);
    assert t[0] == ',';
    DigitsOf(Decimal(e.sequence), t);
    assert s[..|Decimal(e.sequence)|] == Decimal(e.sequence);
    Drops(Decimal(e.sequence), t);
    Drops(MIDDLE, body);
    ReadEscapedText(e.message, "}");
    assert body == EscapeText(e.message) + "\"" + "}";
  }

  // ---------------------------------------------------------------- one record, one line

  /** Where reading the log back splits lines. */
  predicate Separator(c: char) {
    c in {'\n', '\r', '\U{B}', '\U{C}', '\U{1C}', '\U{1D}', '\U{1E}', '\U{85}', '\U{2028}', '\U{2029}'}
  }

  /** A text with none of the three separators that serialisation does not escape. */
  predicate Plain(message: string) {
    forall i | 0 <= i < |message| :: message[i] !in {'\U{85}', '\U{2028}', '\U{2029}'}
  }

  predicate OneLine(s: string) {
    forall i | 0 <= i < |s| :: !Separator(s[i])
  }

  lemma OneLineAppend(a: string, b: string)
    requires OneLine(a) && OneLine(b)
    ensures OneLine(a + b)
  {
  }

  lemma {:induction false} EscapedIsOneLine(s: string)
    requires Plain(s)
    ensures OneLine(EscapeText(s))
  {
    if s != [] {
      assert Plain(s[1..]) by { assert forall i | 0 <= i < |s| - 1 :: s[1..][i] == s[i + 1]; }
      EscapedIsOneLine(s[1..]);
      assert OneLine(EscapeChar(s[0]));
      OneLineAppend(EscapeChar(s[0]), EscapeText(s[1..]));
    }
  }

  /** A plain event is written on one line. */
  lemma EncodedIsOneLine(e: Event)
    requires Plain(e.message)
    ensures OneLine(Encode(e)) && Encode(e) != []
  {
    EscapedIsOneLine(e.message);
    OneLineAppend(EscapeText(e.message), TAIL);
    OneLineAppend(MIDDLE, EscapeText(e.message) + TAIL);
    OneLineAppend(Decimal(e.sequence), MIDDLE + (EscapeText(e.message) + TAIL));
    OneLineAppend(HEAD, Decimal(e.sequence) + (MIDDLE + (EscapeText(e.message) + TAIL)));
  }

  // ---------------------------------------------------------------- complete objects

  /** The scanner's state: how many objects are open, whether a string is, whether a backslash was just read. */
  datatype Scan = Scan(depth: int, quoted: bool, escaped: bool)

  function ScanChar(s: Scan, c: char): Scan {
    if s.quoted then
      if s.escaped then s.(escaped := false)
      else if c == '\\' then s.(escaped := true)
      else if c == '"' then s.(quoted := false)
      else s
    else if c == '"' then s.(quoted := true)
    else if c == '{' then s.(depth := s.depth + 1)
    else if c == '}' then s.(depth := s.depth - 1)
    else s
  }

  function ScanText(s: Scan, text: string): Scan
    decreases |text|
  {
    if text == [] then s else ScanText(ScanChar(s, text[0]), text[1..])
  }

  const START: Scan := Scan(0, false, false)

  /** Every valid JSON object is closed by its last character. */
  predicate Complete(text: string) {
    text != [] && text[0] == '{' && ScanText(START, text) == START
  }

  /** An object stays open through the whole text. */
  ghost predicate StaysOpen(s: Scan, text: string) {
    forall n | 0 <= n <= |text| :: ScanText(s, text[..n]).depth == 1
  }

  lemma {:induction false} ScanAppend(s: Scan, a: string, b: string)
    ensures ScanText(s, a + b) == ScanText(ScanText(s, a), b)
    decreases |a|
  {
    if a == [] {
      assert a + b == b;
    } else {
      ScanAppend(ScanChar(s, a[0]), a[1..], b);
      assert (a + b)[1..] == a[1..] + b;
    }
  }

  lemma StaysOpenAppend(s: Scan, a: string, b: string)
    requires StaysOpen(s, a) && StaysOpen(ScanText(s, a), b)
    ensures StaysOpen(s, a + b)
  {
    forall n | 0 <= n <= |a + b| ensures ScanText(s, (a + b)[..n]).depth == 1 {
      if n <= |a| {
        assert (a + b)[..n] == a[..n];
      } else {
        assert (a + b)[..n] == a + b[..n - |a|];
        ScanAppend(s, a, b[..n - |a|]);
      }
    }
  }

  const INSIDE: Scan := Scan(1, true, false)
  const OUTSIDE: Scan := Scan(1, false, false)

  lemma {:induction false} DigitsStayOpen(s: string)
    requires forall i | 0 <= i < |s| :: IsDigit(s[i])
    ensures StaysOpen(OUTSIDE, s) && ScanText(OUTSIDE, s) == OUTSIDE
  {
    if s != [] {
      DigitsStayOpen(s[1..]);
      forall n | 0 <= n <= |s| ensures ScanText(OUTSIDE, s[..n]).depth == 1 {
        if n > 0 { assert s[..n][1..] == s[1..][..n - 1]; }
      }
    }
  }

  /** Scanning the text from here keeps the object open and ends there. */
  ghost predicate Crosses(from: Scan, text: string, to: Scan) {
    StaysOpen(from, text) && ScanText(from, text) == to
  }

  lemma CrossesThen(from: Scan, a: string, mid: Scan, b: string, to: Scan)
    requires Crosses(from, a, mid) && Crosses(mid, b, to)
    ensures Crosses(from, a + b, to)
  {
    StaysOpenAppend(from, a, b);
    ScanAppend(from, a, b);
  }

  lemma CrossesChar(from: Scan, c: char)
    requires from.depth == 1 && ScanChar(from, c).depth == 1
    ensures Crosses(from, [c], ScanChar(from, c))
  {
    assert [c][1..] == [];
    forall n | 0 <= n <= 1 ensures ScanText(from, [c][..n]).depth == 1 {
      if n == 1 { assert [c][..n] == [c]; }
    }
  }

  /** Inside a string, characters that neither quote nor escape change nothing. */
  lemma {:induction false} CrossesLiteral(text: string)
    requires '"' !in text && '\\' !in text
    ensures Crosses(INSIDE, text, INSIDE)
  {
    if text == [] {
      assert text[..0] == [];
    } else {
      CrossesChar(INSIDE, text[0]);
      CrossesLiteral(text[1..]);
      CrossesThen(INSIDE, [text[0]], INSIDE, text[1..], INSIDE);
      assert [text[0]] + text[1..] == text;
    }
  }

  lemma CrossesEscape(c: char)
    ensures Crosses(INSIDE, EscapeChar(c), INSIDE)
  {
    var s := EscapeChar(c);
    if |s| == 1 {
      CrossesLiteral(s);
    } else {
      var escaping := INSIDE.(escaped := true);
      CrossesChar(INSIDE, s[0]);
      CrossesChar(escaping, s[1]);
      CrossesThen(INSIDE, [s[0]], escaping, [s[1]], INSIDE);
      CrossesLiteral(s[2..]);
      CrossesThen(INSIDE, [s[0]] + [s[1]], INSIDE, s[2..], INSIDE);
      assert [s[0]] + [s[1]] + s[2..] == s;
    }
  }

  /** However a text is escaped, it never closes its own string. */
  lemma {:induction false} CrossesEscaped(text: string)
    ensures Crosses(INSIDE, EscapeText(text), INSIDE)
  {
    if text == [] {
      CrossesLiteral([]);
    } else {
      CrossesEscape(text[0]);
      CrossesEscaped(text[1..]);
      CrossesThen(INSIDE, EscapeChar(text[0]), INSIDE, EscapeText(text[1..]), INSIDE);
    }
  }

  lemma CrossesName(name: string)
    requires '"' !in name && '\\' !in name
    ensures Crosses(OUTSIDE, "\"" + name + "\"", OUTSIDE)
  {
    CrossesChar(OUTSIDE, '"');
    CrossesLiteral(name);
    CrossesChar(INSIDE, '"');
    CrossesThen(OUTSIDE, "\"", INSIDE, name, INSIDE);
    CrossesThen(OUTSIDE, "\"" + name, INSIDE, "\"", OUTSIDE);
  }

  lemma CrossesHead()
    ensures Crosses(OUTSIDE, HEAD[1..], OUTSIDE)
  {
    CrossesName("sequence");
    CrossesChar(OUTSIDE, ':');
    CrossesThen(OUTSIDE, "\"" + "sequence" + "\"", OUTSIDE, ":", OUTSIDE);
    assert "\"" + "sequence" + "\"" + ":" == HEAD[1..];
  }

  lemma CrossesMiddle()
    ensures Crosses(OUTSIDE, MIDDLE, INSIDE)
  {
    var name := "\"" + "message" + "\"";
    CrossesChar(OUTSIDE, ',');
    CrossesName("message");
    CrossesThen(OUTSIDE, ",", OUTSIDE, name, OUTSIDE);
    CrossesChar(OUTSIDE, ':');
    CrossesThen(OUTSIDE, "," + name, OUTSIDE, ":", OUTSIDE);
    CrossesChar(OUTSIDE, '"');
    CrossesThen(OUTSIDE, "," + name + ":", OUTSIDE, "\"", INSIDE);
    assert "," + name + ":" + "\"" == MIDDLE;
  }

  /** A record without its outer braces. */
  function Interior(e: Event): string {
    HEAD[1..] + (Decimal(e.sequence) + (MIDDLE + (EscapeText(e.message) + "\"")))
  }

  lemma CrossesInterior(e: Event)
    ensures Crosses(OUTSIDE, Interior(e), OUTSIDE) && Encode(e) == "{" + Interior(e) + "}"
  {
    hide Crosses, EscapeText, Decimal;
    CrossesChar(INSIDE, '"');
    CrossesEscaped(e.message);
    CrossesThen(INSIDE, EscapeText(e.message), INSIDE, "\"", OUTSIDE);
    CrossesMiddle();
    CrossesThen(OUTSIDE, MIDDLE, INSIDE, EscapeText(e.message) + "\"", OUTSIDE);
    DigitsStayOpen(Decimal(e.sequence));
    CrossesThen(OUTSIDE, Decimal(e.sequence), OUTSIDE, MIDDLE + (EscapeText(e.message) + "\""), OUTSIDE);
    CrossesHead();
    CrossesThen(OUTSIDE, HEAD[1..], OUTSIDE, Decimal(e.sequence) + (MIDDLE + (EscapeText(e.message) + "\"")), OUTSIDE);
    assert "{" + HEAD[1..] == HEAD;
    assert "\"" + "}" == TAIL;
    Reassociate(HEAD[1..], Decimal(e.sequence), MIDDLE, EscapeText(e.message));
  }

  lemma Reassociate(a: string, b: string, c: string, d: string)
    ensures "{" + (a + (b + (c + (d + "\"")))) + "}" == ("{" + a) + (b + (c + (d + ("\"" + "}"))))
  {
  }

  /** No proper prefix of a record is a complete object, and the record is: a torn record never reads as whole. */
  lemma PrefixFree(e: Event, n: nat)
    requires n <= |Encode(e)|
    ensures Complete(Encode(e)[..n]) <==> n == |Encode(e)|
  {
    var record, inner := Encode(e), Interior(e);
    CrossesInterior(e);
    if 0 < n < |record| {
      var torn := record[..n];
      assert torn[0] == '{' && torn[1..] == inner[..n - 1];
      assert ScanText(START, torn) == ScanText(OUTSIDE, inner[..n - 1]);
    } else if n == |record| {
      assert record[..n] == record;
      assert record[1..] == inner + "}";
      ScanAppend(OUTSIDE, inner, "}");
      assert "}"[1..] == [];
    }
  }
}
