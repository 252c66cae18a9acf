/** Decimal numerals and character-level string helpers. */
module Text {
  import opened Common

  function Digit(d: nat): (c: char)
    requires d < 10
    ensures '0' <= c <= '9'
  {
    (('0' as int) + d) as char
  }

  predicate IsDigit(c: char) {
    '0' <= c <= '9'
  }

  function DigitValue(c: char): (d: nat)
    requires IsDigit(c)
    ensures d < 10 && Digit(d) == c
  {
    (c as int) - ('0' as int)
  }

  function Decimal(n: nat): (s: string)
    ensures s != [] && forall i | 0 <= i < |s| :: IsDigit(s[i])
  {
    if n < 10 then [Digit(n)] else Decimal(n / 10) + [Digit(n % 10)]
  }

  /** The number a non-empty string of digits denotes; leading zeros are accepted. */
  function ParseDigits(s: string): Option<nat> {
    if s == [] || !IsDigit(s[|s| - 1]) then None
    else if |s| == 1 then Some(DigitValue(s[0]))
    else match ParseDigits(s[..|s| - 1])
      case None => None
      case Some(high) => Some(10 * high + DigitValue(s[|s| - 1]))
  }

  lemma DecimalsDiffer(i: nat, j: nat)
    requires Decimal(i) == Decimal(j)
    ensures i == j
  {
    DecimalRoundTrip(i);
    DecimalRoundTrip(j);
  }

  lemma {:induction false} DecimalRoundTrip(n: nat)
    ensures ParseDigits(Decimal(n)) == Some(n)
  {
    if n >= 10 {
      DecimalRoundTrip(n / 10);
      assert Decimal(n)[..|Decimal(n)| - 1] == Decimal(n / 10);
    }
  }

  /** At least three digits, padded with zeros on the left. */
  function Padded(n: nat): (s: string)
    ensures |s| >= 3 && (n < 1000 ==> |s| == 3) && (n >= 1000 ==> s == Decimal(n))
  {
    assert n < 10 ==> |Decimal(n)| == 1;
    assert 10 <= n < 100 ==> |Decimal(n)| == 2;
    assert 100 <= n ==> |Decimal(n / 10)| >= 2 && (n < 1000 ==> |Decimal(n / 10)| == 2);
    if n < 10 then "00" + Decimal(n) else if n < 100 then "0" + Decimal(n) else Decimal(n)
  }

  lemma LeadingZero(s: string)
    requires s != []
    ensures ParseDigits("0" + s) == ParseDigits(s)
    decreases |s|
  {
    var z := "0" + s;
    if |s| > 1 {
      LeadingZero(s[..|s| - 1]);
      assert z[..|z| - 1] == "0" + s[..|s| - 1];
    } else {
      assert z[..1] == "0";
      assert ParseDigits(z[..1]) == Some(0);
    }
  }

  lemma PaddedRoundTrip(n: nat)
    ensures ParseDigits(Padded(n)) == Some(n)
    ensures forall i | 0 <= i < |Padded(n)| :: IsDigit(Padded(n)[i])
  {
    DecimalRoundTrip(n);
    LeadingZero(Decimal(n));
    LeadingZero("0" + Decimal(n));
    assert "00" + Decimal(n) == "0" + ("0" + Decimal(n));
  }

  /** Capital letters give way to small ones, and nothing else changes. */
  function Lower(text: string): (r: string)
    ensures |r| == |text|
  {
    seq(|text|, i requires 0 <= i < |text| =>
      if 'A' <= text[i] <= 'Z' then text[i] - 'A' + 'a' else text[i])
  }

  /** The part of a path after its last slash. */
  function BaseName(path: string): string {
    if path == [] || path[|path| - 1] == '/' then []
    else BaseName(path[..|path| - 1]) + [path[|path| - 1]]
  }

  lemma LowerIs(text: string, i: nat)
    requires i < |text|
    ensures !('A' <= Lower(text)[i] <= 'Z')
    ensures Lower(text)[i] == text[i]
            || ('A' <= text[i] <= 'Z' && Lower(text)[i] as int - text[i] as int == 'a' as int - 'A' as int)
  {
  }

  lemma {:induction false} BaseNameIs(path: string)
    ensures var r := BaseName(path);
            && |r| <= |path| && path[|path| - |r|..] == r && '/' !in r
            && (|r| < |path| ==> path[|path| - |r| - 1] == '/')
  {
    if path != [] && path[|path| - 1] != '/' { BaseNameIs(path[..|path| - 1]); }
  }

  /** Splits at every separator; n separators give n + 1 pieces. */
  function Split(s: string, separator: char): (pieces: seq<string>)
    ensures pieces != []
  {
    if s == [] then [[]]
    else
      var rest := Split(s[1..], separator);
      if s[0] == separator then [[]] + rest
      else [[s[0]] + rest[0]] + rest[1..]
  }

  lemma SplitJoined(piece: string, rest: string, separator: char)
    requires separator !in piece
    ensures Split(piece, separator) == [piece]
    ensures Split(piece + [separator] + rest, separator) == [piece] + Split(rest, separator)
  {
    if piece == [] {
      assert piece + [separator] + rest == [separator] + rest;
      assert ([separator] + rest)[1..] == rest;
    } else {
      SplitJoined(piece[1..], rest, separator);
      var whole := piece + [separator] + rest;
      assert whole[1..] == piece[1..] + [separator] + rest;
      assert whole[0] == piece[0] && piece[0] in piece;
      assert [piece[0]] + piece[1..] == piece;
    }
  }

  /** The text stands here as a whole piece. */
  predicate IsPiece(s: string, separator: char, piece: string, i: nat) {
    && i + |piece| <= |s| && s[i..i + |piece|] == piece
    && (i == 0 || s[i - 1] == separator) && (i + |piece| == |s| || s[i + |piece|] == separator)
  }

  /** Splitting gives exactly the whole pieces. */
  lemma InSplit(s: string, piece: string, separator: char)
    requires separator !in piece
    ensures piece in Split(s, separator) <==> exists i: nat :: IsPiece(s, separator, piece, i)
  {
    hide IsPiece;
    FirstAndRest(s, piece, separator);
    var pieces := Split(s, separator);
    assert pieces == [pieces[0]] + pieces[1..];
  }

  lemma {:induction false} FirstAndRest(s: string, piece: string, separator: char)
    requires separator !in piece
    ensures Split(s, separator)[0] == piece <==> IsPiece(s, separator, piece, 0)
    ensures piece in Split(s, separator)[1..] <==> exists i: nat | i > 0 :: IsPiece(s, separator, piece, i)
  {
    if s != [] {
      var rest := s[1..];
      var pieces := Split(rest, separator);
      FirstAndRest(rest, piece, separator);
      forall i: nat ensures IsPiece(s, separator, piece, i + 1) <==> IsPiece(rest, separator, piece, i) && (i == 0 ==> s[0] == separator) {
        PieceAfter(s, piece, separator, i);
      }
      assert pieces == [pieces[0]] + pieces[1..];
      PieceAtStart(s, piece, separator);
      if s[0] != separator && piece != [] { FirstAndRest(rest, piece[1..], separator); }
      hide IsPiece;
      assert Split(s, separator)[1..] == if s[0] == separator then pieces else pieces[1..];
      if i: nat :| i > 0 && IsPiece(s, separator, piece, i) {
        assert IsPiece(s, separator, piece, (i - 1) + 1);
        assert IsPiece(rest, separator, piece, i - 1);
      }
      if piece in Split(s, separator)[1..] {
        var i: nat :| IsPiece(rest, separator, piece, i) && (i == 0 ==> s[0] == separator);
        assert IsPiece(s, separator, piece, i + 1);
      }
    }
  }

  lemma PieceAfter(s: string, piece: string, separator: char, i: nat)
    requires s != []
    ensures IsPiece(s, separator, piece, i + 1) <==> IsPiece(s[1..], separator, piece, i) && (i == 0 ==> s[0] == separator)
  {
    if i + 1 + |piece| <= |s| { assert s[1..][i..i + |piece|] == s[i + 1..i + 1 + |piece|]; }
  }

  lemma PieceAtStart(s: string, piece: string, separator: char)
    requires s != [] && separator !in piece
    ensures s[0] == separator ==> (IsPiece(s, separator, piece, 0) <==> piece == [])
    ensures s[0] != separator ==>
              (IsPiece(s, separator, piece, 0) <==> piece != [] && piece[0] == s[0] && IsPiece(s[1..], separator, piece[1..], 0))
  {
    if piece != [] && |piece| <= |s| {
      assert s[..|piece|] == [s[0]] + s[1..][..|piece| - 1];
      assert piece == [piece[0]] + piece[1..];
      assert piece[0] in piece;
    }
  }
}
