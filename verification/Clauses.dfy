/** Cutting a request into clauses, each with the exact span of the request it came from. */
module Clauses {
  import opened Common
  import opened Text
  import EventRecord

  /** Which characters count as white space. */
  type Spaces = char -> bool

  /** The stretches of a line between sentence boundaries, in order. */
  type Sentences = string -> seq<(nat, nat)>

  /** Any boundary rule gives ordered, disjoint stretches of the text. */
  ghost predicate Cuts(sentences: Sentences) {
    forall s: string :: Stretches(sentences(s), |s|)
  }

  datatype Clause = Clause(text: string, line: nat, start: nat, end: nat, listed: bool)

  // ---------------------------------------------------------------- white space

  function Leading(s: string, space: Spaces): (n: nat)
    ensures n <= |s|
    ensures n < |s| ==> !space(s[n])
    ensures forall i | 0 <= i < n :: space(s[i])
  {
    if s == [] || !space(s[0]) then 0 else 1 + Leading(s[1..], space)
  }

  lemma LeadingIs(s: string, space: Spaces, n: nat)
    requires n <= |s| && (forall i | 0 <= i < n :: space(s[i])) && (n < |s| ==> !space(s[n]))
    ensures Leading(s, space) == n
  {
  }

  function StripRight(s: string, space: Spaces): (r: string)
    ensures r <= s
    ensures r != [] ==> !space(r[|r| - 1])
    ensures forall i | |r| <= i < |s| :: space(s[i])
  {
    if s == [] || !space(s[|s| - 1]) then s else StripRight(s[..|s| - 1], space)
  }

  function Strip(s: string, space: Spaces): (r: string)
    ensures r != [] ==> !space(r[0]) && !space(r[|r| - 1])
    ensures Leading(s, space) + |r| <= |s| && r == s[Leading(s, space)..Leading(s, space) + |r|]
  {
    StripRight(s[Leading(s, space)..], space)
  }

  /** Nothing but white space is stripped. */
  lemma StripIsMaximal(s: string, space: Spaces, i: nat)
    requires i < |s| && !(Leading(s, space) <= i < Leading(s, space) + |Strip(s, space)|)
    ensures space(s[i])
  {
    var lead := Leading(s, space);
    if i >= lead { assert s[lead..][i - lead] == s[i]; }
  }

  // ---------------------------------------------------------------- lines

  /** The length of the first line, its line ending included. */
  function LineLength(s: string): (n: nat)
    requires s != []
    ensures 1 <= n <= |s|
  {
    if EventRecord.Separator(s[0]) then if s[0] == '\r' && |s| > 1 && s[1] == '\n' then 2 else 1
    else if |s| == 1 then 1
    else 1 + LineLength(s[1..])
  }

  function SplitLines(s: string): seq<string> {
    if s == [] then [] else [s[..LineLength(s)]] + SplitLines(s[LineLength(s)..])
  }

  function Concat(lines: seq<string>): string {
    if lines == [] then [] else lines[0] + Concat(lines[1..])
  }

  lemma {:induction false} LinesConcat(s: string)
    ensures Concat(SplitLines(s)) == s
  {
    if s != [] {
      LinesConcat(s[LineLength(s)..]);
      assert s == s[..LineLength(s)] + s[LineLength(s)..];
    }
  }

  /** A line: it ends with its first separator, carriage return and line feed counting as one. */
  predicate IsLine(line: string) {
    && line != []
    && (forall i | 0 <= i < |line| - 1 :: EventRecord.Separator(line[i]) ==> i == |line| - 2 && CrLf(line))
  }

  predicate CrLf(line: string) {
    |line| >= 2 && line[|line| - 2] == '\r' && line[|line| - 1] == '\n'
  }

  lemma {:induction false} FirstLine(s: string)
    requires s != []
    ensures var n := LineLength(s);
            && IsLine(s[..n]) && (n < |s| ==> EventRecord.Separator(s[n - 1]))
            && !(n < |s| && s[n - 1] == '\r' && s[n] == '\n')
  {
    hide EventRecord.Separator;
    SeparatorsInclude();
    if !EventRecord.Separator(s[0]) && |s| > 1 {
      FirstLine(s[1..]);
      var n := LineLength(s[1..]);
      assert s[..n + 1] == [s[0]] + s[1..][..n];
    }
  }

  lemma SeparatorsInclude()
    ensures EventRecord.Separator('\r') && EventRecord.Separator('\n')
  {
  }

  /** A line that another one follows ends with a separator, and no carriage return is cut off from its line feed. */
  predicate Followed(line: string, next: string) {
    && line != [] && next != [] && EventRecord.Separator(line[|line| - 1])
    && !(line[|line| - 1] == '\r' && next[0] == '\n')
  }

  /** The lines of a text are lines, and every one but the last is followed. */
  lemma {:induction false} LinesAreLines(s: string)
    ensures forall k | 0 <= k < |SplitLines(s)| :: IsLine(SplitLines(s)[k])
    ensures forall k | 0 <= k < |SplitLines(s)| - 1 :: Followed(SplitLines(s)[k], SplitLines(s)[k + 1])
  {
    hide EventRecord.Separator, LineLength, IsLine;
    if s != [] {
      FirstLine(s);
      var n := LineLength(s);
      var rest := s[n..];
      LinesAreLines(rest);
      var lines, more := SplitLines(s), SplitLines(rest);
      assert lines == [s[..n]] + more;
      if rest != [] { assert more[0] == rest[..LineLength(rest)] && more[0][0] == rest[0]; }
      forall k | 0 <= k < |lines| - 1 ensures Followed(lines[k], lines[k + 1]) {
        if k > 0 { assert Followed(more[k - 1], more[k]); }
      }
    }
  }

  /** A line without its carriage returns and line feeds at the end. */
  function Content(line: string): (r: string)
    ensures r <= line
  {
    StripRight(line, c => c == '\r' || c == '\n')
  }

  // ---------------------------------------------------------------- list markers

  function DigitRun(s: string): (n: nat)
    ensures n <= |s| && (n < |s| ==> !IsDigit(s[n])) && forall i | 0 <= i < n :: IsDigit(s[i])
  {
    if s == [] || !IsDigit(s[0]) then 0 else 1 + DigitRun(s[1..])
  }

  function MarkerHead(line: string): (n: nat)
    ensures n <= |line|
  {
    if line == [] then 0
    else if line[0] == '-' || line[0] == '*' then 1
    else
      var d := DigitRun(line);
      if 0 < d < |line| && (line[d] == '.' || line[d] == ')') then d + 1 else 0
  }

  /** The head of a list marker: a dash, a star, or digits and then a dot or a parenthesis. */
  predicate IsHead(head: string) {
    || head == "-" || head == "*"
    || (|head| >= 2 && (forall i | 0 <= i < |head| - 1 :: IsDigit(head[i])) && (head[|head| - 1] == '.' || head[|head| - 1] == ')'))
  }

  /** A line begins with at most one head, and that one is found. */
  lemma MarkerHeadExactly(line: string, n: nat)
    requires 0 < n <= |line|
    ensures MarkerHead(line) == n <==> IsHead(line[..n])
  {
    if IsHead(line[..n]) && line[0] != '-' && line[0] != '*' {
      assert forall i | 0 <= i < n - 1 :: IsDigit(line[..n][i]) && line[i] == line[..n][i];
      assert line[n - 1] == line[..n][n - 1];
    }
  }

  /** A list item is a head, at least one character of white space, and what follows all of it. */
  lemma MarkerExactly(line: string, space: Spaces, n: nat)
    requires 0 < n <= |line|
    ensures MarkerLength(line, space) == n <==>
              exists h: nat | 0 < h < n ::
                && IsHead(line[..h]) && (forall i | h <= i < n :: space(line[i])) && (n < |line| ==> !space(line[n]))
  {
    hide IsHead, MarkerHead;
    forall h: nat | 0 < h < n ensures MarkerHead(line) == h <==> IsHead(line[..h]) { MarkerHeadExactly(line, h); }
    var head := MarkerHead(line);
    var gap := Leading(line[head..], space);
    assert forall i | head <= i < |line| :: line[i] == line[head..][i - head];
    if h: nat :| 0 < h < n && IsHead(line[..h]) && (forall i | h <= i < n :: space(line[i])) && (n < |line| ==> !space(line[n])) {
      assert head == h;
      LeadingIs(line[head..], space, n - h);
    }
    if MarkerLength(line, space) == n {
      assert forall i | head <= i < n :: space(line[i]);
      assert n < |line| ==> line[n] == line[head..][gap] && !space(line[n]);
      assert IsHead(line[..head]);
    }
  }

  /** The length of a list marker and the white space after it, 0 when the line is no list item. */
  function MarkerLength(line: string, space: Spaces): (n: nat)
    ensures n <= |line|
    ensures n > 0 ==> space(line[n - 1])
  {
    var head := MarkerHead(line);
    var gap := Leading(line[head..], space);
    if head == 0 || gap == 0 then 0 else head + gap
  }

  predicate IsListItem(line: string, space: Spaces) {
    MarkerLength(line, space) > 0
  }

  // ---------------------------------------------------------------- segments

  /** The text occurs in the content at the given position. */
  predicate Occurs(content: string, text: string, i: nat) {
    i + |text| <= |content| && content[i..i + |text|] == text
  }

  /** A segment of a line and where it truly stands; the search below never looks at the position. */
  datatype Segment = Segment(text: string, at: nat)

  /** The segments are exact, non-empty, ordered and disjoint. */
  ghost predicate InOrder(segments: seq<Segment>, content: string, from: nat) {
    && (forall i | 0 <= i < |segments| ::
          && segments[i].text != [] && from <= segments[i].at && segments[i].at + |segments[i].text| <= |content|
          && content[segments[i].at..segments[i].at + |segments[i].text|] == segments[i].text)
    && (forall i, j | 0 <= i < j < |segments| :: segments[i].at + |segments[i].text| <= segments[j].at)
  }

  /** Ordered, disjoint stretches of a text of the given length. */
  predicate Stretches(spans: seq<(nat, nat)>, length: nat) {
    && (forall i | 0 <= i < |spans| :: spans[i].0 <= spans[i].1 <= length)
    && (forall i, j | 0 <= i < j < |spans| :: spans[i].1 <= spans[j].0)
  }

  lemma StretchesBefore(spans: seq<(nat, nat)>, length: nat)
    requires Stretches(spans, length) && spans != []
    ensures var (a, b) := spans[|spans| - 1];
            a <= b <= length && Stretches(spans[..|spans| - 1], a)
  {
    var init, last := spans[..|spans| - 1], spans[|spans| - 1];
    forall i | 0 <= i < |init| ensures init[i].1 <= last.0 {
      assert init[i] == spans[i];
    }
  }

  lemma StretchesWithin(spans: seq<(nat, nat)>, length: nat, more: nat)
    requires Stretches(spans, length) && length <= more
    ensures Stretches(spans, more)
  {
  }

  /** The segment a stretch adds: none if it is all white space. */
  function PieceOf(piece: string, at: nat): seq<Segment> {
    if piece == [] then [] else [Segment(piece, at)]
  }

  function PieceAt(text: string, span: (nat, nat), position: nat, space: Spaces): seq<Segment>
    requires span.0 <= span.1 <= |text|
  {
    var stretch := text[span.0..span.1];
    PieceOf(Strip(stretch, space), position + span.0 + Leading(stretch, space))
  }

  /** The stripped, non-empty stretches of a text that itself stands at the given position. */
  function Pieces(text: string, spans: seq<(nat, nat)>, position: nat, space: Spaces): seq<Segment>
    requires Stretches(spans, |text|)
  {
    if spans == [] then []
    else
      StretchesBefore(spans, |text|);
      StretchesWithin(spans[..|spans| - 1], spans[|spans| - 1].0, |text|);
      Pieces(text, spans[..|spans| - 1], position, space) + PieceAt(text, spans[|spans| - 1], position, space)
  }

  /** The whole text of a list item without its marker, or the sentences of any other line. */
  function Segments(content: string, space: Spaces, sentences: Sentences): seq<Segment>
    requires Cuts(sentences)
  {
    var stripped := Strip(content, space);
    if stripped == [] then []
    else
      var m := MarkerLength(stripped, space);
      var text := Strip(stripped[m..], space);
      var position := Leading(content, space) + m + Leading(stripped[m..], space);
      if m > 0 then [Segment(text, position)] else Pieces(text, sentences(text), position, space)
  }

  lemma SliceOfSlice(s: string, a: nat, b: nat, c: nat, d: nat)
    requires a <= b <= |s| && c <= d <= b - a
    ensures s[a..b][c..d] == s[a + c..a + d]
  {
    assert forall k | 0 <= k < d - c :: s[a..b][c..d][k] == s[a + c + k];
  }

  lemma InOrderExtends(segments: seq<Segment>, g: Segment, content: string, limit: nat)
    requires InOrder(segments, content, 0) && EndBy(segments, limit) && limit <= g.at
    requires g.text != [] && g.at + |g.text| <= |content| && content[g.at..g.at + |g.text|] == g.text
    ensures InOrder(segments + [g], content, 0)
  {
  }

  predicate EndBy(segments: seq<Segment>, limit: nat) {
    forall i | 0 <= i < |segments| :: segments[i].at + |segments[i].text| <= limit
  }

  /** A stripped stretch stands where the stretch does, after its leading white space. */
  lemma PieceStands(content: string, text: string, position: nat, a: nat, b: nat, space: Spaces)
    requires Occurs(content, text, position) && a <= b <= |text|
    ensures var at, piece := position + a + Leading(text[a..b], space), Strip(text[a..b], space);
            at + |piece| <= position + b && Occurs(content, piece, at)
  {
    hide Strip, Leading;
    var lead, piece := Leading(text[a..b], space), Strip(text[a..b], space);
    SliceOfSlice(text, a, b, lead, lead + |piece|);
    SliceOfSlice(content, position, position + |text|, a + lead, a + lead + |piece|);
  }

  lemma {:induction false} PiecesInOrder(content: string, text: string, spans: seq<(nat, nat)>, position: nat, space: Spaces,
                                         limit: nat)
    requires Occurs(content, text, position)
    requires Stretches(spans, limit) && limit <= |text|
    requires Stretches(spans, |text|)
    ensures InOrder(Pieces(text, spans, position, space), content, 0)
    ensures EndBy(Pieces(text, spans, position, space), position + limit)
  {
    hide Strip, Leading, InOrder, Stretches, EndBy, Pieces, Occurs;
    if spans == [] {
      NoPieces(text, position, space);
      NoneInOrder(content);
    } else {
      var init, last := spans[..|spans| - 1], spans[|spans| - 1];
      StretchesBefore(spans, limit);
      StretchesWithin(init, last.0, |text|);
      PiecesInOrder(content, text, init, position, space, last.0);
      PieceStands(content, text, position, last.0, last.1, space);
      PiecesNext(text, spans, position, space);
      AddPiece(Pieces(text, init, position, space), content, Strip(text[last.0..last.1], space),
               position + last.0 + Leading(text[last.0..last.1], space), position + last.0, position + limit);
    }
  }

  lemma NoPieces(text: string, position: nat, space: Spaces)
    ensures Stretches([], |text|) && Pieces(text, [], position, space) == []
  {
  }

  lemma PiecesNext(text: string, spans: seq<(nat, nat)>, position: nat, space: Spaces)
    requires Stretches(spans, |text|) && spans != [] && Stretches(spans[..|spans| - 1], |text|)
    requires spans[|spans| - 1].0 <= spans[|spans| - 1].1 <= |text|
    ensures Pieces(text, spans, position, space) ==
              Pieces(text, spans[..|spans| - 1], position, space) + PieceAt(text, spans[|spans| - 1], position, space)
  {
    hide Stretches, PieceAt;
  }

  lemma AddPiece(before: seq<Segment>, content: string, piece: string, at: nat, from: nat, limit: nat)
    requires InOrder(before, content, 0) && EndBy(before, from) && from <= at && at + |piece| <= limit
    requires Occurs(content, piece, at)
    ensures InOrder(before + PieceOf(piece, at), content, 0) && EndBy(before + PieceOf(piece, at), limit)
  {
    if piece == [] {
      assert before + PieceOf(piece, at) == before;
    } else {
      InOrderExtends(before, Segment(piece, at), content, from);
    }
  }

  lemma NoneInOrder(content: string)
    ensures InOrder([], content, 0) && forall limit :: EndBy([], limit)
  {
  }

  lemma OneInOrder(content: string, text: string, at: nat)
    requires text != [] && Occurs(content, text, at)
    ensures InOrder([Segment(text, at)], content, 0)
  {
  }

  /** A text that does not end in white space is not stripped away. */
  lemma StripKeeps(s: string, space: Spaces)
    requires s != [] && !space(s[|s| - 1])
    ensures Strip(s, space) != []
  {
    var lead := Leading(s, space);
    assert lead < |s|;
    assert s[lead..][|s| - lead - 1] == s[|s| - 1];
  }

  /** A list item's marker leaves something. */
  lemma ItemKeeps(stripped: string, space: Spaces)
    requires stripped != [] && !space(stripped[|stripped| - 1]) && MarkerLength(stripped, space) > 0
    ensures Strip(stripped[MarkerLength(stripped, space)..], space) != []
  {
    hide Strip;
    var m := MarkerLength(stripped, space);
    assert m < |stripped|;
    assert stripped[m..][|stripped| - m - 1] == stripped[|stripped| - 1];
    StripKeeps(stripped[m..], space);
  }

  /** The segments of every line are exact, ordered and disjoint; a list item is one segment. */
  lemma SegmentsInOrder(content: string, space: Spaces, sentences: Sentences)
    requires Cuts(sentences)
    ensures InOrder(Segments(content, space, sentences), content, 0)
    ensures Strip(content, space) != [] && IsListItem(Strip(content, space), space) ==>
              |Segments(content, space, sentences)| == 1
  {
    hide Cuts, MarkerLength, InOrder, Strip, Leading, Occurs, Segments;
    var stripped := Strip(content, space);
    if stripped == [] {
      NoSegments(content, space, sentences);
      NoneInOrder(content);
    } else {
      var m := MarkerLength(stripped, space);
      StripStands(content, space);
      PieceStands(content, stripped, Leading(content, space), m, |stripped|, space);
      assert stripped[m..|stripped|] == stripped[m..];
      LineInOrder(content, stripped, space, sentences);
    }
  }

  lemma NoSegments(content: string, space: Spaces, sentences: Sentences)
    requires Cuts(sentences) && Strip(content, space) == []
    ensures Segments(content, space, sentences) == []
  {
  }

  lemma StripStands(content: string, space: Spaces)
    ensures Occurs(content, Strip(content, space), Leading(content, space))
  {
  }

  lemma LineInOrder(content: string, stripped: string, space: Spaces, sentences: Sentences)
    requires Cuts(sentences) && stripped == Strip(content, space) && stripped != []
    requires var rest := stripped[MarkerLength(stripped, space)..];
             Occurs(content, Strip(rest, space), Leading(content, space) + MarkerLength(stripped, space) + Leading(rest, space))
    ensures InOrder(Segments(content, space, sentences), content, 0)
    ensures IsListItem(stripped, space) ==> |Segments(content, space, sentences)| == 1
  {
    hide MarkerLength, InOrder, Pieces, Strip, Leading, Stretches, Occurs;
    var m := MarkerLength(stripped, space);
    var text := Strip(stripped[m..], space);
    var at := Leading(content, space) + m + Leading(stripped[m..], space);
    if m > 0 {
      ItemKeeps(stripped, space);
      OneInOrder(content, text, at);
    } else {
      PiecesInOrder(content, text, sentences(text), at, space, |text|);
    }
  }

  // ---------------------------------------------------------------- finding the segments again

  /** The leftmost occurrence from a position on, or -1. */
  method Find(content: string, text: string, from: nat) returns (r: int)
    requires from <= |content|
    ensures r == -1 || (from <= r && Occurs(content, text, r))
    ensures forall i: nat | from <= i && Occurs(content, text, i) :: 0 <= r <= i
  {
    r := from;
    while r + |text| <= |content|
      invariant from <= r <= |content| + 1
      invariant forall i: nat | from <= i < r :: !Occurs(content, text, i)
    {
      if content[r..r + |text|] == text { return r; }
      r := r + 1;
    }
    return -1;
  }

  /** The clauses so far are exact spans of the request, in order, all before the limit. */
  ghost predicate Exact(clauses: seq<Clause>, request: string, limit: nat) {
    && (forall i | 0 <= i < |clauses| ::
          && clauses[i].start <= clauses[i].end <= |request| && clauses[i].end <= limit && clauses[i].text != []
          && request[clauses[i].start..clauses[i].end] == clauses[i].text)
    && (forall i, j | 0 <= i < j < |clauses| :: clauses[i].end <= clauses[j].start)
  }

  lemma ExactExtends(clauses: seq<Clause>, c: Clause, request: string, limit: nat, more: nat)
    requires Exact(clauses, request, limit) && limit <= c.start <= c.end <= more && c.end <= |request|
    requires c.text != [] && request[c.start..c.end] == c.text
    ensures Exact(clauses + [c], request, more)
  {
  }

  /** The k-th segment's clause: the same text, on this line, no later than the segment's true place. */
  predicate Placed(c: Clause, g: Segment, line: nat, listed: bool, offset: nat) {
    c.text == g.text && c.line == line && c.listed == listed && c.end <= offset + g.at + |g.text|
  }

  /** Where the leftmost search from a position finds a text that truly stands at or after it. */
  method Relative(content: string, g: Segment, from: nat, leading: nat) returns (relative: int)
    requires from <= g.at && Occurs(content, g.text, g.at)
    ensures from <= relative <= g.at && Occurs(content, g.text, relative)
  {
    var found := Find(content, g.text, from);
    assert 0 <= found <= g.at;
    // The fallback of the search is never used.
    relative := found;
    if relative < 0 { relative := leading; }
  }

  /** Places each segment where the leftmost search finds it. The search never fails and never overtakes the
      segment's true place, so the fallback position is never used. */
  method PlaceSegments(content: string, segments: seq<Segment>, leading: nat, offset: nat, line: nat, listed: bool,
                       before: seq<Clause>, ghost request: string)
    returns (clauses: seq<Clause>)
    requires InOrder(segments, content, 0) && Exact(before, request, offset)
    requires offset + |content| <= |request| && request[offset..offset + |content|] == content
    ensures Exact(clauses, request, offset + |content|) && before <= clauses
    ensures |clauses| == |before| + |segments|
    ensures forall k | 0 <= k < |segments| :: Placed(clauses[|before| + k], segments[k], line, listed, offset)
  {
    hide Exact;
    clauses := before;
    var searchFrom: int := 0;
    var k := 0;
    while k < |segments|
      invariant 0 <= k <= |segments| && |clauses| == |before| + k && before <= clauses
      invariant 0 <= searchFrom <= |content| && (k < |segments| ==> searchFrom <= segments[k].at)
      invariant Exact(clauses, request, offset + searchFrom)
      invariant forall j | 0 <= j < k :: Placed(clauses[|before| + j], segments[j], line, listed, offset)
    {
      var g := segments[k];
      var relative := Relative(content, g, searchFrom, leading);
      var c := Clause(g.text, line, offset + relative, offset + relative + |g.text|, listed);
      SliceOfSlice(request, offset, offset + |content|, relative, relative + |g.text|);
      ExactExtends(clauses, c, request, offset + searchFrom, c.end);
      clauses := clauses + [c];
      searchFrom := if relative + |g.text| > searchFrom then relative + |g.text| else searchFrom;
      k := k + 1;
    }
    ExactWeaker(clauses, request, offset + searchFrom, offset + |content|);
  }

  lemma ExactWeaker(clauses: seq<Clause>, request: string, limit: nat, more: nat)
    requires Exact(clauses, request, limit) && limit <= more
    ensures Exact(clauses, request, more)
  {
  }

  // ---------------------------------------------------------------- all lines

  /** A list item's line has a clause of its own, with the item's whole text. */
  ghost predicate ItemCovered(clauses: seq<Clause>, lines: seq<string>, n: nat, space: Spaces)
    requires n < |lines|
  {
    var stripped := Strip(Content(lines[n]), space);
    stripped != [] && IsListItem(stripped, space) ==>
      exists c :: c in clauses && c.listed && c.line == n + 1
                  && c.text == Strip(stripped[MarkerLength(stripped, space)..], space)
  }

  lemma CoveredStill(before: seq<Clause>, after: seq<Clause>, lines: seq<string>, n: nat, space: Spaces)
    requires n < |lines| && before <= after && ItemCovered(before, lines, n, space)
    ensures ItemCovered(after, lines, n, space)
  {
    hide Strip, MarkerLength, Content;
    assert forall c | c in before :: c in after;
  }

  lemma {:induction false} ConcatAt(lines: seq<string>, n: nat)
    requires n < |lines|
    ensures var offset := |Concat(lines[..n])|;
            && offset + |lines[n]| == |Concat(lines[..n + 1])| <= |Concat(lines)|
            && Concat(lines)[offset..offset + |lines[n]|] == lines[n]
  {
    if n == 0 {
      assert lines[..0] == [] && lines[..1] == [lines[0]] && lines[..1][1..] == [];
      assert Concat(lines) == lines[0] + Concat(lines[1..]);
    } else {
      ConcatAt(lines[1..], n - 1);
      assert lines[..n][1..] == lines[1..][..n - 1] && lines[..n + 1][1..] == lines[1..][..n];
      var rest := Concat(lines[1..]);
      var inner := |Concat(lines[1..][..n - 1])|;
      assert Concat(lines) == lines[0] + rest;
      SliceAfter(lines[0], rest, inner, inner + |lines[n]|);
    }
  }

  lemma SliceAfter(a: string, b: string, i: nat, j: nat)
    requires i <= j <= |b|
    ensures (a + b)[|a| + i..|a| + j] == b[i..j]
  {
    var x, y := (a + b)[|a| + i..|a| + j], b[i..j];
    assert |x| == |y| && forall k | 0 <= k < |x| :: x[k] == y[k];
  }

  /** What a clause is, but for its place in its line. */
  datatype Cutting = Cutting(text: string, line: nat, listed: bool)

  function CuttingsOf(clauses: seq<Clause>): (cs: seq<Cutting>)
    ensures |cs| == |clauses|
    ensures forall k | 0 <= k < |cs| :: cs[k] == Cutting(clauses[k].text, clauses[k].line, clauses[k].listed)
  {
    seq(|clauses|, k requires 0 <= k < |clauses| => Cutting(clauses[k].text, clauses[k].line, clauses[k].listed))
  }

  function CuttingsFrom(segments: seq<Segment>, number: nat, listed: bool): (cs: seq<Cutting>)
    ensures |cs| == |segments| && forall k | 0 <= k < |cs| :: cs[k] == Cutting(segments[k].text, number, listed)
  {
    seq(|segments|, k requires 0 <= k < |segments| => Cutting(segments[k].text, number, listed))
  }

  /** The segments of one line. */
  function LineCuttings(line: string, number: nat, space: Spaces, sentences: Sentences): seq<Cutting>
    requires Cuts(sentences)
  {
    CuttingsFrom(Segments(Content(line), space, sentences), number, IsListItem(Strip(Content(line), space), space))
  }

  /** The segments of the first n lines, line by line. */
  function AllCuttings(lines: seq<string>, n: nat, space: Spaces, sentences: Sentences): seq<Cutting>
    requires Cuts(sentences) && n <= |lines|
  {
    if n == 0 then [] else AllCuttings(lines, n - 1, space, sentences) + LineCuttings(lines[n - 1], n, space, sentences)
  }

  lemma CuttingsExtend(before: seq<Clause>, after: seq<Clause>, line: string, number: nat, space: Spaces, sentences: Sentences,
                       offset: nat)
    requires Cuts(sentences) && before <= after
    requires var segments := Segments(Content(line), space, sentences);
             && |after| == |before| + |segments|
             && forall k | 0 <= k < |segments| ::
                  Placed(after[|before| + k], segments[k], number, IsListItem(Strip(Content(line), space), space), offset)
    ensures CuttingsOf(after) == CuttingsOf(before) + LineCuttings(line, number, space, sentences)
  {
    hide Segments, Content, Strip, IsListItem, Cuts;
    var x, y := CuttingsOf(after), CuttingsOf(before) + LineCuttings(line, number, space, sentences);
    forall k | 0 <= k < |x| ensures x[k] == y[k] {
      if k < |before| { assert after[k] == before[k]; } else { assert after[k] == after[|before| + (k - |before|)]; }
    }
  }

  lemma NoCuttings(lines: seq<string>, space: Spaces, sentences: Sentences)
    requires Cuts(sentences)
    ensures CuttingsOf([]) == [] && AllCuttings(lines, 0, space, sentences) == []
  {
  }

  lemma CuttingsNext(lines: seq<string>, n: nat, space: Spaces, sentences: Sentences)
    requires Cuts(sentences) && n < |lines|
    ensures AllCuttings(lines, n + 1, space, sentences)
            == AllCuttings(lines, n, space, sentences) + LineCuttings(lines[n], n + 1, space, sentences)
  {
    hide LineCuttings, Cuts;
  }

  /** The whole request in clauses: every clause is the exact span of the request it names, clauses stand in order and
      never overlap, and they are the segments of the lines, line by line. */
  method ClausesOf(request: string, space: Spaces, sentences: Sentences) returns (clauses: seq<Clause>)
    requires Cuts(sentences)
    ensures Exact(clauses, request, |request|)
    ensures CuttingsOf(clauses) == AllCuttings(SplitLines(request), |SplitLines(request)|, space, sentences)
    ensures forall n | 0 <= n < |SplitLines(request)| :: ItemCovered(clauses, SplitLines(request), n, space)
  {
    hide Exact, Segments, Content, SplitLines, Strip, Leading, MarkerLength, ItemCovered, Cuts, InOrder, Concat, Placed,
         IsListItem, LineCuttings, CuttingsOf, AllCuttings;
    clauses := [];
    NoCuttings(SplitLines(request), space, sentences);
    var lines := SplitLines(request);
    LinesConcat(request);
    NoClauses(request);
    var offset := 0;
    var n := 0;
    while n < |lines|
      invariant 0 <= n <= |lines| && offset == |Concat(lines[..n])|
      invariant Exact(clauses, request, offset)
      invariant CuttingsOf(clauses) == AllCuttings(lines, n, space, sentences)
      invariant forall j | 0 <= j < n :: ItemCovered(clauses, lines, j, space)
    {
      ConcatAt(lines, n);
      var content := Content(lines[n]);
      SliceOfSlice(request, offset, offset + |lines[n]|, 0, |content|);
      var stripped := Strip(content, space);
      SegmentsInOrder(content, space, sentences);
      var segments := Segments(content, space, sentences);
      ghost var before := clauses;
      clauses := PlaceSegments(content, segments, Leading(content, space), offset, n + 1,
                               IsListItem(stripped, space), clauses, request);
      LineCovered(before, clauses, lines, n, space, sentences, offset);
      CuttingsExtend(before, clauses, lines[n], n + 1, space, sentences, offset);
      CuttingsNext(lines, n, space, sentences);
      forall j | 0 <= j < n ensures ItemCovered(clauses, lines, j, space) {
        CoveredStill(before, clauses, lines, j, space);
      }
      ExactWeaker(clauses, request, offset + |content|, offset + |lines[n]|);
      offset := offset + |lines[n]|;
      n := n + 1;
    }
    assert lines[..n] == lines;
  }

  // ---------------------------------------------------------------- what the segments of a line are

  /** One stretch of a text, stripped. */
  function Stretch(text: string, spans: seq<(nat, nat)>, k: nat, space: Spaces): string
    requires Stretches(spans, |text|) && k < |spans|
  {
    Strip(text[spans[k].0..spans[k].1], space)
  }

  /** Every one of the first n stretches that is not white space has a piece, and every piece is such a stretch. */
  ghost predicate Covered(pieces: seq<Segment>, text: string, spans: seq<(nat, nat)>, n: nat, space: Spaces)
    requires Stretches(spans, |text|) && n <= |spans|
  {
    && (forall k | 0 <= k < n && Stretch(text, spans, k, space) != [] :: Has(pieces, Stretch(text, spans, k, space)))
    && (forall g | g in pieces :: g.text != [] && exists k | 0 <= k < n :: g.text == Stretch(text, spans, k, space))
  }

  ghost predicate Has(pieces: seq<Segment>, text: string) {
    exists g :: g in pieces && g.text == text
  }

  lemma HasMore(pieces: seq<Segment>, piece: string, at: nat, text: string)
    ensures Has(pieces + PieceOf(piece, at), text) <==> Has(pieces, text) || (piece != [] && text == piece)
  {
    var all := pieces + PieceOf(piece, at);
    assert forall g | g in pieces :: g in all;
    if piece != [] { assert Segment(piece, at) in all; }
  }

  lemma CoveredNext(pieces: seq<Segment>, text: string, spans: seq<(nat, nat)>, n: nat, at: nat, space: Spaces)
    requires Stretches(spans, |text|) && n < |spans| && Covered(pieces, text, spans, n, space)
    ensures Covered(pieces + PieceOf(Stretch(text, spans, n, space), at), text, spans, n + 1, space)
  {
    hide Stretch, Stretches, Has;
    var piece := Stretch(text, spans, n, space);
    forall k | 0 <= k < n + 1 && Stretch(text, spans, k, space) != []
      ensures Has(pieces + PieceOf(piece, at), Stretch(text, spans, k, space))
    {
      HasMore(pieces, piece, at, Stretch(text, spans, k, space));
    }
  }

  lemma {:induction false} PiecesAre(text: string, spans: seq<(nat, nat)>, n: nat, position: nat, space: Spaces)
    requires Stretches(spans, |text|) && n <= |spans| && Stretches(spans[..n], |text|)
    ensures Covered(Pieces(text, spans[..n], position, space), text, spans, n, space)
  {
    hide Strip, Leading, Stretches, Pieces, Covered, PieceOf;
    if n == 0 {
      NoPieces(text, position, space);
      NoneCovered(text, spans, space);
      assert spans[..0] == [];
    } else {
      SpanWithin(spans, n - 1, |text|);
      assert spans[..n][..n - 1] == spans[..n - 1];
      PiecesAre(text, spans, n - 1, position, space);
      PiecesNext(text, spans[..n], position, space);
      var (a, b) := spans[n - 1];
      CoveredNext(Pieces(text, spans[..n - 1], position, space), text, spans, n - 1,
                  position + a + Leading(text[a..b], space), space);
    }
  }

  lemma SpanWithin(spans: seq<(nat, nat)>, n: nat, length: nat)
    requires Stretches(spans, length) && n < |spans|
    ensures spans[n].0 <= spans[n].1 <= length && Stretches(spans[..n], length)
  {
  }

  lemma NoneCovered(text: string, spans: seq<(nat, nat)>, space: Spaces)
    requires Stretches(spans, |text|)
    ensures Covered([], text, spans, 0, space)
  {
  }

  lemma {:induction false} CuttingsOfLine(lines: seq<string>, n: nat, space: Spaces, sentences: Sentences, c: Cutting)
    requires Cuts(sentences) && n <= |lines|
    ensures c in AllCuttings(lines, n, space, sentences) <==>
              1 <= c.line <= n && c in LineCuttings(lines[c.line - 1], c.line, space, sentences)
  {
    hide Segments, Content, Strip, IsListItem, Cuts;
    if n > 0 { CuttingsOfLine(lines, n - 1, space, sentences, c); }
  }

  /** What a line is cut into: an item's whole text, or a sentence that is not white space. */
  ghost predicate CutFrom(text: string, stripped: string, space: Spaces, sentences: Sentences)
    requires Cuts(sentences)
  {
    var m := MarkerLength(stripped, space);
    var rest := Strip(stripped[m..], space);
    if m > 0 then text == rest
    else text != [] && exists k | 0 <= k < |sentences(rest)| :: text == Stretch(rest, sentences(rest), k, space)
  }

  lemma LineIsCut(line: string, number: nat, space: Spaces, sentences: Sentences, text: string)
    requires Cuts(sentences)
    ensures Cutting(text, number, IsListItem(Strip(Content(line), space), space)) in LineCuttings(line, number, space, sentences)
            <==> Strip(Content(line), space) != [] && CutFrom(text, Strip(Content(line), space), space, sentences)
  {
    hide Strip, Leading, MarkerLength, Content, Pieces, Stretches, Stretch, CuttingsFrom;
    var content := Content(line);
    var stripped, segments := Strip(content, space), Segments(content, space, sentences);
    InLine(segments, number, IsListItem(stripped, space), text);
    if stripped != [] {
      var m := MarkerLength(stripped, space);
      var rest := Strip(stripped[m..], space);
      var position := Leading(content, space) + m + Leading(stripped[m..], space);
      if m > 0 {
        assert segments == [Segment(rest, position)];
      } else {
        assert segments == Pieces(rest, sentences(rest), position, space);
        assert sentences(rest)[..|sentences(rest)|] == sentences(rest);
        PiecesAre(rest, sentences(rest), |sentences(rest)|, position, space);
      }
    }
  }

  lemma InLine(segments: seq<Segment>, number: nat, listed: bool, text: string)
    ensures Cutting(text, number, listed) in CuttingsFrom(segments, number, listed) <==> exists g :: g in segments && g.text == text
  {
    var cs := CuttingsFrom(segments, number, listed);
    if g :| g in segments && g.text == text {
      var k :| 0 <= k < |segments| && segments[k] == g;
      assert cs[k] == Cutting(text, number, listed);
    }
  }

  /** The clauses are exactly what the lines are cut into: the text of every list item, and every sentence of every other
      line. */
  lemma ClausesAre(clauses: seq<Clause>, request: string, space: Spaces, sentences: Sentences, text: string, number: nat,
                   listed: bool)
    requires Cuts(sentences)
    requires CuttingsOf(clauses) == AllCuttings(SplitLines(request), |SplitLines(request)|, space, sentences)
    ensures (exists c :: c in clauses && c.text == text && c.line == number && c.listed == listed) <==>
              && 1 <= number <= |SplitLines(request)|
              && var stripped := Strip(Content(SplitLines(request)[number - 1]), space);
                 stripped != [] && listed == IsListItem(stripped, space) && CutFrom(text, stripped, space, sentences)
  {
    hide SplitLines, Strip, Content, IsListItem, CutFrom, Segments, AllCuttings, Cuts;
    var lines, cut := SplitLines(request), Cutting(text, number, listed);
    CuttingsOfLine(lines, |lines|, space, sentences, cut);
    InCuttings(clauses, cut);
    if 1 <= number <= |lines| { LineIsCut(lines[number - 1], number, space, sentences, text); }
  }

  lemma InCuttings(clauses: seq<Clause>, cut: Cutting)
    ensures cut in CuttingsOf(clauses) <==>
              exists c :: c in clauses && c.text == cut.text && c.line == cut.line && c.listed == cut.listed
  {
    var cs := CuttingsOf(clauses);
    if c :| c in clauses && c.text == cut.text && c.line == cut.line && c.listed == cut.listed {
      var k :| 0 <= k < |clauses| && clauses[k] == c;
      assert cs[k] == cut;
    }
  }

  lemma NoClauses(request: string)
    ensures Exact([], request, 0) && Concat([]) == ""
  {
  }

  lemma LineCovered(before: seq<Clause>, after: seq<Clause>, lines: seq<string>, n: nat, space: Spaces, sentences: Sentences,
                    offset: nat)
    requires Cuts(sentences) && n < |lines| && before <= after
    requires var content := Content(lines[n]);
             var segments := Segments(content, space, sentences);
             && |after| == |before| + |segments|
             && forall k | 0 <= k < |segments| ::
                  Placed(after[|before| + k], segments[k], n + 1, IsListItem(Strip(content, space), space), offset)
    ensures ItemCovered(after, lines, n, space)
  {
    hide Strip, MarkerLength, Content, Pieces, Leading;
    var content := Content(lines[n]);
    var stripped := Strip(content, space);
    if stripped != [] && IsListItem(stripped, space) {
      var segments := Segments(content, space, sentences);
      assert |segments| == 1;
      var c := after[|before| + 0];
      assert Placed(c, segments[0], n + 1, true, offset);
      assert c in after;
    }
  }
}
