/** The append-only event log: emission, crash recovery, and what survives any number of crashes. */
module EventLog {
  import opened Common
  import opened Text
  import opened EventRecord

  /** Whether the JSON parser accepts a text. */
  type Loader = string -> bool

  /** What is needed of the parser: it reads every record, and of the texts that open an object it reads
      none that does not close it. */
  ghost predicate Faithful(loads: Loader) {
    && (forall e: Event :: loads(Encode(e)))
    && (forall text: string | text != [] && text[0] == '{' && loads(text) :: Complete(text))
  }

  /** The scanner itself meets both demands. */
  lemma ScannerIsFaithful()
    ensures Faithful(Complete)
  {
    forall e: Event ensures Complete(Encode(e)) {
      PrefixFree(e, |Encode(e)|);
      assert Encode(e)[..|Encode(e)|] == Encode(e);
    }
  }

  datatype LogError = InvalidJson | InvalidSchema | NonMonotonic

  // ---------------------------------------------------------------- recovery, as values

  /** The position after the last newline. */
  function LastLine(text: string): (k: nat)
    ensures k <= |text|
    ensures '\n' !in text[k..]
  {
    if text == [] then 0
    else if text[|text| - 1] == '\n' then |text|
    else LastLine(text[..|text| - 1])
  }

  predicate Ended(text: string) {
    text == [] || text[|text| - 1] == '\n'
  }

  /** The log after its unterminated tail, if any, is completed or cut off. */
  function Repaired(text: string, loads: Loader): string {
    if Ended(text) then text
    else if loads(text[LastLine(text)..]) then text + "\n"
    else text[..LastLine(text)]
  }

  /** The corrupt-tail file after recovery. */
  function CorruptAfter(text: string, corrupt: string, loads: Loader): string {
    if Ended(text) || loads(text[LastLine(text)..]) then corrupt
    else if corrupt != "" then corrupt + "\n" + text[LastLine(text)..]
    else text[LastLine(text)..]
  }

  /** Splits at every separator. A last empty piece is kept; recovery skips empty lines. */
  function Lines(s: string): (pieces: seq<string>)
    ensures pieces != []
  {
    if s == [] then [[]]
    else
      var rest := Lines(s[1..]);
      if Separator(s[0]) then [[]] + rest else [[s[0]] + rest[0]] + rest[1..]
  }

  /** Reads the lines in order; the result is the last sequence number. */
  function ScanLines(lines: seq<string>, last: nat, loads: Loader): Result<nat, LogError> {
    if lines == [] then Ok(last)
    else if lines[0] == "" then ScanLines(lines[1..], last, loads)
    else if !loads(lines[0]) then Err(InvalidJson)
    else
      match Decode(lines[0])
      case None => Err(InvalidSchema)
      case Some(e) =>
        if e.sequence <= last then Err(NonMonotonic) else ScanLines(lines[1..], e.sequence, loads)
  }

  // ---------------------------------------------------------------- the emitter

  /** The two files of a run's log. */
  class EventStore {
    var log: string
    var corrupt: string

    constructor ()
      ensures log == "" && corrupt == ""
    {
      log, corrupt := "", "";
    }
  }

  method RecoverSequence(store: EventStore, loads: Loader) returns (r: Result<nat, LogError>)
    modifies store
    ensures store.log == Repaired(old(store.log), loads)
    ensures store.corrupt == CorruptAfter(old(store.log), old(store.corrupt), loads)
    ensures r == ScanLines(Lines(store.log), 0, loads)
  {
    var text := store.log;
    if text == "" { return Ok(0); }
    if text[|text| - 1] != '\n' {
      var tail := text[LastLine(text)..];
      if !loads(tail) {
        if store.corrupt != "" {
          store.corrupt := store.corrupt + "\n" + tail;
        } else {
          store.corrupt := tail;
        }
        text := text[..LastLine(text)];
      } else {
        text := text + "\n";
      }
      store.log := text;
    }
    var lines := Lines(text);
    var last := 0;
    var i := 0;
    while i < |lines|
      invariant 0 <= i <= |lines|
      invariant ScanLines(lines, 0, loads) == ScanLines(lines[i..], last, loads)
    {
      var line := lines[i];
      assert lines[i..][0] == line && lines[i..][1..] == lines[i + 1..];
      if line != "" {
        if !loads(line) { return Err(InvalidJson); }
        var event := Decode(line);
        if event.None? { return Err(InvalidSchema); }
        if event.value.sequence <= last { return Err(NonMonotonic); }
        last := event.value.sequence;
      }
      i := i + 1;
    }
    return Ok(last);
  }

  class EventEmitter {
    const store: EventStore
    var sequence: nat

    constructor (store: EventStore, sequence: nat)
      ensures this.store == store && this.sequence == sequence
    {
      this.store, this.sequence := store, sequence;
    }

    method Emit(message: string) returns (e: Event)
      modifies this`sequence, store`log
      ensures sequence == old(sequence) + 1 && e == Event(sequence, message)
      ensures store.log == old(store.log) + (Encode(e) + "\n")
    {
      sequence := sequence + 1;
      e := Event(sequence, message);
      store.log := store.log + (Encode(e) + "\n");
    }
  }

  // ---------------------------------------------------------------- the log of a list of events

  function LogText(es: seq<Event>): string {
    if es == [] then "" else Encode(es[0]) + "\n" + LogText(es[1..])
  }

  /** Numbered from the given number on, and writable on one line each. */
  predicate NumberedFrom(es: seq<Event>, last: nat) {
    forall i | 0 <= i < |es| :: es[i].sequence == last + 1 + i && Plain(es[i].message)
  }

  lemma {:induction false} LogTextAppend(es: seq<Event>, e: Event)
    ensures LogText(es + [e]) == LogText(es) + (Encode(e) + "\n")
  {
    hide Encode;
    if es == [] {
      assert [e][1..] == [];
    } else {
      LogTextAppend(es[1..], e);
      assert (es + [e])[1..] == es[1..] + [e];
    }
  }

  lemma {:induction false} LogTextEnds(es: seq<Event>)
    ensures Ended(LogText(es))
  {
    if es != [] {
      var init, last := es[..|es| - 1], es[|es| - 1];
      LogTextAppend(init, last);
      assert es == init + [last];
    }
  }

  lemma {:induction false} FirstLine(record: string, rest: string)
    requires OneLine(record)
    ensures Lines(record + (['\n'] + rest)) == [record] + Lines(rest)
  {
    var s := record + (['\n'] + rest);
    if record == [] {
      assert s == ['\n'] + rest;
    } else {
      assert OneLine(record[1..]) by { assert forall i | 0 <= i < |record| - 1 :: record[1..][i] == record[i + 1]; }
      FirstLine(record[1..], rest);
      assert s[1..] == record[1..] + (['\n'] + rest);
      assert [record[0]] + record[1..] == record;
    }
  }

  // ---------------------------------------------------------------- exactly which logs can be read back

  lemma EncodedOpens(e: Event)
    ensures Encode(e) != [] && Encode(e)[0] == '{'
  {
  }

  lemma {:induction false} EscapedKeepsSeparator(message: string)
    requires !Plain(message)
    ensures !OneLine(EscapeText(message))
  {
    if OneLine(EscapeChar(message[0])) {
      assert message[0] !in {'\U{85}', '\U{2028}', '\U{2029}'} by {
        assert EscapeChar(message[0])[0] == message[0] || EscapeChar(message[0]) != [message[0]];
      }
      assert !Plain(message[1..]) by {
        var i :| 0 <= i < |message| && message[i] in {'\U{85}', '\U{2028}', '\U{2029}'};
        assert i > 0 && message[1..][i - 1] == message[i];
      }
      EscapedKeepsSeparator(message[1..]);
    }
    SplitLine(EscapeChar(message[0]), EscapeText(message[1..]));
  }

  lemma SplitLine(a: string, b: string)
    ensures OneLine(a + b) <==> OneLine(a) && OneLine(b)
  {
    if OneLine(a + b) {
      assert forall i | 0 <= i < |a| :: a[i] == (a + b)[i];
      assert forall i | 0 <= i < |b| :: b[i] == (a + b)[|a| + i];
    }
  }

  lemma EncodedOneLineIff(e: Event)
    ensures OneLine(Encode(e)) <==> Plain(e.message)
  {
    if Plain(e.message) {
      EncodedIsOneLine(e);
    } else {
      EscapedKeepsSeparator(e.message);
      SplitLine(EscapeText(e.message), TAIL);
      SplitLine(MIDDLE, EscapeText(e.message) + TAIL);
      SplitLine(Decimal(e.sequence), MIDDLE + (EscapeText(e.message) + TAIL));
      SplitLine(HEAD, Decimal(e.sequence) + (MIDDLE + (EscapeText(e.message) + TAIL)));
    }
  }

  /** The first line of a text that holds a separator is a proper prefix of it. */
  lemma {:induction false} FirstLineIsPrefix(s: string, rest: string)
    requires !OneLine(s)
    ensures var line := Lines(s + rest)[0]; |line| < |s| && line == s[..|line|]
  {
    if !Separator(s[0]) {
      assert !OneLine(s[1..]) by {
        var i :| 0 <= i < |s| && Separator(s[i]);
        assert s[1..][i - 1] == s[i];
      }
      FirstLineIsPrefix(s[1..], rest);
      assert (s + rest)[1..] == s[1..] + rest;
    }
  }

  lemma NotPlainFails(e: Event, rest: string, last: nat, loads: Loader)
    requires Faithful(loads) && !Plain(e.message)
    ensures ScanLines(Lines(Encode(e) + rest), last, loads) == Err(InvalidJson)
  {
    hide Encode, Decode, Plain, Complete;
    EncodedOneLineIff(e);
    EncodedOpens(e);
    FirstLineIsPrefix(Encode(e), rest);
    assert !Separator('{');
    var line := Lines(Encode(e) + rest)[0];
    FirstLineStarts(Encode(e) + rest);
    PrefixFree(e, |line|);
    assert line[0] == '{' && !loads(line);
  }

  lemma FirstLineStarts(s: string)
    requires s != [] && !Separator(s[0])
    ensures Lines(s)[0] != [] && Lines(s)[0][0] == s[0]
  {
  }

  lemma NoLines(last: nat, loads: Loader)
    ensures ScanLines(Lines(LogText([])), last, loads) == Ok(last)
  {
  }

  /** A log of correctly numbered events reads back exactly when no event text holds one of the three separators
      that serialisation leaves unescaped: U+0085, U+2028 or U+2029. */
  lemma {:induction false} ReadableIffPlain(es: seq<Event>, last: nat, loads: Loader)
    requires Faithful(loads) && forall i | 0 <= i < |es| :: es[i].sequence == last + 1 + i
    ensures ScanLines(Lines(LogText(es)), last, loads) ==
              if forall i | 0 <= i < |es| :: Plain(es[i].message) then Ok(last + |es|) else Err(InvalidJson)
  {
    hide Encode, Decode, Plain, Lines, Complete;
    if es == [] {
      NoLines(last, loads);
    } else {
      var e, rest := es[0], es[1..];
      assert forall i | 0 <= i < |rest| :: rest[i] == es[i + 1];
      assert LogText(es) == Encode(e) + (['\n'] + LogText(rest));
      if Plain(e.message) {
        EncodedIsOneLine(e);
        DecodeEncoded(e);
        FirstLine(Encode(e), LogText(rest));
        ReadableIffPlain(rest, e.sequence, loads);
        assert ([Encode(e)] + Lines(LogText(rest)))[1..] == Lines(LogText(rest));
      } else {
        NotPlainFails(e, ['\n'] + LogText(rest), last, loads);
      }
    }
  }

  // ---------------------------------------------------------------- crashes

  const SEPARATED: Event := Event(1, "\U{2028}")

  /** A log of one event whose message is a line separator cannot be read back. */
  lemma LineSeparatorFails(loads: Loader)
    requires Faithful(loads)
    ensures ScanLines(Lines(LogText([SEPARATED])), 0, loads) == Err(InvalidJson)
  {
    hide LogText, Lines, ScanLines;
    ReadableIffPlain([SEPARATED], 0, loads);
    assert SEPARATED.message[0] == '\U{2028}';
    assert !Plain([SEPARATED][0].message);
  }

  lemma {:induction false} TailAfter(whole: string, torn: string)
    requires Ended(whole) && '\n' !in torn
    ensures LastLine(whole + torn) == |whole|
  {
    if torn != [] {
      var init := torn[..|torn| - 1];
      TailAfter(whole, init);
      assert (whole + torn)[..|whole + torn| - 1] == whole + init;
    } else {
      assert whole + torn == whole;
    }
  }

  /** What is on disk when the write of a record stops after k characters. */
  function Torn(es: seq<Event>, e: Event, k: nat): string
    requires k <= |Encode(e)| + 1
  {
    LogText(es) + (Encode(e) + "\n")[..k]
  }

  /** The record survives a torn write exactly when nothing but its newline is missing. */
  function Surviving(es: seq<Event>, e: Event, k: nat): seq<Event> {
    if k >= |Encode(e)| then es + [e] else es
  }

  /** The text that recovery cuts off. */
  function CutOff(e: Event, k: nat): string {
    if 0 < k < |Encode(e)| then Encode(e)[..k] else ""
  }

  lemma TornUnended(es: seq<Event>, e: Event, k: nat)
    requires Plain(e.message) && 0 < k <= |Encode(e)|
    ensures Torn(es, e, k) == LogText(es) + Encode(e)[..k]
    ensures !Ended(Torn(es, e, k)) && Torn(es, e, k)[LastLine(Torn(es, e, k))..] == Encode(e)[..k]
    ensures LastLine(Torn(es, e, k)) == |LogText(es)|
  {
    var torn := Encode(e)[..k];
    assert (Encode(e) + "\n")[..k] == torn;
    EncodedIsOneLine(e);
    assert forall i | 0 <= i < k :: torn[i] == Encode(e)[i];
    LogTextEnds(es);
    TailAfter(LogText(es), torn);
    assert Separator('\n');
  }

  lemma CrashRepairs(es: seq<Event>, e: Event, k: nat, corrupt: string, loads: Loader)
    requires Faithful(loads) && NumberedFrom(es + [e], 0) && k <= |Encode(e)| + 1
    ensures Repaired(Torn(es, e, k), loads) == LogText(Surviving(es, e, k))
    ensures CorruptAfter(Torn(es, e, k), corrupt, loads) ==
              if CutOff(e, k) == "" then corrupt
              else if corrupt != "" then corrupt + "\n" + CutOff(e, k) else CutOff(e, k)
  {
    hide Encode, Complete, Lines, ScanLines, LogText, LastLine, Plain;
    var all := es + [e];
    assert all[|es|] == e && all[..|es|] == es;
    assert NumberedFrom(es, 0) by { assert forall i | 0 <= i < |es| :: es[i] == all[i]; }
    EncodedOpens(e);
    LogTextAppend(es, e);
    LogTextEnds(es);
    if k == 0 {
      assert Torn(es, e, k) == LogText(es);
    } else if k == |Encode(e)| + 1 {
      assert (Encode(e) + "\n")[..k] == Encode(e) + "\n";
      LogTextEnds(all);
      assert Torn(es, e, k) == LogText(all);
    } else {
      TornUnended(es, e, k);
      PrefixFree(e, k);
      assert Encode(e)[..|Encode(e)|] == Encode(e);
      assert Encode(e)[..k] != [] && Encode(e)[..k][0] == '{';
      assert loads(Encode(e)[..k]) <==> k == |Encode(e)|;
      assert k < |Encode(e)| ==> CutOff(e, k) == Encode(e)[..k];
    }
    assert Repaired(Torn(es, e, k), loads) == LogText(Surviving(es, e, k));
  }

  /** Recovery after one torn write: the log is the longest prefix of whole events, its length is returned,
      and the cut-off text is kept. */
  lemma CrashRecovery(es: seq<Event>, e: Event, k: nat, corrupt: string, loads: Loader)
    requires Faithful(loads) && NumberedFrom(es + [e], 0) && k <= |Encode(e)| + 1
    ensures Repaired(Torn(es, e, k), loads) == LogText(Surviving(es, e, k))
    ensures ScanLines(Lines(Repaired(Torn(es, e, k), loads)), 0, loads) == Ok(|Surviving(es, e, k)|)
    ensures CorruptAfter(Torn(es, e, k), corrupt, loads) ==
              if CutOff(e, k) == "" then corrupt
              else if corrupt != "" then corrupt + "\n" + CutOff(e, k) else CutOff(e, k)
  {
    hide Encode, Complete, Lines, ScanLines, LogText, LastLine, Plain, Repaired, CorruptAfter, Torn, CutOff, Faithful;
    CrashRepairs(es, e, k, corrupt, loads);
    var all := es + [e];
    assert forall i | 0 <= i < |es| :: es[i] == all[i];
    ReadableIffPlain(Surviving(es, e, k), 0, loads);
  }

  // ---------------------------------------------------------------- any number of crashes

  /** One emission, or one that a crash stopped after k characters, followed by a re-opening of the log. */
  datatype LogStep = Emits(message: string) | Crashes(message: string, k: nat)

  datatype LogState = LogState(log: string, corrupt: string, sequence: nat)

  /** The step as the emitter, the crash and recovery perform it on the files. */
  function StepLog(s: LogState, step: LogStep, loads: Loader): Result<LogState, LogError> {
    var e := Event(s.sequence + 1, step.message);
    var record := Encode(e) + "\n";
    match step
    case Emits(_) => Ok(LogState(s.log + record, s.corrupt, s.sequence + 1))
    case Crashes(_, k) =>
      var text := s.log + record[..if k < |record| then k else |record|];
      match ScanLines(Lines(Repaired(text, loads)), 0, loads)
      case Err(error) => Err(error)
      case Ok(last) => Ok(LogState(Repaired(text, loads), CorruptAfter(text, s.corrupt, loads), last))
  }

  function RunLog(steps: seq<LogStep>, loads: Loader): Result<LogState, LogError> {
    if steps == [] then Ok(LogState("", "", 0))
    else
      match RunLog(steps[..|steps| - 1], loads)
      case Err(error) => Err(error)
      case Ok(s) => StepLog(s, steps[|steps| - 1], loads)
  }

  /** The events that outlive the steps, numbered as they were written. */
  function Survivors(steps: seq<LogStep>): seq<Event> {
    if steps == [] then []
    else
      var es, step := Survivors(steps[..|steps| - 1]), steps[|steps| - 1];
      var e := Event(|es| + 1, step.message);
      match step
      case Emits(_) => es + [e]
      case Crashes(_, k) => Surviving(es, e, k)
  }

  /** The cut-off texts, each on a line of its own. */
  function CutOffs(steps: seq<LogStep>): string {
    if steps == [] then ""
    else
      var before, step := CutOffs(steps[..|steps| - 1]), steps[|steps| - 1];
      match step
      case Emits(_) => before
      case Crashes(_, k) =>
        var lost := CutOff(Event(|Survivors(steps[..|steps| - 1])| + 1, step.message), k);
        if lost == "" then before else if before != "" then before + "\n" + lost else lost
  }

  lemma SurvivingNumbered(es: seq<Event>, message: string)
    requires NumberedFrom(es, 0) && Plain(message)
    ensures NumberedFrom(es + [Event(|es| + 1, message)], 0)
  {
  }

  lemma CrashStep(es: seq<Event>, message: string, k: nat, corrupt: string, loads: Loader)
    requires Faithful(loads) && NumberedFrom(es, 0) && Plain(message)
    ensures var e := Event(|es| + 1, message);
            StepLog(LogState(LogText(es), corrupt, |es|), Crashes(message, k), loads) ==
            Ok(LogState(LogText(Surviving(es, e, k)),
                        if CutOff(e, k) == "" then corrupt
                        else if corrupt != "" then corrupt + "\n" + CutOff(e, k) else CutOff(e, k),
                        |Surviving(es, e, k)|))
  {
    hide Encode, Lines, ScanLines, LogText, LastLine, Plain, Repaired, CorruptAfter, Faithful;
    var e := Event(|es| + 1, message);
    var stop := if k < |Encode(e)| + 1 then k else |Encode(e)| + 1;
    SurvivingNumbered(es, message);
    EncodedOpens(e);
    CrashRecovery(es, e, stop, corrupt, loads);
  }

  /** Over any emissions and any number of crashes at any points, recovery never fails, the log holds exactly the
      whole events, numbered 1 to n without a gap or a repeat, n is the emitter's counter, and every cut-off text
      is kept. */
  lemma {:induction false} LogSurvivesCrashes(steps: seq<LogStep>, loads: Loader)
    requires Faithful(loads) && forall i | 0 <= i < |steps| :: Plain(steps[i].message)
    ensures NumberedFrom(Survivors(steps), 0)
    ensures RunLog(steps, loads) == Ok(LogState(LogText(Survivors(steps)), CutOffs(steps), |Survivors(steps)|))
  {
    hide Encode, Lines, ScanLines, LogText, LastLine, Plain, Repaired, CorruptAfter, Faithful;
    if steps == [] {
      assert LogText([]) == "" by { EmptyLog(); }
    } else {
      var init, step := steps[..|steps| - 1], steps[|steps| - 1];
      LogSurvivesCrashes(init, loads);
      var es := Survivors(init);
      var e := Event(|es| + 1, step.message);
      SurvivingNumbered(es, step.message);
      match step {
        case Emits(message) => LogTextAppend(es, e);
        case Crashes(message, k) => CrashStep(es, message, k, CutOffs(init), loads);
      }
    }
  }

  lemma EmptyLog()
    ensures LogText([]) == ""
  {
  }

  lemma RunLogNext(steps: seq<LogStep>, i: nat, loads: Loader)
    requires i < |steps|
    ensures RunLog(steps[..i + 1], loads) ==
              match RunLog(steps[..i], loads)
              case Err(error) => Err(error)
              case Ok(s) => StepLog(s, steps[i], loads)
  {
    assert steps[..i + 1][..i] == steps[..i];
  }

  lemma RunLogStops(steps: seq<LogStep>, n: nat, loads: Loader)
    requires n <= |steps| && RunLog(steps[..n], loads).Err?
    ensures RunLog(steps, loads) == Err(RunLog(steps[..n], loads).error)
    decreases |steps| - n
  {
    hide RunLog, StepLog;
    if n == |steps| {
      assert steps[..n] == steps;
    } else {
      RunLogNext(steps, n, loads);
      RunLogStops(steps, n + 1, loads);
    }
  }

  /** A crash: some characters of the next record reach the file, and the log is opened again. */
  method CrashAndReopen(store: EventStore, sequence: nat, message: string, k: nat, loads: Loader)
    returns (r: Result<nat, LogError>)
    modifies store
    ensures match StepLog(LogState(old(store.log), old(store.corrupt), sequence), Crashes(message, k), loads)
            case Ok(s) => r == Ok(s.sequence) && store.log == s.log && store.corrupt == s.corrupt
            case Err(error) => r == Err(error)
  {
    hide Encode, Lines, ScanLines, Repaired, CorruptAfter;
    var record := Encode(Event(sequence + 1, message)) + "\n";
    store.log := store.log + record[..if k < |record| then k else |record|];
    r := RecoverSequence(store, loads);
  }

  /** The emitter over any emissions and crashes, on the files themselves. */
  method PlayLog(store: EventStore, steps: seq<LogStep>, loads: Loader) returns (r: Result<nat, LogError>)
    requires store.log == "" && store.corrupt == ""
    modifies store
    ensures match RunLog(steps, loads)
            case Ok(s) => r == Ok(s.sequence) && store.log == s.log && store.corrupt == s.corrupt
            case Err(error) => r == Err(error)
  {
    var emitter := new EventEmitter(store, 0);
    var i := 0;
    while i < |steps|
      invariant 0 <= i <= |steps| && emitter.store == store && fresh(emitter)
      invariant RunLog(steps[..i], loads) == Ok(LogState(store.log, store.corrupt, emitter.sequence))
    {
      hide RunLog, Encode, Lines, ScanLines, Repaired, CorruptAfter;
      RunLogNext(steps, i, loads);
      match steps[i] {
        case Emits(message) =>
          var e := emitter.Emit(message);
        case Crashes(message, k) =>
          var reopened := CrashAndReopen(store, emitter.sequence, message, k, loads);
          if reopened.Err? {
            RunLogStops(steps, i + 1, loads);
            return Err(reopened.error);
          }
          emitter := new EventEmitter(store, reopened.value);
      }
      i := i + 1;
    }
    assert steps[..i] == steps;
    return Ok(emitter.sequence);
  }
}
