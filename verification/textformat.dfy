/** The text formatter behind the log files: one line per entry made of an
    optional colour, the time, a four-letter level tag, the "_source" entry,
    the other data entries, the message, the matching colour reset and a
    newline. Time formatting and the rendering of a value with %v are oracles. */
module TextFormat {
  import opened Values

  /** logrus's levels, most severe first. */
  datatype Level = PanicLevel | FatalLevel | ErrorLevel | WarnLevel | InfoLevel | DebugLevel | TraceLevel

  /** logrus's name of a level. */
  function LevelName(l: Level): (r: string)
    ensures |r| >= 4
  {
    match l
    case PanicLevel => "panic"
    case FatalLevel => "fatal"
    case ErrorLevel => "error"
    case WarnLevel => "warning"
    case InfoLevel => "info"
    case DebugLevel => "debug"
    case TraceLevel => "trace"
  }

  const Escape: char := '\U{1B}'
  const ColorNone := [Escape] + "[0m"
  const ColorRed := [Escape] + "[91m"
  const ColorGreen := [Escape] + "[92m"
  const ColorYellow := [Escape] + "[93m"
  const ColorMagenta := [Escape] + "[95m"
  const ColorCyan := [Escape] + "[96m"

  /** The data entry rendered first, and removed from the entry. */
  const SourceKey := "_source"

  /** The formatter's one setting. */
  datatype Formatter = Formatter(forceColors: bool)

  /** NewTextFormat: colours are forced only by exactly one argument that is true. */
  function NewTextFormat(forceColor: seq<bool>): (r: Formatter)
    ensures r.forceColors ==> |forceColor| == 1 && forceColor[0]
    ensures |forceColor| == 1 && forceColor[0] ==> r.forceColors
    ensures |forceColor| != 1 ==> !r.forceColors
  {
    Formatter(|forceColor| == 1 && forceColor[0])
  }

  /** Where the process runs: whether stdout is a terminal, and the OS name. */
  datatype Host = Host(isTerminal: bool, goos: string)

  /** The guard shared by the colour and the reset. */
  predicate Colored(f: Formatter, host: Host) {
    (f.forceColors || host.isTerminal) && host.goos != "windows" && host.goos != "linux"
  }

  /** What the constructor's argument does to colouring: a single true colours
      every line except on Windows and Linux; no argument, or any other
      argument list, leaves colouring to whether stdout is a terminal. */
  lemma ForcedColours(host: Host, forceColor: seq<bool>)
    ensures Colored(NewTextFormat([true]), host) <==> host.goos !in {"windows", "linux"}
    ensures |forceColor| != 1 ==>
              (Colored(NewTextFormat(forceColor), host) <==> host.isTerminal && host.goos !in {"windows", "linux"})
    ensures !Colored(NewTextFormat(forceColor), Host(host.isTerminal, "linux"))
  {
  }

  /** The colour a level is written in. */
  function ColorOf(l: Level): (r: string)
    ensures |r| >= 4 && r[0] == Escape
  {
    match l
    case DebugLevel => ColorCyan
    case InfoLevel => ColorGreen
    case WarnLevel => ColorYellow
    case ErrorLevel => ColorMagenta
    case PanicLevel => ColorRed
    case FatalLevel => ColorRed
    case TraceLevel => ColorNone
  }

  /** Only the trace level is written without a colour of its own. */
  lemma OnlyTraceIsUncoloured(l: Level)
    ensures ColorOf(l) == ColorNone <==> l == TraceLevel
  {
    if l != TraceLevel {
      assert ColorOf(l)[3] != ColorNone[3];
    }
  }

  // ---------------------------------------------------------------------
  // Level tag

  /** strings.ToUpper on one ASCII character. */
  function UpperChar(c: char): (r: char)
    ensures 'a' <= c <= 'z' ==> r as int == c as int - 32
    ensures !('a' <= c <= 'z') ==> r == c
  {
    if 'a' <= c <= 'z' then (c as int - 32) as char else c
  }

  /** The first four letters of the level's name, upper-cased. */
  function LevelText(l: Level): (r: string)
    ensures |r| == 4
    ensures forall i | 0 <= i < 4 :: r[i] == UpperChar(LevelName(l)[i])
  {
    var name := LevelName(l);
    [UpperChar(name[0]), UpperChar(name[1]), UpperChar(name[2]), UpperChar(name[3])]
  }

  /** The level tag written after the time. */
  function LevelTag(l: Level): (r: string)
    ensures r == "[" + LevelText(l) + "] " && |r| == 7
  {
    "[" + LevelText(l) + "] "
  }

  /** Reading a level back from its four-letter text. */
  function LevelOfText(t: string): Option<Level> {
    if t == "PANI" then Some(PanicLevel)
    else if t == "FATA" then Some(FatalLevel)
    else if t == "ERRO" then Some(ErrorLevel)
    else if t == "WARN" then Some(WarnLevel)
    else if t == "INFO" then Some(InfoLevel)
    else if t == "DEBU" then Some(DebugLevel)
    else if t == "TRAC" then Some(TraceLevel)
    else None
  }

  /** The tag names the level: different levels get different tags. */
  lemma LevelTextRoundTrip(l: Level)
    ensures LevelOfText(LevelText(l)) == Some(l)
  {
    var t := LevelText(l);
    match l
    case PanicLevel => assert t == "PANI";
    case FatalLevel => assert t == "FATA";
    case ErrorLevel => assert t == "ERRO";
    case WarnLevel => assert t == "WARN";
    case InfoLevel => assert t == "INFO";
    case DebugLevel => assert t == "DEBU";
    case TraceLevel => assert t == "TRAC";
  }

  // ---------------------------------------------------------------------
  // Data entries

  /** One data entry as the formatter writes it. */
  function FieldText(k: string, v: Value, show: Value -> string): string {
    "[" + k + "=" + show(v) + "] "
  }

  /** The data entries in the order the range visits them. */
  function FieldsText(order: seq<string>, data: Fields, show: Value -> string): (r: string)
    requires forall i | 0 <= i < |order| :: order[i] in data
    decreases |order|
  {
    if order == [] then ""
    else FieldText(order[0], data[order[0]], show) + FieldsText(order[1..], data, show)
  }

  /** Every visited entry is written, in place: the i-th one starts where the
      texts of the entries before it end. */
  lemma {:induction false} FieldsTextHolds(order: seq<string>, data: Fields, show: Value -> string, i: nat)
    requires forall j | 0 <= j < |order| :: order[j] in data
    requires i < |order|
    ensures var text := FieldsText(order, data, show);
            var at := |FieldsText(order[..i], data, show)|;
            var piece := FieldText(order[i], data[order[i]], show);
            && at + |piece| <= |text|
            && text[at..at + |piece|] == piece
    decreases i
  {
    var piece := FieldText(order[i], data[order[i]], show);
    var head := FieldText(order[0], data[order[0]], show);
    if i == 0 {
      assert order[..0] == [];
    } else {
      FieldsTextHolds(order[1..], data, show, i - 1);
      assert order[1..][i - 1] == order[i];
      assert order[..i][1..] == order[1..][..i - 1];
      assert order[..i][0] == order[0];
      var rest := FieldsText(order[1..], data, show);
      var at := |FieldsText(order[1..][..i - 1], data, show)|;
      assert FieldsText(order, data, show) == head + rest;
      assert |FieldsText(order[..i], data, show)| == |head| + at;
      assert (head + rest)[|head| + at..|head| + at + |piece|] == rest[at..at + |piece|];
    }
  }

  /** The "_source" entry, written without a trailing space, if present. */
  function SourceText(data: Fields, show: Value -> string): (r: string)
    ensures SourceKey !in data ==> r == ""
    ensures SourceKey in data ==> r == "[" + show(data[SourceKey]) + "]"
  {
    if SourceKey in data then "[" + show(data[SourceKey]) + "]" else ""
  }

  // ---------------------------------------------------------------------
  // The line

  /** `piece` occurs in `s` starting at `at`. */
  predicate OccursAt(s: string, piece: string, at: int) {
    0 <= at && at + |piece| <= |s| && s[at..at + |piece|] == piece
  }

  /** Where each part of a line made of five consecutive parts sits. */
  lemma {:induction false} LineParts(prefix: string, header: string, fields: string, message: string, tail: string)
    ensures var line := prefix + header + fields + message + tail;
            && prefix <= line
            && OccursAt(line, header, |prefix|)
            && OccursAt(line, fields, |prefix| + |header|)
            && OccursAt(line, message, |line| - |tail| - |message|)
            && OccursAt(line, tail, |line| - |tail|)
  {
    var line := prefix + header + fields + message + tail;
    assert line == prefix + (header + (fields + (message + tail)));
    assert line[..|prefix|] == prefix;
    assert line[|prefix|..] == header + (fields + (message + tail));
    assert (header + (fields + (message + tail)))[..|header|] == header;
    assert line[|prefix| + |header|..] == fields + (message + tail);
    assert (fields + (message + tail))[..|fields|] == fields;
    assert line[|prefix| + |header| + |fields|..] == message + tail;
    assert (message + tail)[..|message|] == message;
    assert line[|line| - |tail|..] == tail;
  }

  /** The first and last characters of a line made of five parts. */
  lemma LineEnds(prefix: string, header: string, fields: string, message: string, tail: string)
    ensures |header| > 0 && |tail| > 0 ==>
            var line := prefix + header + fields + message + tail;
            && line[|line| - 1] == tail[|tail| - 1]
            && line[0] == (if |prefix| > 0 then prefix[0] else header[0])
  {
    if |header| > 0 && |tail| > 0 {
      var line := prefix + header + fields + message + tail;
      assert line == (prefix + header) + (fields + message + tail);
      assert line[|line| - 1] == (fields + message + tail)[|fields + message + tail| - 1];
      assert line[0] == (prefix + header)[0];
    }
  }

  /** Five parts written one after another. */
  function Join5(prefix: string, header: string, fields: string, message: string, tail: string): (line: string)
    ensures |line| == |prefix| + |header| + |fields| + |message| + |tail|
    ensures prefix <= line
    ensures OccursAt(line, header, |prefix|)
    ensures OccursAt(line, fields, |prefix| + |header|)
    ensures OccursAt(line, message, |line| - |tail| - |message|)
    ensures OccursAt(line, tail, |line| - |tail|)
    ensures |header| > 0 && |tail| > 0 ==>
              line[|line| - 1] == tail[|tail| - 1]
              && line[0] == (if |prefix| > 0 then prefix[0] else header[0])
  {
    LineParts(prefix, header, fields, message, tail);
    LineEnds(prefix, header, fields, message, tail);
    prefix + header + fields + message + tail
  }

  /** The line written, and the entry's data afterwards. */
  datatype Formatted = Formatted(line: string, data: Fields)

  /** The header: time, level tag and the "_source" entry. */
  function Header(time: string, level: Level, data: Fields, show: Value -> string): (r: string)
    ensures |r| > 0 && r[0] == '['
  {
    "[" + time + "] " + LevelTag(level) + SourceText(data, show)
  }

  /** The reset that closes a coloured line, and the newline. */
  function Tail(colored: bool): (r: string)
    ensures |r| > 0 && r[|r| - 1] == '\n'
  {
    (if colored then ColorNone else "") + "\n"
  }

  /** A coloured line closes with the reset before its newline; a plain line
      with the newline alone. */
  lemma TailIsReset()
    ensures Tail(true) == ColorNone + "\n"
    ensures Tail(false) == "\n"
  {
  }

  /** A line from its parts: the colour when coloured, the header, the data
      entries, the message, and the tail. */
  function Assemble(colored: bool, level: Level, header: string, fields: string, message: string): (line: string)
    requires |header| > 0 && header[0] == '['
    ensures |line| > 0 && line[|line| - 1] == '\n'
    ensures colored ==> ColorOf(level) <= line
    ensures !colored ==> header <= line
    ensures line[0] == Escape <==> colored
    ensures |line| == (if colored then |ColorOf(level)| else 0) + |header| + |fields| + |message| + |Tail(colored)|
    ensures OccursAt(line, header, if colored then |ColorOf(level)| else 0)
    ensures OccursAt(line, Tail(colored), |line| - |Tail(colored)|)
    ensures OccursAt(line, message, |line| - |Tail(colored)| - |message|)
    ensures OccursAt(line, fields, (if colored then |ColorOf(level)| else 0) + |header|)
  {
    var prefix := if colored then ColorOf(level) else "";
    var tail := Tail(colored);
    Join5(prefix, header, fields, message, tail)
  }

  /** Format: the time text comes from an oracle, and `order` is the order in
      which the range visits the data once "_source" has been deleted. */
  function Format(f: Formatter, host: Host, time: string, level: Level, data: Fields,
                  message: string, order: seq<string>, show: Value -> string): (r: Formatted)
    requires IsEnumeration(order, data.Keys - {SourceKey})
    ensures r.data.Keys == data.Keys - {SourceKey}
    ensures forall k | k in r.data :: r.data[k] == data[k]
    ensures |r.line| > 0 && r.line[|r.line| - 1] == '\n'
    ensures Colored(f, host) ==> ColorOf(level) <= r.line
    ensures !Colored(f, host) ==> Header(time, level, data, show) <= r.line
    ensures r.line[0] == Escape <==> Colored(f, host)
    ensures |r.line| == (if Colored(f, host) then |ColorOf(level)| else 0) + |Header(time, level, data, show)|
                        + |FieldsText(order, data, show)| + |message| + |Tail(Colored(f, host))|
    ensures OccursAt(r.line, Header(time, level, data, show), if Colored(f, host) then |ColorOf(level)| else 0)
    ensures OccursAt(r.line, Tail(Colored(f, host)), |r.line| - |Tail(Colored(f, host))|)
    ensures OccursAt(r.line, message, |r.line| - |Tail(Colored(f, host))| - |message|)
    ensures OccursAt(r.line, FieldsText(order, data, show),
                     (if Colored(f, host) then |ColorOf(level)| else 0) + |Header(time, level, data, show)|)
  {
    var rest := data - {SourceKey};
    var header := Header(time, level, data, show);
    Formatted(Assemble(Colored(f, host), level, header, FieldsText(order, data, show), message), rest)
  }

  /** The position of a key in the visiting order. */
  function IndexOf(order: seq<string>, k: string): (i: nat)
    requires k in order
    ensures i < |order| && order[i] == k
  {
    if order[0] == k then 0 else 1 + IndexOf(order[1..], k)
  }

  /** A data entry's text sits among the entries' texts after those visited
      before it. */
  lemma FieldAmongFields(data: Fields, order: seq<string>, show: Value -> string, k: string)
    requires IsEnumeration(order, data.Keys - {SourceKey})
    requires k in data && k != SourceKey
    ensures k in order
    ensures OccursAt(FieldsText(order, data, show), FieldText(k, data[k], show),
                     |FieldsText(order[..IndexOf(order, k)], data, show)|)
  {
    assert k in order;
    FieldsTextHolds(order, data, show, IndexOf(order, k));
  }
}
