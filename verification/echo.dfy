/** Structured device logging: log levels and their names, the log entry whose
    tid/pid/did travel in dedicated fields, message composition (with the red
    span for errors) and the one event each log call marks on the bus. */
module Echo {
  import opened Values
  import Bus

  /** Go's `uint32` Level. */
  type Level = x: int | 0 <= x < 0x1_0000_0000

  const ErrorLevel: Level := 1
  const ActiveLevel: Level := 2
  const UpLinkLevel: Level := 3
  const DownLinkLevel: Level := 4
  const OnLineLevel: Level := 5
  const OffLineLevel: Level := 6
  const UpgradeUpLevel: Level := 7
  const UpgradeDownLevel: Level := 8
  const AttackLevel: Level := 9

  const UnknownName := "unknown"
  const DeviceLogIndex := "device"
  const Separator := "\t\t"
  const RedOpen := "<span style=\"color:red;\">"
  const RedClose := "</span>"

  /** The name of a level; anything outside 1..9 is "unknown". */
  function LevelName(level: Level): string {
    match level
    case 1 => "error"
    case 2 => "active"
    case 3 => "upLink"
    case 4 => "downLink"
    case 5 => "online"
    case 6 => "offline"
    case 7 => "upgradeUp"
    case 8 => "upgradeDown"
    case 9 => "Attack"
    case _ => UnknownName
  }

  /** The level a name denotes; the partner of LevelName. */
  function LevelOfName(name: string): Option<Level> {
    if name == "error" then Some(ErrorLevel)
    else if name == "active" then Some(ActiveLevel)
    else if name == "upLink" then Some(UpLinkLevel)
    else if name == "downLink" then Some(DownLinkLevel)
    else if name == "online" then Some(OnLineLevel)
    else if name == "offline" then Some(OffLineLevel)
    else if name == "upgradeUp" then Some(UpgradeUpLevel)
    else if name == "upgradeDown" then Some(UpgradeDownLevel)
    else if name == "Attack" then Some(AttackLevel)
    else None
  }

  /** The nine levels have nine distinct names, each of which reads back as its
      level; every other value, 0 included, is "unknown", which reads back as no level. */
  lemma LevelNameRoundTrip(level: Level)
    ensures ErrorLevel <= level <= AttackLevel ==> LevelOfName(LevelName(level)) == Some(level)
    ensures !(ErrorLevel <= level <= AttackLevel) ==> LevelName(level) == UnknownName
    ensures LevelOfName(LevelName(level)).None? <==> LevelName(level) == UnknownName
  {
  }

  /** A log entry. In Go it is a pointer that every call mutates and returns;
      here each call returns the updated value. */
  datatype Entry = Entry(tid: int, pid: int, did: string, data: Fields, level: Level, message: string)

  /** The zero entry that `new(Entry)` allocates. */
  const EmptyEntry := Entry(0, 0, "", map[], 0, "")

  /** The keys WithFields moves into dedicated fields instead of Data. */
  const Routed: set<string> := {"tid", "pid", "did"}

  /** The Go type assertions `v.(int32)` / `v.(string)` on the routed keys succeed. */
  predicate RoutedWellTyped(fields: Fields, k: string)
    requires k in fields
  {
    (k == "tid" || k == "pid" ==> fields[k].I32?) && (k == "did" ==> fields[k].Str?)
  }

  /** Merging the keys `ks` of `fields` into `e`: the reference definition of WithFields,
      over any subset of the keys so that a loop over a prefix can be described. */
  function MergeOver(e: Entry, fields: Fields, ks: set<string>): Option<Entry>
    requires ks <= fields.Keys
  {
    if exists k | k in ks :: !RoutedWellTyped(fields, k) then None
    else Some(e.(
      tid := if "tid" in ks then fields["tid"].i else e.tid,
      pid := if "pid" in ks then fields["pid"].i else e.pid,
      did := if "did" in ks then fields["did"].s else e.did,
      data := map k | k in e.data.Keys + (ks - Routed) :: if k in ks - Routed then fields[k] else e.data[k]))
  }

  /** WithFields as a whole. A mistyped tid/pid/did makes Go's type assertion
      panic (None); whether it panics does not depend on the visiting order. */
  function Merged(e: Entry, fields: Fields): (r: Option<Entry>)
    ensures r.Some? <==> forall k | k in fields :: RoutedWellTyped(fields, k)
    ensures r.Some? ==> forall k | k in e.data :: k in r.value.data
    ensures r.Some? ==> forall k | k in e.data && k !in fields :: r.value.data[k] == e.data[k]
    ensures r.Some? ==> forall k | k in fields && k !in Routed :: k in r.value.data && r.value.data[k] == fields[k]
    ensures r.Some? ==> forall k | k in r.value.data :: k in e.data || k in fields
    ensures r.Some? ==> forall k | k in Routed && k !in e.data :: k !in r.value.data
    ensures r.Some? ==> r.value.tid == (if "tid" in fields then fields["tid"].i else e.tid)
    ensures r.Some? ==> r.value.pid == (if "pid" in fields then fields["pid"].i else e.pid)
    ensures r.Some? ==> r.value.did == (if "did" in fields then fields["did"].s else e.did)
    ensures r.Some? ==> r.value.level == e.level && r.value.message == e.message
  {
    MergeOver(e, fields, fields.Keys)
  }

  /** WithFields, visiting the keys in Go's (unspecified) map order: copy Data,
      then route tid/pid/did into their fields and every other key into Data.
      The result is the same whatever the order. */
  method WithFields(e: Entry, fields: Fields, order: seq<string>) returns (r: Option<Entry>)
    requires IsEnumeration(order, fields.Keys)
    ensures r == Merged(e, fields)
  {
    var tid, pid, did, data := e.tid, e.pid, e.did, e.data;
    var i := 0;
    ghost var seen: set<string> := {};
    assert MergeOver(e, fields, seen).value.data == e.data;
    while i < |order|
      invariant 0 <= i <= |order|
      invariant seen == set j | 0 <= j < i :: order[j]
      invariant seen <= fields.Keys
      invariant MergeOver(e, fields, seen) == Some(e.(tid := tid, pid := pid, did := did, data := data))
      decreases |order| - i
    {
      var k := order[i];
      var v := fields[k];
      if k == "tid" {
        if !v.I32? {
          assert !RoutedWellTyped(fields, k);
          return None;
        }
        tid := v.i;
      } else if k == "pid" {
        if !v.I32? {
          assert !RoutedWellTyped(fields, k);
          return None;
        }
        pid := v.i;
      } else if k == "did" {
        if !v.Str? {
          assert !RoutedWellTyped(fields, k);
          return None;
        }
        did := v.s;
      } else {
        data := data[k := v];
      }
      assert k !in seen;
      MergeOverStep(e, fields, seen, k);
      seen := seen + {k};
      i := i + 1;
    }
    assert seen == fields.Keys by {
      forall k | k in fields.Keys ensures k in seen {
        var j :| 0 <= j < |order| && order[j] == k;
      }
    }
    r := Some(e.(tid := tid, pid := pid, did := did, data := data));
  }

  /** Adding one well-typed key to the merged set updates exactly the field or
      Data entry that key names. */
  lemma MergeOverStep(e: Entry, fields: Fields, ks: set<string>, k: string)
    requires ks <= fields.Keys && k in fields && k !in ks
    requires MergeOver(e, fields, ks).Some?
    requires RoutedWellTyped(fields, k)
    ensures var m := MergeOver(e, fields, ks).value;
            MergeOver(e, fields, ks + {k}) == Some(
              if k == "tid" then m.(tid := fields[k].i)
              else if k == "pid" then m.(pid := fields[k].i)
              else if k == "did" then m.(did := fields[k].s)
              else m.(data := m.data[k := fields[k]]))
  {
    var m := MergeOver(e, fields, ks).value;
    var ks' := ks + {k};
    assert forall x | x in ks' :: RoutedWellTyped(fields, x);
    var m' := MergeOver(e, fields, ks').value;
    if k !in Routed {
      assert m'.data == m.data[k := fields[k]];
    } else {
      assert m'.data == m.data;
    }
  }

  /** NewEntry: WithFields applied to the zero entry. */
  function NewEntry(fields: Fields): (r: Option<Entry>)
    ensures r == Merged(EmptyEntry, fields)
    ensures r.Some? ==> r.value.data.Keys == fields.Keys - Routed
  {
    Merged(EmptyEntry, fields)
  }

  /** WithError ignores the error and returns the entry unchanged. */
  function WithError(e: Entry, err: string): (r: Entry)
    ensures r == e
  {
    e
  }

  /** The nine level methods of the logger. */
  datatype LogMethod = Error | Active | UpLink | DownLink | OnLine | OffLine | UpgradeUp | UpgradeDown | Attack

  /** The level each method sets before echoing. */
  function MethodLevel(m: LogMethod): Level {
    match m
    case Error => ErrorLevel
    case Active => ActiveLevel
    case UpLink => UpLinkLevel
    case DownLink => DownLinkLevel
    case OnLine => OnLineLevel
    case OffLine => OffLineLevel
    case UpgradeUp => UpgradeUpLevel
    case UpgradeDown => UpgradeDownLevel
    case Attack => AttackLevel
  }

  /** Distinct methods set distinct levels, every one of them a named level, and
      only Error sets ErrorLevel. */
  lemma MethodLevelsAreDistinct(m1: LogMethod, m2: LogMethod)
    ensures m1 != m2 ==> MethodLevel(m1) != MethodLevel(m2)
    ensures LevelName(MethodLevel(m1)) != UnknownName
    ensures MethodLevel(m1) == ErrorLevel <==> m1 == Error
  {
  }

  /** The message echo stores: the formatted text, then a tab pair and the JSON
      of Data when Data is non-empty, the whole wrapped in a red span at ErrorLevel. */
  function Compose(level: Level, text: string, data: Fields, marshal: Fields -> string): (m: string)
    ensures level == ErrorLevel ==> |m| >= |RedOpen| + |RedClose|
                                    && m[..|RedOpen|] == RedOpen && m[|m| - |RedClose|..] == RedClose
    ensures var body := Unwrap(level, m);
            && |body| >= |text| && body[..|text|] == text
            && (|data| > 0 <==> |body| > |text|)
            && (|data| > 0 ==> body[|text|..] == Separator + marshal(data))
  {
    var body := if |data| > 0 then text + Separator + marshal(data) else text;
    var m := if level == ErrorLevel then RedOpen + body + RedClose else body;
    assert level == ErrorLevel ==> m[|RedOpen|..|m| - |RedClose|] == body;
    m
  }

  /** The message with the ErrorLevel span removed again. */
  function Unwrap(level: Level, m: string): string {
    if level == ErrorLevel && |m| >= |RedOpen| + |RedClose| then m[|RedOpen|..|m| - |RedClose|] else m
  }

  /** The fields of the one event each log call marks. */
  function MarkFields(e: Entry): Fields {
    map["tid" := I32(e.tid), "pid" := I32(e.pid), "did" := Str(e.did), "type" := U32(e.level), "message" := Str(e.message)]
  }

  datatype EchoResult = EchoResult(entry: Entry, pending: Bus.Pending, marked: bool)

  /** echo: compose the message, then mark exactly one event on the "device"
      index carrying tid, pid, did, type and message. A full bus drops the event
      (the error is only logged); nothing else of the entry changes. */
  function Echo(e: Entry, text: string, marshal: Fields -> string, pending: Bus.Pending, now: int): (r: EchoResult)
    ensures r.entry == e.(message := Compose(e.level, text, e.data, marshal))
    ensures r.marked <==> |pending| < Bus.EventBufferSize
    ensures !r.marked ==> r.pending == pending
    ensures r.marked ==> r.pending == pending + [Bus.Event(DeviceLogIndex, MarkFields(r.entry)[Bus.TimestampKey := Time(now)])]
  {
    var entry := e.(message := Compose(e.level, text, e.data, marshal));
    var m := Bus.Mark(pending, MarkFields(entry), DeviceLogIndex, now);
    EchoResult(entry, m.pending, m.err.None?)
  }

  /** A level method: set the method's level, then echo. Only Error wraps the
      message in the red span. */
  function Log(e: Entry, m: LogMethod, text: string, marshal: Fields -> string, pending: Bus.Pending, now: int): (r: EchoResult)
    ensures r.entry.level == MethodLevel(m)
    ensures r.entry.tid == e.tid && r.entry.pid == e.pid && r.entry.did == e.did && r.entry.data == e.data
    ensures r.entry.message == Compose(MethodLevel(m), text, e.data, marshal)
    ensures r.marked <==> |pending| < Bus.EventBufferSize
    ensures !r.marked ==> r.pending == pending
    ensures r.marked ==> |r.pending| == |pending| + 1 && r.pending[..|pending|] == pending
                         && r.pending[|pending|].index == DeviceLogIndex
  {
    Echo(e.(level := MethodLevel(m)), text, marshal, pending, now)
  }
}
