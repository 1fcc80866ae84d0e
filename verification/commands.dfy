/** The vocabulary of a downlink command: the desired-state keys the dispatcher
    recognises, and the pure conversions it applies to their values before
    driving the camera (direction selector, turning angle, zoom step). */
module Commands {
  import opened Values
  import Ptz

  // Desired-state keys of the shadow command.
  const PtzControlKey := "PTZControl"
  const AngleKey := "Angle"
  const SnapshotKey := "Snapshot"
  const SnapshotUrlKey := "SnapshotURL"
  const ZoomKey := "Zoom"
  const SetPresetKey := "SetPreset"
  const GetPresetsKey := "GetPresets"
  const GotoPresetKey := "GotoPreset"
  const RemovePresetKey := "RemovePreset"
  const SetHomePositionKey := "SetHomePosition"
  const GotoHomePositionKey := "GotoHomePosition"
  const TimeCalibrationKey := "TimeCalibration"
  const TimeCalibrationDataKey := "TimeCalibrationData"
  const CameraStatusKey := "CameraStatus"

  /** The keys that all run the same pan/tilt/zoom control. */
  const PtzKeys: set<string> := {PtzControlKey, AngleKey, ZoomKey}

  /** The keys that trigger a device operation; any other key is ignored. */
  const CommandKeys: set<string> :=
    PtzKeys + {SnapshotKey, SetPresetKey, GetPresetsKey, GotoPresetKey, RemovePresetKey,
               SetHomePositionKey, GotoHomePositionKey, TimeCalibrationKey}

  /** The PtzControlKey value that sends the camera home instead of moving it. */
  const HomeSentinel := "9"

  /** The eight direction selectors. */
  const Selectors: set<string> := {"1", "2", "3", "4", "5", "6", "7", "8"}

  /** The angle used when the command carries no numeric AngleKey (1/64). */
  const DefaultAngle: real := 0.015625

  /** A numeric AngleKey is in degrees; the camera takes it divided by 90. */
  const DegreesPerUnit: real := 90.0

  // ---------------------------------------------------------------------
  // Direction selector

  /** The selector triple handed to the relative move. */
  datatype Motion = Motion(upOrDown: Ptz.Int8, leftOrRight: Ptz.Int8, zoom: Ptz.Int8)

  const Still := Motion(0, 0, 0)

  /** getPointer: a string selector "1".."8" picks one of the eight compass
      directions (left, right, up, down, then the four diagonals); any other
      value, string or not, stands still. ZoomKey is never set here. */
  function Pointer(id: Value): (r: Motion)
    ensures r.zoom == 0
    ensures r != Still <==> id.Str? && id.s in Selectors
    ensures -1 <= r.upOrDown <= 1 && -1 <= r.leftOrRight <= 1
  {
    if !id.Str? then Still
    else if id.s == "1" then Motion(0, -1, 0)
    else if id.s == "2" then Motion(0, 1, 0)
    else if id.s == "3" then Motion(1, 0, 0)
    else if id.s == "4" then Motion(-1, 0, 0)
    else if id.s == "5" then Motion(1, -1, 0)
    else if id.s == "6" then Motion(-1, -1, 0)
    else if id.s == "7" then Motion(1, 1, 0)
    else if id.s == "8" then Motion(-1, 1, 0)
    else Still
  }

  /** The selector that asks for a given direction: the inverse of the table. */
  function SelectorOf(upOrDown: int, leftOrRight: int): Option<string> {
    if upOrDown == 0 && leftOrRight == -1 then Some("1")
    else if upOrDown == 0 && leftOrRight == 1 then Some("2")
    else if upOrDown == 1 && leftOrRight == 0 then Some("3")
    else if upOrDown == -1 && leftOrRight == 0 then Some("4")
    else if upOrDown == 1 && leftOrRight == -1 then Some("5")
    else if upOrDown == -1 && leftOrRight == -1 then Some("6")
    else if upOrDown == 1 && leftOrRight == 1 then Some("7")
    else if upOrDown == -1 && leftOrRight == 1 then Some("8")
    else None
  }

  /** The table is a bijection between the eight selectors and the eight
      non-zero unit directions: each selector is recovered from its direction,
      and each direction is reached by exactly the selector naming it. */
  lemma PointerIsBijective(sel: string, upOrDown: int, leftOrRight: int)
    ensures sel in Selectors ==>
              SelectorOf(Pointer(Str(sel)).upOrDown, Pointer(Str(sel)).leftOrRight) == Some(sel)
    ensures -1 <= upOrDown <= 1 && -1 <= leftOrRight <= 1 && (upOrDown, leftOrRight) != (0, 0) ==>
              SelectorOf(upOrDown, leftOrRight).Some?
              && Pointer(Str(SelectorOf(upOrDown, leftOrRight).value)) == Motion(upOrDown, leftOrRight, 0)
  {
  }

  // ---------------------------------------------------------------------
  // AngleKey

  /** getAngle: a JSON number is taken as degrees and divided by 90; anything
      else (absent, null, a string) falls back to 1/64. */
  function AngleOf(speed: Value): (r: real)
    ensures speed.F64? ==> r * DegreesPerUnit == speed.f
    ensures !speed.F64? ==> r == DefaultAngle
  {
    if speed.F64? then speed.f / DegreesPerUnit else DefaultAngle
  }

  /** An angle sent as its value in degrees comes back as itself; anything
      other than a JSON number gets the default, whatever it holds. */
  lemma AngleRoundTrip(a: real, other: Value)
    requires !other.F64?
    ensures AngleOf(F64(a * DegreesPerUnit)) == a
    ensures AngleOf(other) == AngleOf(Nil) == DefaultAngle
  {
  }

  // ---------------------------------------------------------------------
  // ZoomKey step: strconv.Atoi, then a conversion to int8

  const MaxInt64: int := 0x7FFF_FFFF_FFFF_FFFF
  const MinInt64: int := -0x8000_0000_0000_0000
  const MaxUint64: int := 0xFFFF_FFFF_FFFF_FFFF

  predicate IsDigit(c: char) {
    '0' <= c <= '9'
  }

  predicate AllDigits(s: string) {
    forall i | 0 <= i < |s| :: IsDigit(s[i])
  }

  /** The longest prefix of `s` made of decimal digits. */
  function DigitPrefix(s: string): (p: string)
    ensures |p| <= |s| && p == s[..|p|] && AllDigits(p)
    ensures |p| < |s| ==> !IsDigit(s[|p|])
  {
    if s == [] || !IsDigit(s[0]) then []
    else [s[0]] + DigitPrefix(s[1..])
  }

  /** The number a string of digits spells in base 10. */
  function DigitsValue(s: string): nat
    requires AllDigits(s)
  {
    if s == [] then 0 else 10 * DigitsValue(s[..|s| - 1]) + (s[|s| - 1] as int - '0' as int)
  }

  /** A 64-bit signed result saturates at the bounds, as ParseInt does on a range error. */
  function Clamp64(x: int): (r: int)
    ensures MinInt64 <= r <= MaxInt64
    ensures MinInt64 <= x <= MaxInt64 ==> r == x
    ensures x > MaxInt64 ==> r == MaxInt64
    ensures x < MinInt64 ==> r == MinInt64
  {
    if x > MaxInt64 then MaxInt64 else if x < MinInt64 then MinInt64 else x
  }

  /** Go's `strconv.Atoi` on a 64-bit platform, keeping the value and dropping
      the error as the caller does. An optional sign, then base-10 digits; a
      syntax error yields 0. Digits are read left to right and the running value
      is checked for overflow before the next character is examined, so a digit
      run that overflows saturates even when a bad character follows it. */
  function Atoi(s: string): (r: int)
    ensures MinInt64 <= r <= MaxInt64
  {
    var neg := |s| > 0 && s[0] == '-';
    var body := if |s| > 0 && (s[0] == '-' || s[0] == '+') then s[1..] else s;
    var p := DigitPrefix(body);
    var v: int := DigitsValue(p);
    if |body| > 0 && (p == body || v > MaxUint64) then Clamp64(if neg then -v else v) else 0
  }

  /** The decimal rendering of a natural number. */
  function ShowNat(n: nat): (s: string)
    ensures |s| > 0 && AllDigits(s)
    decreases n
  {
    if n < 10 then [('0' as int + n) as char]
    else ShowNat(n / 10) + [('0' as int + n % 10) as char]
  }

  /** The decimal rendering of an integer, with a minus sign when negative. */
  function ShowInt(n: int): string {
    if n < 0 then "-" + ShowNat(-n) else ShowNat(n)
  }

  lemma {:induction false} DigitsValueShowNat(n: nat)
    ensures DigitsValue(ShowNat(n)) == n
    decreases n
  {
    var s := ShowNat(n);
    if n >= 10 {
      DigitsValueShowNat(n / 10);
      assert s[..|s| - 1] == ShowNat(n / 10);
    }
  }

  lemma {:induction false} DigitPrefixOfDigits(s: string)
    requires AllDigits(s)
    ensures DigitPrefix(s) == s
    decreases |s|
  {
    if s != [] {
      DigitPrefixOfDigits(s[1..]);
      assert [s[0]] + s[1..] == s;
    }
  }

  /** Atoi reads back every 64-bit integer from its decimal rendering. */
  lemma AtoiShowInt(n: int)
    requires MinInt64 <= n <= MaxInt64
    ensures Atoi(ShowInt(n)) == n
  {
    var m: nat := if n < 0 then -n else n;
    var digits := ShowNat(m);
    DigitsValueShowNat(m);
    DigitPrefixOfDigits(digits);
    if n < 0 {
      assert ShowInt(n)[1..] == digits;
    } else {
      assert digits[0] != '-' && digits[0] != '+' by { assert IsDigit(digits[0]); }
    }
  }

  /** The digit run at the front of `digits + rest` is `digits` when `rest`
      does not continue it. */
  lemma {:induction false} DigitPrefixStops(digits: string, rest: string)
    requires AllDigits(digits) && (rest == [] || !IsDigit(rest[0]))
    ensures DigitPrefix(digits + rest) == digits
    decreases |digits|
  {
    if digits == [] {
      assert digits + rest == rest;
    } else {
      DigitPrefixStops(digits[1..], rest);
      assert (digits + rest)[1..] == digits[1..] + rest;
      assert [digits[0]] + digits[1..] == digits;
    }
  }

  /** ParseInt's syntax errors read as 0: an empty string, a lone sign, and a
      bad character after a digit run that has not overflowed 64 unsigned bits
      (or at the very start, when it is not a sign). */
  lemma AtoiSyntaxErrors(digits: string, c: char, rest: string)
    ensures Atoi("") == 0 && Atoi("-") == 0 && Atoi("+") == 0
    ensures AllDigits(digits) && !IsDigit(c) && DigitsValue(digits) <= MaxUint64
            && (|digits| > 0 || (c != '-' && c != '+')) ==>
              Atoi(digits + [c] + rest) == 0
  {
    if AllDigits(digits) && !IsDigit(c) && DigitsValue(digits) <= MaxUint64 && (|digits| > 0 || (c != '-' && c != '+')) {
      var s := digits + [c] + rest;
      assert s == digits + ([c] + rest);
      DigitPrefixStops(digits, [c] + rest);
      if |digits| > 0 {
        assert s[0] == digits[0] && IsDigit(s[0]);
      } else {
        assert s[0] == c;
      }
    }
  }

  /** ParseInt's range errors saturate: a digit run beyond the signed range
      gives the bound of its sign when it ends the string, and also when a bad
      character follows it once it has overflowed 64 unsigned bits. */
  lemma AtoiSaturates(digits: string, rest: string)
    requires AllDigits(digits) && DigitsValue(digits) > MaxInt64
    requires rest == [] || !IsDigit(rest[0])
    requires rest == [] || DigitsValue(digits) > MaxUint64
    ensures Atoi(digits + rest) == MaxInt64
    ensures Atoi("-" + digits + rest) == MinInt64
  {
    DigitPrefixStops(digits, rest);
    AtoiOfRun(digits, rest, DigitsValue(digits));
  }

  /** Atoi of `digits + rest`, unsigned or after '-', when the digit run is
      `digits` and either ends the string or overflows 64 unsigned bits. */
  lemma AtoiOfRun(digits: string, rest: string, v: int)
    requires |digits| > 0 && AllDigits(digits) && v == DigitsValue(digits)
    requires DigitPrefix(digits + rest) == digits
    requires rest == [] || v > MaxUint64
    ensures Atoi(digits + rest) == Clamp64(v)
    ensures Atoi("-" + digits + rest) == Clamp64(0 - v)
  {
    var body := digits + rest;
    assert IsDigit(body[0]);
    assert rest == [] ==> digits == body;
    assert ("-" + digits + rest)[1..] == body;
  }

  /** Go's `int8(x)`: keep the low eight bits, read as two's complement. */
  function ToInt8(x: int): (r: Ptz.Int8)
    ensures (x - r) % 256 == 0
  {
    (x + 128) % 256 - 128
  }

  /** The conversion is the identity on values that already fit in eight bits. */
  lemma ToInt8Fits(x: int)
    requires -128 <= x < 128
    ensures ToInt8(x) == x
  {
  }

  /** The zoom step of a ZoomKey value: None where `Desired[ZoomKey].(string)` panics,
      that is for any non-string value. */
  function ZoomStep(v: Value): (r: Option<Ptz.Int8>)
    ensures r.Some? <==> v.Str?
    ensures r.Some? ==> (Atoi(v.s) - r.value) % 256 == 0
  {
    if v.Str? then Some(ToInt8(Atoi(v.s))) else None
  }

  /** A zoom string in -128..127 gives exactly that step. */
  lemma ZoomStepRoundTrip(step: int)
    requires -128 <= step < 128
    ensures ZoomStep(Str(ShowInt(step))) == Some(step as Ptz.Int8)
  {
    AtoiShowInt(step);
  }
}
