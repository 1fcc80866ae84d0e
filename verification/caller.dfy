/** Finding the source position a log line came from: frames whose file starts
    with a skipped prefix are passed over, at most ten frames are inspected, and
    the file path is cut down to its last directory and file name. The runtime's
    stack is an oracle from a skip count to an optional frame. */
module Caller {
  import opened Values

  /** A stack frame as the runtime reports it. */
  datatype Frame = Frame(pc: nat, file: string, line: int)

  /** The value getCaller returns when the runtime has no such frame. */
  const NoFrame := Frame(0, "", 0)

  /** findCaller gives up after this many frames. */
  const FrameLimit := 10

  // ---------------------------------------------------------------------
  // skipFile

  /** skipFile: the prefixes are tried in order and the first that starts the
      file name answers true. */
  function SkipFile(file: string, prefixes: seq<string>): bool
    decreases |prefixes|
  {
    if prefixes == [] then false
    else if prefixes[0] <= file then true
    else SkipFile(file, prefixes[1..])
  }

  /** A file is skipped exactly when some skipped prefix starts its name. */
  lemma {:induction false} SkipFileSpec(file: string, prefixes: seq<string>)
    ensures SkipFile(file, prefixes) <==> exists i | 0 <= i < |prefixes| :: prefixes[i] <= file
    decreases |prefixes|
  {
    if prefixes != [] && !(prefixes[0] <= file) {
      SkipFileSpec(file, prefixes[1..]);
      assert forall i | 1 <= i < |prefixes| :: prefixes[i] == prefixes[1..][i - 1];
    }
  }

  // ---------------------------------------------------------------------
  // Trimming the file path

  /** Number of '/' characters in `s`. */
  function Slashes(s: string): nat {
    if s == [] then 0 else (if s[0] == '/' then 1 else 0) + Slashes(s[1..])
  }

  lemma {:induction false} SlashesAppend(a: string, b: string)
    ensures Slashes(a + b) == Slashes(a) + Slashes(b)
    decreases |a|
  {
    if a != [] {
      SlashesAppend(a[1..], b);
      assert (a + b)[0] == a[0] && (a + b)[1..] == a[1..] + b;
    } else {
      assert a + b == b;
    }
  }

  /** The scan getCaller runs from the end of the path towards index 1, with
      `n` slashes seen after position `i`: at the second slash the path is cut
      just after it. Index 0 is never looked at. */
  function Scan(file: string, i: int, n: nat): string
    requires -1 <= i < |file|
    decreases i
  {
    if i <= 0 then file
    else if file[i] == '/' && n + 1 >= 2 then file[i + 1..]
    else Scan(file, i - 1, if file[i] == '/' then n + 1 else n)
  }

  /** getCaller's path trimming. */
  function Trim(file: string): string {
    Scan(file, |file| - 1, 0)
  }

  /** The result of the scan from position `i`: a suffix of the path; cut just
      after a slash at index at least 1, with exactly one slash left, when the
      slashes in file[1..] number two or more; the whole path otherwise. */
  lemma {:induction false} ScanCuts(file: string, i: int, n: nat)
    requires -1 <= i < |file| && n <= 1 && n == Slashes(file[i + 1..])
    ensures var r := Scan(file, i, n);
            && |r| <= |file| && r == file[|file| - |r|..]
            && (i >= 1 && Slashes(file[1..i + 1]) + n >= 2 ==>
                  |file| - |r| - 1 >= 1 && file[|file| - |r| - 1] == '/' && Slashes(r) == 1)
            && (i < 1 || Slashes(file[1..i + 1]) + n < 2 ==> r == file)
    decreases i
  {
    if i >= 1 {
      SlashesStep(file, i);
      if !(file[i] == '/' && n + 1 >= 2) {
        var m := if file[i] == '/' then n + 1 else n;
        ScanCuts(file, i - 1, m);
        assert i == 1 ==> Slashes(file[1..i]) == 0 by {
          if i == 1 {
            assert file[1..i] == [];
          }
        }
      }
    }
  }

  /** One more character of the path, seen from either end. */
  lemma SlashesStep(file: string, i: int)
    requires 1 <= i < |file|
    ensures Slashes(file[i..]) == (if file[i] == '/' then 1 else 0) + Slashes(file[i + 1..])
    ensures Slashes(file[1..i + 1]) == Slashes(file[1..i]) + (if file[i] == '/' then 1 else 0)
  {
    assert file[i..] == [file[i]] + file[i + 1..];
    assert file[1..i + 1] == file[1..i] + [file[i]];
    SlashesAppend(file[1..i], [file[i]]);
    assert Slashes([file[i]]) == (if file[i] == '/' then 1 else 0) + Slashes([file[i]][1..]);
  }

  /** Trim keeps a suffix of the path. When file[1..] holds at least two slashes
      the result is the text after the second-to-last of them, so it holds
      exactly one slash and is preceded by one; otherwise the path is returned
      unchanged, so a slash at index 0 never counts. */
  lemma TrimSpec(file: string)
    ensures var r := Trim(file);
            && |r| <= |file| && r == file[|file| - |r|..]
            && (|file| >= 1 && Slashes(file[1..]) >= 2 ==>
                  |file| - |r| - 1 >= 1 && file[|file| - |r| - 1] == '/' && Slashes(r) == 1)
            && (|file| <= 1 || Slashes(file[1..]) < 2 ==> Trim(file) == file)
  {
    ScanCuts(file, |file| - 1, 0);
    if |file| >= 1 {
      assert file[1..|file|] == file[1..];
    }
  }

  /** The trimmed path is determined by the description above: two suffixes of
      the same path, each preceded by a slash and holding exactly one, are equal. */
  lemma {:induction false} OneSlashSuffixIsUnique(file: string, r1: string, r2: string)
    requires |r1| < |file| && r1 == file[|file| - |r1|..] && file[|file| - |r1| - 1] == '/' && Slashes(r1) == 1
    requires |r2| < |file| && r2 == file[|file| - |r2|..] && file[|file| - |r2| - 1] == '/' && Slashes(r2) == 1
    ensures r1 == r2
  {
    if |r1| < |r2| {
      var k := |r2| - |r1| - 1;
      assert r2 == r2[..k] + [r2[k]] + r1;
      assert r2[k] == '/';
      SlashesAppend(r2[..k], [r2[k]]);
      SlashesAppend(r2[..k] + [r2[k]], r1);
    } else if |r2| < |r1| {
      var k := |r1| - |r2| - 1;
      assert r1 == r1[..k] + [r1[k]] + r2;
      assert r1[k] == '/';
      SlashesAppend(r1[..k], [r1[k]]);
      SlashesAppend(r1[..k] + [r1[k]], r2);
    }
  }

  /** A slash at index 0 is not counted: "/a/b" keeps its leading slash. */
  lemma LeadingSlashIsKept()
    ensures Trim("/a/b") == "/a/b"
    ensures Trim("x/a/b") == "a/b"
  {
    TrimSpec("/a/b");
    TrimSpec("x/a/b");
    assert "/a/b"[1..] == "a/b";
    assert Slashes("a/b") == 1;
    assert "x/a/b"[1..] == "/a/b";
    assert Slashes("/a/b") == 2;
    var r := Trim("x/a/b");
    OneSlashSuffixIsUnique("x/a/b", r, "a/b");
  }

  // ---------------------------------------------------------------------
  // getCaller and findCaller

  /** getCaller: the runtime's frame at `skip` with its path trimmed, or the
      zero frame when the runtime has none. */
  function GetCaller(skip: int, stack: int -> Option<Frame>): (r: Frame)
    ensures stack(skip).None? ==> r == NoFrame
    ensures stack(skip).Some? ==>
              r.pc == stack(skip).value.pc && r.line == stack(skip).value.line
              && r.file == Trim(stack(skip).value.file)
  {
    match stack(skip)
    case None => NoFrame
    case Some(f) => Frame(f.pc, Trim(f.file), f.line)
  }

  /** What findCaller settles on and how many frames it looked at. */
  datatype Found = Found(frame: Frame, inspected: nat)

  /** Whether the j-th frame from `skip` is passed over. */
  predicate SkippedAt(skip: int, j: int, stack: int -> Option<Frame>, prefixes: seq<string>) {
    SkipFile(GetCaller(skip + j, stack).file, prefixes)
  }

  /** The frame search from the i-th frame on. */
  function Search(skip: int, i: nat, stack: int -> Option<Frame>, prefixes: seq<string>): (r: Found)
    requires i < FrameLimit
    ensures i < r.inspected <= FrameLimit
    ensures r.frame == GetCaller(skip + r.inspected - 1, stack)
    ensures forall j | i <= j < r.inspected - 1 :: SkippedAt(skip, j, stack, prefixes)
    ensures r.inspected < FrameLimit ==> !SkipFile(r.frame.file, prefixes)
    decreases FrameLimit - i
  {
    var f := GetCaller(skip + i, stack);
    if !SkipFile(f.file, prefixes) || i == FrameLimit - 1 then Found(f, i + 1)
    else
      var r := Search(skip, i + 1, stack, prefixes);
      assert forall j | i <= j < r.inspected - 1 :: SkippedAt(skip, j, stack, prefixes) by {
        forall j | i <= j < r.inspected - 1
          ensures SkippedAt(skip, j, stack, prefixes)
        {
          if j == i {
            assert SkipFile(f.file, prefixes);
          }
        }
      }
      r
  }

  /** What findCaller returns: file, function name and line. */
  datatype Position = Position(file: string, functionName: string, line: int)

  /** A frame as findCaller reports it: the function is named after the
      program counter when that is non-zero, and is empty otherwise. */
  function PositionOf(f: Frame, functionAt: nat -> string): Position {
    Position(f.file, if f.pc != 0 then functionAt(f.pc) else "", f.line)
  }

  /** Frame k (counted from `skip`) is where the search settles: every frame
      before it is skipped, and it is kept unless it is the last one allowed. */
  ghost predicate Settles(skip: int, stack: int -> Option<Frame>, prefixes: seq<string>, k: nat) {
    && k < FrameLimit
    && (forall j | 0 <= j < k :: SkippedAt(skip, j, stack, prefixes))
    && (k < FrameLimit - 1 ==> !SkippedAt(skip, k, stack, prefixes))
  }

  /** findCaller: the first of the ten frames from `skip` on whose file is not
      skipped (the tenth if all are). */
  function FindCaller(skip: int, stack: int -> Option<Frame>, prefixes: seq<string>,
                      functionAt: nat -> string): (r: Position)
    ensures exists k: nat :: Settles(skip, stack, prefixes, k) && r == PositionOf(GetCaller(skip + k, stack), functionAt)
  {
    var found := Search(skip, 0, stack, prefixes);
    var k: nat := found.inspected - 1;
    assert Settles(skip, stack, prefixes, k);
    PositionOf(found.frame, functionAt)
  }

  /** Only one frame can be where the search settles. */
  lemma SettlesIsUnique(skip: int, stack: int -> Option<Frame>, prefixes: seq<string>, k1: nat, k2: nat)
    requires Settles(skip, stack, prefixes, k1) && Settles(skip, stack, prefixes, k2)
    ensures k1 == k2
  {
  }

  /** The search never looks past the first frame whose file is kept. */
  lemma SearchStopsAtFirstKept(skip: int, stack: int -> Option<Frame>, prefixes: seq<string>, k: nat)
    requires k < FrameLimit && !SkippedAt(skip, k, stack, prefixes)
    ensures Search(skip, 0, stack, prefixes).inspected <= k + 1
  {
  }

}
