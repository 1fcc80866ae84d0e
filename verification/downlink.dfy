/** The downlink dispatcher: one shadow command's desired keys, visited in Go's
    map order, each run through the fixed command table against the camera. The
    dispatcher reports nothing back itself; the caller turns its result into
    command states. */
module Downlink {
  import opened Values
  import opened Twins
  import opened Commands
  import opened DeviceOps
  import Ptz

  // ---------------------------------------------------------------------
  // Pan/tilt/zoom control

  /** The relative move a run made, if its second call is one. */
  function MoveIn(r: Run): Option<Ptz.RelativeMoveRequest> {
    if |r.calls| == 2 && r.calls[1].RelativeMove? then Some(r.calls[1].move) else None
  }

  /** getPTZControlResult. A PTZControl of exactly the string "9" sends the
      camera home and ignores Angle and Zoom. Otherwise a missing or null Zoom
      moves in the selector's direction, and a string Zoom zooms by its parsed
      step with pan and tilt held still; a Zoom of any other type makes the
      string assertion panic before any call. The angle is always the one
      getAngle derives from Angle. */
  function ControlResult(desired: Fields, cam: Camera): (r: Run)
    ensures Get(desired, PtzControlKey) == Str(HomeSentinel) ==>
              MoveIn(r).None? && (r.calls == [GetProfiles] || r.calls == [GetProfiles, GotoHomePosition(Ptz.GotoHome(cam.profileToken))])
    ensures Get(desired, PtzControlKey) != Str(HomeSentinel) ==>
              forall i | 0 <= i < |r.calls| :: !r.calls[i].GotoHomePosition?
    ensures Get(desired, PtzControlKey) != Str(HomeSentinel) && Get(desired, ZoomKey).Nil?
            && cam.answer(GetProfiles) == Answered ==>
              var m := Pointer(Get(desired, PtzControlKey));
              MoveIn(r) == Some(Ptz.RelativeMove(m.upOrDown, m.leftOrRight, 0, AngleOf(Get(desired, AngleKey)), cam.profileToken))
    ensures Get(desired, PtzControlKey) != Str(HomeSentinel) && Get(desired, ZoomKey).Str?
            && cam.answer(GetProfiles) == Answered ==>
              MoveIn(r) == Some(Ptz.RelativeMove(0, 0, ZoomStep(Get(desired, ZoomKey)).value, AngleOf(Get(desired, AngleKey)), cam.profileToken))
    ensures r.outcome == Panicked && r.calls == [] <==>
              Get(desired, PtzControlKey) != Str(HomeSentinel) && !Get(desired, ZoomKey).Nil? && !Get(desired, ZoomKey).Str?
  {
    var id := Get(desired, PtzControlKey);
    if id == Str(HomeSentinel) then GotoHome(cam)
    else
      var angle := AngleOf(Get(desired, AngleKey));
      var zoom := Get(desired, ZoomKey);
      if zoom.Nil? then ControlMove(cam, Pointer(id), angle)
      else match ZoomStep(zoom)
        case None => Run([], Panicked)
        case Some(step) => ControlMove(cam, Motion(0, 0, step), angle)
  }

  /** Whatever Angle and Zoom hold, the home sentinel runs the same goto-home. */
  lemma HomeIgnoresAngleAndZoom(desired: Fields, cam: Camera, angle: Value, zoom: Value)
    requires Get(desired, PtzControlKey) == Str(HomeSentinel)
    ensures ControlResult(desired[AngleKey := angle][ZoomKey := zoom], cam) == ControlResult(desired, cam) == GotoHome(cam)
  {
    var d := desired[AngleKey := angle][ZoomKey := zoom];
    assert Get(d, PtzControlKey) == Get(desired, PtzControlKey);
  }

  /** With a string Zoom the direction selector is irrelevant: any two
      non-sentinel PTZControl values give the same run. */
  lemma ZoomOverridesDirection(desired: Fields, cam: Camera, id: Value)
    requires Get(desired, ZoomKey).Str?
    requires Get(desired, PtzControlKey) != Str(HomeSentinel) && id != Str(HomeSentinel)
    ensures ControlResult(desired[PtzControlKey := id], cam) == ControlResult(desired, cam)
  {
    var d := desired[PtzControlKey := id];
    assert Get(d, ZoomKey) == Get(desired, ZoomKey);
    assert Get(d, AngleKey) == Get(desired, AngleKey);
  }

  // ---------------------------------------------------------------------
  // The command table

  /** The values the table's type assertions accept: Zoom absent, null or a
      string, and each preset number a JSON number. */
  predicate WellTyped(desired: Fields) {
    && (Get(desired, ZoomKey).Nil? || Get(desired, ZoomKey).Str?)
    && (SetPresetKey in desired ==> desired[SetPresetKey].F64?)
    && (GotoPresetKey in desired ==> desired[GotoPresetKey].F64?)
    && (RemovePresetKey in desired ==> desired[RemovePresetKey].F64?)
  }

  /** A camera and file server that never drop a call. */
  ghost predicate Reachable(cam: Camera) {
    forall c: Call :: cam.answer(c) != Unreachable
  }

  /** One desired key through the switch: None for a key the table does not
      know, which runs nothing. `intended` selects the snapshot operation with
      the upload test the right way round; every other entry is the same. */
  function Dispatch(key: string, desired: Fields, cam: Camera, intended: bool): (r: Option<Run>)
    requires key in desired
    ensures r.None? <==> key !in CommandKeys
    ensures key in PtzKeys ==> r == Some(ControlResult(desired, cam))
    ensures key == SnapshotKey ==> r == Some(if intended then SnapshotOpIntended(cam) else SnapshotOp(cam))
    ensures key == SetPresetKey ==>
              r == Some(if desired[key].F64? then SetPresetOp(cam, desired[key].f) else Run([], Panicked))
    ensures key == GetPresetsKey ==> r == Some(GetPresetsOp(cam))
    ensures key == GotoPresetKey ==>
              r == Some(if desired[key].F64? then GotoPresetOp(cam, desired[key].f) else Run([], Panicked))
    ensures key == RemovePresetKey ==>
              r == Some(if desired[key].F64? then RemovePresetOp(cam, desired[key].f) else Run([], Panicked))
    ensures key == SetHomePositionKey ==> r == Some(SetHome(cam))
    ensures key == GotoHomePositionKey ==> r == Some(GotoHome(cam))
    ensures key == TimeCalibrationKey ==> r == Some(TimeCalibrationOp(cam))
  {
    if key in PtzKeys then Some(ControlResult(desired, cam))
    else if key == SnapshotKey then Some(if intended then SnapshotOpIntended(cam) else SnapshotOp(cam))
    else if key == SetPresetKey then
      Some(if desired[SetPresetKey].F64? then SetPresetOp(cam, desired[SetPresetKey].f) else Run([], Panicked))
    else if key == GetPresetsKey then Some(GetPresetsOp(cam))
    else if key == GotoPresetKey then
      Some(if desired[GotoPresetKey].F64? then GotoPresetOp(cam, desired[GotoPresetKey].f) else Run([], Panicked))
    else if key == RemovePresetKey then
      Some(if desired[RemovePresetKey].F64? then RemovePresetOp(cam, desired[RemovePresetKey].f) else Run([], Panicked))
    else if key == SetHomePositionKey then Some(SetHome(cam))
    else if key == GotoHomePositionKey then Some(GotoHome(cam))
    else if key == TimeCalibrationKey then Some(TimeCalibrationOp(cam))
    else None
  }

  /** An entry panics only on an ill-typed value or a dropped call. */
  lemma DispatchPanicsOnlyWhen(key: string, desired: Fields, cam: Camera, intended: bool)
    requires key in desired
    ensures var r := Dispatch(key, desired, cam, intended);
            r.Some? && r.value.outcome == Panicked ==> !WellTyped(desired) || !Reachable(cam)
  {
    var r := Dispatch(key, desired, cam, intended);
    if r.Some? && r.value.outcome == Panicked && WellTyped(desired) {
      if key in PtzKeys {
        assert Get(desired, ZoomKey).Nil? || Get(desired, ZoomKey).Str?;
      } else if key == SnapshotKey {
        SnapshotPanicNeedsDrop(cam, intended);
      }
    }
  }

  lemma SnapshotPanicNeedsDrop(cam: Camera, intended: bool)
    ensures var r := if intended then SnapshotOpIntended(cam) else SnapshotOp(cam);
            r.outcome == Panicked ==> !Reachable(cam)
  {
  }

  /** Only the PTZ keys and GotoHomePosition move the camera. */
  lemma DispatchMovesOnlyOnPtzOrHome(key: string, desired: Fields, cam: Camera, intended: bool)
    requires key in desired
    ensures var r := Dispatch(key, desired, cam, intended);
            r.Some? && key !in PtzKeys && key != GotoHomePositionKey ==>
              forall i | 0 <= i < |r.value.calls| :: !r.value.calls[i].RelativeMove? && !r.value.calls[i].GotoHomePosition?
  {
    var r := Dispatch(key, desired, cam, intended);
    if r.Some? && key !in PtzKeys && key != GotoHomePositionKey && key == SnapshotKey {
      var run := r.value;
      assert run.outcome == Done ==> |run.calls| == 5;
    }
  }

  /** Two calls that agree, except that both may be the snapshot report with
      different file ids. */
  predicate SameButReportedFid(a: Call, b: Call) {
    a == b || (a.SpawnReport? && b.SpawnReport? && a.key == SnapshotUrlKey && b.key == SnapshotUrlKey)
  }

  predicate SameCallsButReportedFid(a: seq<Call>, b: seq<Call>) {
    |a| == |b| && forall i | 0 <= i < |a| :: SameButReportedFid(a[i], b[i])
  }

  lemma SameCallsAppend(a: seq<Call>, b: seq<Call>, c: seq<Call>, d: seq<Call>)
    requires SameCallsButReportedFid(a, b) && SameCallsButReportedFid(c, d)
    ensures SameCallsButReportedFid(a + c, b + d)
  {
    assert forall i | |a| <= i < |a + c| :: (a + c)[i] == c[i - |a|] && (b + d)[i] == d[i - |a|];
  }

  /** The two snapshot operations end alike and make the same calls; only the
      id in the report they spawn may differ. */
  lemma SnapshotOpsAlike(cam: Camera)
    ensures SnapshotOpIntended(cam).outcome == SnapshotOp(cam).outcome
    ensures SameCallsButReportedFid(SnapshotOpIntended(cam).calls, SnapshotOp(cam).calls)
  {
    var a := SnapshotOpIntended(cam);
    var b := SnapshotOp(cam);
    if a.outcome == Done {
      assert SameButReportedFid(a.calls[4], b.calls[4]);
    } else {
      assert a == b;
    }
  }

  /** The corrected table differs from the one as written only in the snapshot
      report's file id. */
  lemma DispatchAlike(key: string, desired: Fields, cam: Camera)
    requires key in desired
    ensures Dispatch(key, desired, cam, true).Some? == Dispatch(key, desired, cam, false).Some?
    ensures Dispatch(key, desired, cam, true).Some? ==>
              && Dispatch(key, desired, cam, true).value.outcome == Dispatch(key, desired, cam, false).value.outcome
              && SameCallsButReportedFid(Dispatch(key, desired, cam, true).value.calls, Dispatch(key, desired, cam, false).value.calls)
  {
    if key == SnapshotKey {
      SnapshotOpsAlike(cam);
    } else if key in CommandKeys {
      var calls := Dispatch(key, desired, cam, true).value.calls;
      assert SameCallsButReportedFid(calls, calls);
    }
  }

  /** The state of the dispatch loop: the calls so far, the first error an
      operation returned, and whether an operation panicked. Go's `send` keeps
      only the latest result and is never read, so as written the failure
      recorded here is discarded; the corrected handler returns it. */
  datatype Handled = Handled(calls: seq<Call>, failure: Option<Outcome>, panicked: bool)

  function FailureOf(run: Run): (f: Option<Outcome>)
    ensures f.Some? <==> run.outcome.Failed?
    ensures f.Some? ==> f.value == run.outcome
  {
    if run.outcome.Failed? then Some(run.outcome) else None
  }

  /** The loop over the desired keys: each recognised key runs its operation;
      the first failure is kept; an unrecognised key runs nothing; a panic ends
      the loop (and unwinds the caller). */
  function RunKeys(keys: seq<string>, desired: Fields, cam: Camera, intended: bool, failure: Option<Outcome>): (r: Handled)
    requires forall i | 0 <= i < |keys| :: keys[i] in desired
    ensures keys == [] ==> r == Handled([], failure, false)
    ensures failure.Some? ==> r.failure == failure
    ensures failure.None? && r.failure.Some? ==> r.failure.value.Failed?
    decreases |keys|
  {
    if keys == [] then Handled([], failure, false)
    else match Dispatch(keys[0], desired, cam, intended)
      case None => RunKeys(keys[1..], desired, cam, intended, failure)
      case Some(run) =>
        if run.outcome == Panicked then Handled(run.calls, failure, true)
        else
          var rest := RunKeys(keys[1..], desired, cam, intended, if failure.Some? then failure else FailureOf(run));
          Handled(run.calls + rest.calls, rest.failure, rest.panicked)
  }

  /** The loop through the corrected table makes the as-written loop's calls
      (up to the snapshot report's id), panics alike and meets the same failure. */
  lemma {:induction false} RunKeysAlike(keys: seq<string>, desired: Fields, cam: Camera, failure: Option<Outcome>)
    requires forall i | 0 <= i < |keys| :: keys[i] in desired
    ensures var a := RunKeys(keys, desired, cam, true, failure);
            var b := RunKeys(keys, desired, cam, false, failure);
            a.panicked == b.panicked && a.failure == b.failure && SameCallsButReportedFid(a.calls, b.calls)
    decreases |keys|
  {
    if keys != [] {
      DispatchAlike(keys[0], desired, cam);
      match Dispatch(keys[0], desired, cam, false)
      case None =>
        RunKeysAlike(keys[1..], desired, cam, failure);
      case Some(run) =>
        var fixed := Dispatch(keys[0], desired, cam, true).value;
        if run.outcome != Panicked {
          var next := if failure.Some? then failure else FailureOf(run);
          RunKeysAlike(keys[1..], desired, cam, next);
          SameCallsAppend(fixed.calls, run.calls, RunKeys(keys[1..], desired, cam, true, next).calls,
                          RunKeys(keys[1..], desired, cam, false, next).calls);
        }
    }
  }

  /** handlerCameraDownLink as written: no operation at all for an empty
      CommandID; otherwise every key is dispatched. The result is nil whatever
      the operations returned; only a panic escapes. */
  function HandleDownLink(resp: ResponseTwins, cam: Camera, order: seq<string>): (r: Run)
    requires IsEnumeration(order, resp.payload.state.desired.Keys)
    ensures resp.commandId == "" ==> r == Run([], Done)
    ensures !r.outcome.Failed?
  {
    if resp.commandId == "" then Run([], Done)
    else
      var h := RunKeys(order, resp.payload.state.desired, cam, false, None);
      Run(h.calls, if h.panicked then Panicked else Done)
  }

  /** Key `keys[i]` is recognised and its operation returns an error. */
  predicate FailsAt(keys: seq<string>, i: int, desired: Fields, cam: Camera, intended: bool)
    requires 0 <= i < |keys| && keys[i] in desired
  {
    var r := Dispatch(keys[i], desired, cam, intended);
    r.Some? && r.value.outcome.Failed?
  }

  /** handlerCameraDownLink as evidently intended: return the first error an
      operation returned, so that a failed operation reaches the caller, and
      report the uploaded snapshot's id. It makes the calls of the handler as
      written (up to that id) and panics alike; it fails exactly when some
      recognised key's operation failed. */
  function HandleDownLinkIntended(resp: ResponseTwins, cam: Camera, order: seq<string>): (r: Run)
    requires IsEnumeration(order, resp.payload.state.desired.Keys)
    ensures SameCallsButReportedFid(r.calls, HandleDownLink(resp, cam, order).calls)
    ensures r.outcome == Panicked <==> HandleDownLink(resp, cam, order).outcome == Panicked
    ensures resp.commandId == "" ==> r == Run([], Done)
  {
    if resp.commandId == "" then Run([], Done)
    else
      var desired := resp.payload.state.desired;
      var h := RunKeys(order, desired, cam, true, None);
      RunKeysAlike(order, desired, cam, None);
      Run(h.calls, if h.panicked then Panicked else if h.failure.Some? then h.failure.value else Done)
  }

  /** The intended handler fails exactly when the command has an id, nothing
      panicked, and some recognised key's operation failed; the error it
      returns is then the first such key's. */
  lemma IntendedFailsIffSomeKeyFailed(resp: ResponseTwins, cam: Camera, order: seq<string>)
    requires IsEnumeration(order, resp.payload.state.desired.Keys)
    ensures var r := HandleDownLinkIntended(resp, cam, order);
            r.outcome.Failed? <==>
              && resp.commandId != "" && r.outcome != Panicked
              && exists i | 0 <= i < |order| :: FailsAt(order, i, resp.payload.state.desired, cam, true)
    ensures var r := HandleDownLinkIntended(resp, cam, order);
            r.outcome.Failed? ==>
              exists i | 0 <= i < |order| ::
                && FailsAt(order, i, resp.payload.state.desired, cam, true)
                && r.outcome == Dispatch(order[i], resp.payload.state.desired, cam, true).value.outcome
                && forall j | 0 <= j < i :: !FailsAt(order, j, resp.payload.state.desired, cam, true)
  {
    if resp.commandId != "" {
      var desired := resp.payload.state.desired;
      IntendedFailsIffSomeKeyFails(order, desired, cam, true, None);
      IntendedReportsFirstFailure(order, desired, cam, true, None);
    }
  }

  /** A command with a single recognised key whose operation fails: the
      handler as written still returns nil, while the intended handler returns
      that operation's error. */
  lemma SingleFailureIsSwallowed(resp: ResponseTwins, cam: Camera, key: string)
    requires resp.commandId != ""
    requires resp.payload.state.desired.Keys == {key}
    requires Dispatch(key, resp.payload.state.desired, cam, false).Some?
    requires Dispatch(key, resp.payload.state.desired, cam, false).value.outcome.Failed?
    ensures HandleDownLink(resp, cam, [key]).outcome == Done
    ensures HandleDownLinkIntended(resp, cam, [key]).outcome
            == Dispatch(key, resp.payload.state.desired, cam, false).value.outcome
  {
    var desired := resp.payload.state.desired;
    DispatchAlike(key, desired, cam);
    assert [key][1..] == [];
    var run := Dispatch(key, desired, cam, false).value;
    assert RunKeys([key], desired, cam, false, None) == Handled(run.calls + [], FailureOf(run), false);
    var fixed := Dispatch(key, desired, cam, true).value;
    assert RunKeys([key], desired, cam, true, None) == Handled(fixed.calls + [], FailureOf(fixed), false);
  }

  /** Some key of a non-empty sequence fails exactly when its first key or
      some key of its tail does. */
  lemma FailsSomewhereCons(keys: seq<string>, desired: Fields, cam: Camera, intended: bool)
    requires |keys| >= 1 && forall i | 0 <= i < |keys| :: keys[i] in desired
    ensures (exists i | 0 <= i < |keys| :: FailsAt(keys, i, desired, cam, intended))
            <==> FailsAt(keys, 0, desired, cam, intended)
                 || exists j | 0 <= j < |keys| - 1 :: FailsAt(keys[1..], j, desired, cam, intended)
  {
    var tail := keys[1..];
    if exists i | 0 <= i < |keys| :: FailsAt(keys, i, desired, cam, intended) {
      var i :| 0 <= i < |keys| && FailsAt(keys, i, desired, cam, intended);
      if i > 0 {
        assert FailsAt(tail, i - 1, desired, cam, intended);
      }
    }
    if exists j | 0 <= j < |tail| :: FailsAt(tail, j, desired, cam, intended) {
      var j :| 0 <= j < |tail| && FailsAt(tail, j, desired, cam, intended);
      assert FailsAt(keys, j + 1, desired, cam, intended);
    }
  }

  /** The loop's failure, unless it panicked, is present exactly when one was
      given or some recognised key failed. */
  lemma {:induction false} IntendedFailsIffSomeKeyFails(keys: seq<string>, desired: Fields, cam: Camera, intended: bool, failure: Option<Outcome>)
    requires forall i | 0 <= i < |keys| :: keys[i] in desired
    ensures var h := RunKeys(keys, desired, cam, intended, failure);
            !h.panicked ==>
              (h.failure.Some? <==> failure.Some? || exists i | 0 <= i < |keys| :: FailsAt(keys, i, desired, cam, intended))
    decreases |keys|
  {
    if keys != [] {
      FailsSomewhereCons(keys, desired, cam, intended);
      match Dispatch(keys[0], desired, cam, intended)
      case None =>
        IntendedFailsIffSomeKeyFails(keys[1..], desired, cam, intended, failure);
      case Some(run) =>
        if run.outcome != Panicked {
          IntendedFailsIffSomeKeyFails(keys[1..], desired, cam, intended, if failure.Some? then failure else FailureOf(run));
        }
    }
  }

  /** When the loop starts without a failure and ends with one (and no panic),
      the failure is the error of the first recognised key that failed. */
  lemma {:induction false} IntendedReportsFirstFailure(keys: seq<string>, desired: Fields, cam: Camera, intended: bool, failure: Option<Outcome>)
    requires forall i | 0 <= i < |keys| :: keys[i] in desired
    ensures var h := RunKeys(keys, desired, cam, intended, failure);
            !h.panicked && failure.None? && h.failure.Some? ==>
              exists i | 0 <= i < |keys| ::
                && FailsAt(keys, i, desired, cam, intended)
                && h.failure == Some(Dispatch(keys[i], desired, cam, intended).value.outcome)
                && forall j | 0 <= j < i :: !FailsAt(keys, j, desired, cam, intended)
    decreases |keys|
  {
    if keys != [] {
      var tail := keys[1..];
      assert forall j | 0 <= j < |tail| :: FailsAt(tail, j, desired, cam, intended) == FailsAt(keys, j + 1, desired, cam, intended);
      match Dispatch(keys[0], desired, cam, intended)
      case None =>
        IntendedReportsFirstFailure(tail, desired, cam, intended, failure);
        FirstFailureShift(keys, desired, cam, intended, failure, failure);
      case Some(run) =>
        if run.outcome != Panicked {
          var next := if failure.Some? then failure else FailureOf(run);
          IntendedReportsFirstFailure(tail, desired, cam, intended, next);
          if run.outcome.Failed? {
            assert FailsAt(keys, 0, desired, cam, intended);
          } else {
            FirstFailureShift(keys, desired, cam, intended, failure, next);
          }
        }
    }
  }

  /** The inductive step of IntendedReportsFirstFailure when the first key does
      not fail: the tail's first failure is the whole sequence's. */
  lemma FirstFailureShift(keys: seq<string>, desired: Fields, cam: Camera, intended: bool, failure: Option<Outcome>, next: Option<Outcome>)
    requires |keys| >= 1 && forall i | 0 <= i < |keys| :: keys[i] in desired
    requires !FailsAt(keys, 0, desired, cam, intended) && next == failure
    requires forall j | 0 <= j < |keys| - 1 :: FailsAt(keys[1..], j, desired, cam, intended) == FailsAt(keys, j + 1, desired, cam, intended)
    requires var h := RunKeys(keys[1..], desired, cam, intended, next);
             !h.panicked && next.None? && h.failure.Some? ==>
               exists i | 0 <= i < |keys| - 1 ::
                 && FailsAt(keys[1..], i, desired, cam, intended)
                 && h.failure == Some(Dispatch(keys[1..][i], desired, cam, intended).value.outcome)
                 && forall j | 0 <= j < i :: !FailsAt(keys[1..], j, desired, cam, intended)
    ensures var h := RunKeys(keys[1..], desired, cam, intended, next);
            !h.panicked && failure.None? && h.failure.Some? ==>
              exists i | 0 <= i < |keys| ::
                && FailsAt(keys, i, desired, cam, intended)
                && h.failure == Some(Dispatch(keys[i], desired, cam, intended).value.outcome)
                && forall j | 0 <= j < i :: !FailsAt(keys, j, desired, cam, intended)
  {
    var h := RunKeys(keys[1..], desired, cam, intended, next);
    if !h.panicked && failure.None? && h.failure.Some? {
      var i :| 0 <= i < |keys| - 1
               && FailsAt(keys[1..], i, desired, cam, intended)
               && h.failure == Some(Dispatch(keys[1..][i], desired, cam, intended).value.outcome)
               && forall j | 0 <= j < i :: !FailsAt(keys[1..], j, desired, cam, intended);
      FirstFailingIndexShift(keys, desired, cam, intended, i);
    }
  }

  /** The first failing key of the tail, one place on, is the first failing
      key of the whole sequence when its head does not fail. */
  lemma FirstFailingIndexShift(keys: seq<string>, desired: Fields, cam: Camera, intended: bool, i: int)
    requires |keys| >= 1 && forall k | 0 <= k < |keys| :: keys[k] in desired
    requires 0 <= i < |keys| - 1 && !FailsAt(keys, 0, desired, cam, intended)
    requires forall j | 0 <= j < |keys| - 1 :: FailsAt(keys[1..], j, desired, cam, intended) == FailsAt(keys, j + 1, desired, cam, intended)
    requires FailsAt(keys[1..], i, desired, cam, intended)
    requires forall j | 0 <= j < i :: !FailsAt(keys[1..], j, desired, cam, intended)
    ensures keys[1..][i] == keys[i + 1] && FailsAt(keys, i + 1, desired, cam, intended)
    ensures forall j | 0 <= j < i + 1 :: !FailsAt(keys, j, desired, cam, intended)
  {
    forall j | 0 <= j < i + 1 ensures !FailsAt(keys, j, desired, cam, intended) {
      if j > 0 {
        assert !FailsAt(keys[1..], j - 1, desired, cam, intended);
      }
    }
  }

  // ---------------------------------------------------------------------
  // One move per PTZ key

  predicate IsMotion(c: Call) {
    c.RelativeMove? || c.GotoHomePosition?
  }

  function CountMotions(calls: seq<Call>): nat {
    if calls == [] then 0 else (if IsMotion(calls[0]) then 1 else 0) + CountMotions(calls[1..])
  }

  lemma {:induction false} CountMotionsAppend(a: seq<Call>, b: seq<Call>)
    ensures CountMotions(a + b) == CountMotions(a) + CountMotions(b)
    decreases |a|
  {
    if a != [] {
      assert (a + b)[1..] == a[1..] + b;
      CountMotionsAppend(a[1..], b);
    } else {
      assert a + b == b;
    }
  }

  lemma {:induction false} CountMotionsNone(calls: seq<Call>)
    requires forall i | 0 <= i < |calls| :: !IsMotion(calls[i])
    ensures CountMotions(calls) == 0
    decreases |calls|
  {
    if calls != [] {
      CountMotionsNone(calls[1..]);
    }
  }

  /** With the profiles available, one control run makes exactly one motion call. */
  lemma ControlMovesOnce(desired: Fields, cam: Camera)
    requires WellTyped(desired)
    requires cam.answer(GetProfiles) == Answered
    ensures CountMotions(ControlResult(desired, cam).calls) == 1
  {
    var r := ControlResult(desired, cam);
    if Get(desired, PtzControlKey) == Str(HomeSentinel) {
      assert r.calls == [GetProfiles, GotoHomePosition(Ptz.GotoHome(cam.profileToken))];
    } else {
      assert MoveIn(r).Some?;
    }
    assert |r.calls| == 2 && !IsMotion(r.calls[0]) && IsMotion(r.calls[1]);
    assert r.calls[1..][1..] == [];
    assert CountMotions(r.calls[1..]) == 1;
  }

  /** A key's share of the motion calls: one for a PTZ key, none for the others
      (goto-home aside, which is a motion of its own). */
  lemma DispatchMotions(key: string, desired: Fields, cam: Camera)
    requires key in desired && key != GotoHomePositionKey
    requires WellTyped(desired) && cam.answer(GetProfiles) == Answered
    ensures Dispatch(key, desired, cam, false).Some? ==>
              CountMotions(Dispatch(key, desired, cam, false).value.calls) == (if key in PtzKeys then 1 else 0)
  {
    if key in PtzKeys {
      ControlMovesOnce(desired, cam);
    } else if Dispatch(key, desired, cam, false).Some? {
      DispatchMovesOnlyOnPtzOrHome(key, desired, cam, false);
      var calls := Dispatch(key, desired, cam, false).value.calls;
      CountMotionsNone(calls);
    }
  }

  lemma {:induction false} RunKeysMotions(keys: seq<string>, desired: Fields, cam: Camera, failure: Option<Outcome>)
    requires forall i | 0 <= i < |keys| :: keys[i] in desired && keys[i] != GotoHomePositionKey
    requires WellTyped(desired) && Reachable(cam) && cam.answer(GetProfiles) == Answered
    ensures var h := RunKeys(keys, desired, cam, false, failure);
            !h.panicked && CountMotions(h.calls) == CountIn(keys, PtzKeys)
    decreases |keys|
  {
    if keys != [] {
      DispatchMotions(keys[0], desired, cam);
      DispatchPanicsOnlyWhen(keys[0], desired, cam, false);
      match Dispatch(keys[0], desired, cam, false)
      case None =>
        RunKeysMotions(keys[1..], desired, cam, failure);
      case Some(run) =>
        var next := if failure.Some? then failure else FailureOf(run);
        RunKeysMotions(keys[1..], desired, cam, next);
        var rest := RunKeys(keys[1..], desired, cam, false, next);
        CountMotionsAppend(run.calls, rest.calls);
    }
  }

  /** Each of PTZControl, Angle and Zoom present runs its own control, so a
      well-typed command to a reachable camera makes exactly as many motion calls
      as it has PTZ keys (a command that also asks for goto-home aside). In
      particular PTZControl "9" together with an Angle goes home twice. */
  lemma OneMovePerPtzKey(resp: ResponseTwins, cam: Camera, order: seq<string>)
    requires IsEnumeration(order, resp.payload.state.desired.Keys)
    requires resp.commandId != ""
    requires GotoHomePositionKey !in resp.payload.state.desired
    requires WellTyped(resp.payload.state.desired) && Reachable(cam) && cam.answer(GetProfiles) == Answered
    ensures var r := HandleDownLink(resp, cam, order);
            r.outcome == Done && CountMotions(r.calls) == |resp.payload.state.desired.Keys * PtzKeys|
  {
    var desired := resp.payload.state.desired;
    RunKeysMotions(order, desired, cam, None);
    CountInEnumeration(order, desired.Keys, PtzKeys);
  }
}
