/** The camera operations the dispatcher runs, each a short fixed sequence of
    device calls. The camera and the HTTP peers are oracles: `answer` says how
    each call comes back. Every call a run makes is recorded, in order, so that
    "exactly one goto-home" or "no call at all" are statements about the trace.

    Three answers matter because the code treats them differently: a profile
    lookup that fails for any reason is returned as an error; an operation call
    whose transport fails leaves a nil response that the response parser then
    dereferences, which panics; a response that does not parse is returned as
    an error. */
module DeviceOps {
  import opened Values
  import Ptz
  import opened Commands

  /** One call made on behalf of a command, in the order it is made. */
  datatype Call =
    | GetProfiles
    | RelativeMove(move: Ptz.RelativeMoveRequest)
    | GotoHomePosition(home: Ptz.GotoHomeRequest)
    | SetHomePosition(profileToken: string)
    | SetPreset(preset: Ptz.SetPresetRequest)
    | GetPresets(profileToken: string)
    | GotoPreset(goto: Ptz.GotoPresetRequest)
    | RemovePreset(profileToken: string, presetToken: string)
    | GetSnapshotUri(profileToken: string)
    | FetchSnapshot
    | UploadSnapshot
    | SetSystemDateAndTime(dateTimeType: string, daylightSavings: bool, timeZone: string, at: int)
    | SpawnReport(key: string, value: Value)

  /** How a call comes back. */
  datatype Answer = Answered | Malformed | Unreachable

  /** What decoding the file server's reply to an upload gives: the file id of a
      well-formed reply, or whatever id a failed decode left behind. */
  datatype UploadReply = Decoded(fid: string) | Undecodable(partialFid: string)

  /** The camera's side of every call: its media profile token, its answers,
      Go's shortest float formatting of preset numbers, the file server's reply
      to a snapshot upload, and the clock (as a value and as formatted text).
      `errorText` is the text of the error a call that does not come back
      answered yields. */
  datatype Camera = Camera(
    profileToken: string,
    answer: Call -> Answer,
    errorText: Call -> string,
    formatFloat: real -> string,
    upload: UploadReply,
    now: int,
    formattedNow: string)

  /** How an operation ends: nil, an error wrapping `cause` with `context`, or
      a panic. */
  datatype Outcome = Done | Failed(context: string, cause: string) | Panicked

  /** The text of a wrapped error, as `%v` prints it: the context, a colon and
      a space, then the cause. */
  function ErrorText(o: Outcome): (text: string)
    requires o.Failed?
    ensures |text| == |o.context| + 2 + |o.cause|
    ensures text[..|o.context|] == o.context && text[|o.context| + 2..] == o.cause
  {
    o.context + ": " + o.cause
  }

  /** The calls an operation made and how it ended. */
  datatype Run = Run(calls: seq<Call>, outcome: Outcome)

  const ManualDateTime := "Manual"
  const CameraTimeZone := "CST-0"
  const PresetNamePrefix := "预置点 "
  const UploadFailedFid := "快照上传异常"

  /** The end of an operation whose last call got `a`: nil, the wrapped parse
      error, or the panic of parsing a nil response. */
  function Finish(calls: seq<Call>, a: Answer, context: string, cause: string): (r: Run)
    ensures r.calls == calls
    ensures r.outcome == Done <==> a == Answered
    ensures r.outcome == Panicked <==> a == Unreachable
    ensures r.outcome.Failed? ==> r.outcome == Failed(context, cause)
  {
    match a
    case Answered => Run(calls, Done)
    case Malformed => Run(calls, Failed(context, cause))
    case Unreachable => Run(calls, Panicked)
  }

  /** The common shape of the PTZ operations: look up the media profiles, and
      when that works make `op` with the profile's token. */
  function OnProfile(cam: Camera, profileContext: string, op: Call, opContext: string): (r: Run)
    ensures cam.answer(GetProfiles) != Answered ==> r == Run([GetProfiles], Failed(profileContext, cam.errorText(GetProfiles)))
    ensures cam.answer(GetProfiles) == Answered ==> r.calls == [GetProfiles, op]
    ensures cam.answer(GetProfiles) == Answered ==> (r.outcome == Done <==> cam.answer(op) == Answered)
    ensures r.outcome == Panicked <==> cam.answer(GetProfiles) == Answered && cam.answer(op) == Unreachable
    ensures cam.answer(GetProfiles) == Answered && r.outcome.Failed? ==> r.outcome == Failed(opContext, cam.errorText(op))
  {
    if cam.answer(GetProfiles) != Answered then Run([GetProfiles], Failed(profileContext, cam.errorText(GetProfiles)))
    else Finish([GetProfiles, op], cam.answer(op), opContext, cam.errorText(op))
  }

  /** PTZControlMove: a relative move by the given selectors and angle. */
  function ControlMove(cam: Camera, m: Motion, angle: real): (r: Run)
    ensures cam.answer(GetProfiles) == Answered ==>
              |r.calls| == 2 && r.calls[1].RelativeMove?
              && r.calls[1].move == Ptz.RelativeMove(m.upOrDown, m.leftOrRight, m.zoom, angle, cam.profileToken)
    ensures cam.answer(GetProfiles) != Answered ==> r.calls == [GetProfiles]
    ensures r.outcome.Failed? ==> r.outcome.context == "PTZControlMove err"
  {
    OnProfile(cam, "PTZControlMove err",
              RelativeMove(Ptz.RelativeMove(m.upOrDown, m.leftOrRight, m.zoom, angle, cam.profileToken)),
              "PTZControlMove err")
  }

  /** PTZGotoHomePosition. */
  function GotoHome(cam: Camera): (r: Run)
    ensures r.calls == [GetProfiles] || r.calls == [GetProfiles, GotoHomePosition(Ptz.GotoHome(cam.profileToken))]
    ensures |r.calls| == 2 <==> cam.answer(GetProfiles) == Answered
    ensures r.outcome.Failed? ==> r.outcome.context == "PTZGotoHomePosition err"
  {
    OnProfile(cam, "PTZGotoHomePosition err", GotoHomePosition(Ptz.GotoHome(cam.profileToken)), "PTZGotoHomePosition err")
  }

  /** PTZSetHomePosition. */
  function SetHome(cam: Camera): (r: Run)
    ensures r.calls == [GetProfiles] || r.calls == [GetProfiles, SetHomePosition(cam.profileToken)]
    ensures r.outcome.Failed? ==> r.outcome.context == "PTZSetHomePosition err"
  {
    OnProfile(cam, "PTZSetHomePosition err", SetHomePosition(cam.profileToken), "PTZSetHomePosition err")
  }

  /** PTZSetPreset: the preset number, formatted, is both the token and the
      suffix of the preset's name. */
  function SetPresetOp(cam: Camera, preset: real): (r: Run)
    ensures |r.calls| == 2 ==>
              r.calls[1].SetPreset?
              && r.calls[1].preset.presetToken == cam.formatFloat(preset)
              && r.calls[1].preset.presetName == PresetNamePrefix + cam.formatFloat(preset)
              && r.calls[1].preset.profileToken == cam.profileToken
    ensures r.outcome.Failed? ==> r.outcome.context == "PTZSetPreset err"
  {
    var token := cam.formatFloat(preset);
    OnProfile(cam, "PTZSetPreset err", SetPreset(Ptz.SetPreset(cam.profileToken, PresetNamePrefix + token, token)), "PTZSetPreset err")
  }

  /** The error of parsing a response body that has already been read to its
      end: the parser sees no XML at all, which is io.EOF. */
  const DrainedBodyError := "EOF"

  /** PTZGetPresets as written. The response body is read to its end once to
      log the SOAP message and then read again to parse it, so the parse sees
      nothing: any response that comes back ends in the drained-body error. A
      dropped call leaves a nil response, and logging it panics. */
  function GetPresetsOp(cam: Camera): (r: Run)
    ensures r.calls == [GetProfiles] || r.calls == [GetProfiles, GetPresets(cam.profileToken)]
    ensures r.outcome != Done
    ensures r.outcome.Failed? ==> r.outcome.context == "PTZGetPresets err"
    ensures |r.calls| == 2 ==>
              r.outcome == (if cam.answer(GetPresets(cam.profileToken)) == Unreachable then Panicked
                            else Failed("PTZGetPresets err", DrainedBodyError))
  {
    var once := GetPresetsOpIntended(cam);
    if |once.calls| == 2 && once.outcome != Panicked then Run(once.calls, Failed("PTZGetPresets err", DrainedBodyError))
    else once
  }

  /** PTZGetPresets with the body read once: the profile lookup, then the
      get-presets request, which ends as its answer says. */
  function GetPresetsOpIntended(cam: Camera): (r: Run)
    ensures r.calls == [GetProfiles] || r.calls == [GetProfiles, GetPresets(cam.profileToken)]
    ensures r.outcome.Failed? ==> r.outcome.context == "PTZGetPresets err"
  {
    OnProfile(cam, "PTZGetPresets err", GetPresets(cam.profileToken), "PTZGetPresets err")
  }

  /** As written, get-presets never returns nil: a camera that answers the
      request well still yields the drained-body error, where reading the body
      once yields nil. The two differ only there. */
  lemma GetPresetsNeverSucceeds(cam: Camera)
    ensures GetPresetsOp(cam).outcome != Done
    ensures GetPresetsOp(cam).calls == GetPresetsOpIntended(cam).calls
    ensures GetPresetsOpIntended(cam).outcome.Failed? || GetPresetsOpIntended(cam).outcome == Panicked ==>
              GetPresetsOp(cam).outcome.Failed? || GetPresetsOp(cam).outcome == Panicked
    ensures cam.answer(GetProfiles) == Answered && cam.answer(GetPresets(cam.profileToken)) == Answered ==>
              && GetPresetsOp(cam).outcome == Failed("PTZGetPresets err", DrainedBodyError)
              && GetPresetsOpIntended(cam).outcome == Done
  {
  }

  /** PTZGotoPreset: its two failures carry different contexts. */
  function GotoPresetOp(cam: Camera, preset: real): (r: Run)
    ensures r.calls == [GetProfiles]
            || r.calls == [GetProfiles, GotoPreset(Ptz.GotoPreset(cam.profileToken, cam.formatFloat(preset)))]
    ensures r.outcome.Failed? ==>
              r.outcome.context == (if |r.calls| == 1 then "GetProfiles err" else "PTZ_GotoPreset err")
  {
    OnProfile(cam, "GetProfiles err", GotoPreset(Ptz.GotoPreset(cam.profileToken, cam.formatFloat(preset))), "PTZ_GotoPreset err")
  }

  /** PTZRemovePresets. */
  function RemovePresetOp(cam: Camera, preset: real): (r: Run)
    ensures r.calls == [GetProfiles] || r.calls == [GetProfiles, RemovePreset(cam.profileToken, cam.formatFloat(preset))]
    ensures r.outcome.Failed? ==> r.outcome.context == "PTZRemovePresets err"
  {
    OnProfile(cam, "PTZRemovePresets err", RemovePreset(cam.profileToken, cam.formatFloat(preset)), "PTZRemovePresets err")
  }

  /** Without the media profiles every PTZ operation stops after that first
      call, with its own context wrapping the lookup's error. */
  lemma ProfilesGatePtzOperations(cam: Camera, preset: real, m: Motion, angle: real)
    requires cam.answer(GetProfiles) != Answered
    ensures var lost := cam.errorText(GetProfiles);
            && SetHome(cam) == Run([GetProfiles], Failed("PTZSetHomePosition err", lost))
            && GotoHome(cam) == Run([GetProfiles], Failed("PTZGotoHomePosition err", lost))
            && GetPresetsOp(cam) == Run([GetProfiles], Failed("PTZGetPresets err", lost))
            && SetPresetOp(cam, preset) == Run([GetProfiles], Failed("PTZSetPreset err", lost))
            && GotoPresetOp(cam, preset) == Run([GetProfiles], Failed("GetProfiles err", lost))
            && RemovePresetOp(cam, preset) == Run([GetProfiles], Failed("PTZRemovePresets err", lost))
            && ControlMove(cam, m, angle) == Run([GetProfiles], Failed("PTZControlMove err", lost))
  {
  }

  /** With the profiles known, each PTZ operation's second call acts on the
      camera's profile, and the operation ends as that call's answer says;
      get-presets as written fails on any answer that comes back. */
  lemma ProfileOperationsFollowTheirCall(cam: Camera)
    requires cam.answer(GetProfiles) == Answered
    ensures SetHome(cam).calls == [GetProfiles, SetHomePosition(cam.profileToken)]
    ensures GetPresetsOp(cam).calls == [GetProfiles, GetPresets(cam.profileToken)]
    ensures GotoHome(cam).calls[1].home.profileToken == SetHome(cam).calls[1].profileToken
    ensures SetHome(cam).outcome == Done <==> cam.answer(SetHomePosition(cam.profileToken)) == Answered
    ensures GetPresetsOpIntended(cam).outcome == Done <==> cam.answer(GetPresets(cam.profileToken)) == Answered
    ensures GetPresetsOp(cam).outcome == Panicked <==> cam.answer(GetPresets(cam.profileToken)) == Unreachable
    ensures cam.answer(SetHomePosition(cam.profileToken)) == Malformed ==>
              SetHome(cam).outcome == Failed("PTZSetHomePosition err", cam.errorText(SetHomePosition(cam.profileToken)))
  {
  }

  /** Setting, going to and removing preset `p` all name the same preset
      token, on the same profile; the name set is the prefix and that token. */
  lemma PresetOpsShareToken(cam: Camera, p: real)
    requires cam.answer(GetProfiles) == Answered
    ensures var setting := SetPresetOp(cam, p).calls[1];
            var going := GotoPresetOp(cam, p).calls[1];
            var removing := RemovePresetOp(cam, p).calls[1];
            && setting.SetPreset? && going.GotoPreset? && removing.RemovePreset?
            && setting.preset.presetToken == going.goto.presetToken == removing.presetToken
            && setting.preset.profileToken == going.goto.profileToken == removing.profileToken == cam.profileToken
            && setting.preset.presetName == PresetNamePrefix + removing.presetToken
  {
  }

  // ---------------------------------------------------------------------
  // Snapshot

  /** The file id sendSnapshot returns, as written: the error test is inverted,
      so a reply that decodes yields "" and only a failed decode yields an id. */
  function UploadedFid(reply: UploadReply): (fid: string)
    ensures reply.Decoded? ==> fid == ""
  {
    match reply
    case Decoded(_) => ""
    case Undecodable(partial) => partial
  }

  /** The file id sendSnapshot evidently means to return: the decoded id on
      success and "" on a decode failure. */
  function UploadedFidIntended(reply: UploadReply): (fid: string)
    ensures reply.Decoded? ==> fid == reply.fid
    ensures reply.Undecodable? ==> fid == ""
  {
    match reply
    case Decoded(f) => f
    case Undecodable(_) => ""
  }

  /** getSnapshot's substitution: an empty file id is reported as the upload
      failure text; any other id is reported as is. */
  function ReportedFid(fid: string): (r: string)
    ensures r != ""
    ensures fid != "" ==> r == fid
    ensures fid == "" ==> r == UploadFailedFid
  {
    if fid == "" then UploadFailedFid else fid
  }

  /** As written, a successful upload is always reported as a failed one. */
  lemma SuccessfulUploadReportedAsFailure(fid: string)
    ensures ReportedFid(UploadedFid(Decoded(fid))) == UploadFailedFid
  {
  }

  /** With the test the right way round, the uploaded file's id is reported
      whenever the reply decodes with one, and only an empty or undecodable
      reply is reported as the failure text. */
  lemma IntendedUploadReportsFid(reply: UploadReply)
    ensures reply.Decoded? && reply.fid != "" ==> ReportedFid(UploadedFidIntended(reply)) == reply.fid
    ensures ReportedFid(UploadedFidIntended(reply)) == UploadFailedFid <==>
              (reply.Undecodable? || reply.fid == "" || reply.fid == UploadFailedFid)
  {
  }

  /** SnapshotUri, given the file id getSnapshot ends up reporting: look up
      the profile and the snapshot URI, fetch the image (a failed request
      leaves a nil response whose body is closed: a panic), upload it (same),
      then hand the reported id to the asynchronous reporter. Once the URI is
      known the operation returns nil. */
  function SnapshotReporting(cam: Camera, reported: string): (r: Run)
    ensures r.outcome.Failed? ==> r.outcome.context == "SnapshotUri err"
    ensures r.outcome == Done <==>
              cam.answer(GetProfiles) == Answered && cam.answer(GetSnapshotUri(cam.profileToken)) == Answered
              && cam.answer(FetchSnapshot) != Unreachable && cam.answer(UploadSnapshot) != Unreachable
    ensures r.outcome == Done ==>
              r.calls == [GetProfiles, GetSnapshotUri(cam.profileToken), FetchSnapshot, UploadSnapshot,
                          SpawnReport(SnapshotUrlKey, Str(reported))]
    ensures r.outcome != Done ==> forall i | 0 <= i < |r.calls| :: !r.calls[i].SpawnReport?
  {
    var uri := OnProfile(cam, "SnapshotUri err", GetSnapshotUri(cam.profileToken), "SnapshotUri err");
    if uri.outcome != Done then uri
    else if cam.answer(FetchSnapshot) == Unreachable then Run(uri.calls + [FetchSnapshot], Panicked)
    else if cam.answer(UploadSnapshot) == Unreachable then Run(uri.calls + [FetchSnapshot, UploadSnapshot], Panicked)
    else Run(uri.calls + [FetchSnapshot, UploadSnapshot, SpawnReport(SnapshotUrlKey, Str(reported))], Done)
  }

  /** The snapshot operation as written: the id reported is the one the
      inverted upload test yields. */
  function SnapshotOp(cam: Camera): (r: Run)
    ensures r.outcome.Failed? ==> r.outcome.context == "SnapshotUri err"
    ensures r.outcome == Done <==>
              cam.answer(GetProfiles) == Answered && cam.answer(GetSnapshotUri(cam.profileToken)) == Answered
              && cam.answer(FetchSnapshot) != Unreachable && cam.answer(UploadSnapshot) != Unreachable
    ensures r.outcome == Done ==>
              r.calls == [GetProfiles, GetSnapshotUri(cam.profileToken), FetchSnapshot, UploadSnapshot,
                          SpawnReport(SnapshotUrlKey, Str(ReportedFid(UploadedFid(cam.upload))))]
  {
    SnapshotReporting(cam, ReportedFid(UploadedFid(cam.upload)))
  }

  /** The snapshot operation with the upload test the right way round. */
  function SnapshotOpIntended(cam: Camera): (r: Run)
    ensures r.outcome.Failed? ==> r.outcome.context == "SnapshotUri err"
    ensures r.outcome == Done <==>
              cam.answer(GetProfiles) == Answered && cam.answer(GetSnapshotUri(cam.profileToken)) == Answered
              && cam.answer(FetchSnapshot) != Unreachable && cam.answer(UploadSnapshot) != Unreachable
    ensures r.outcome == Done ==>
              r.calls == [GetProfiles, GetSnapshotUri(cam.profileToken), FetchSnapshot, UploadSnapshot,
                          SpawnReport(SnapshotUrlKey, Str(ReportedFid(UploadedFidIntended(cam.upload))))]
  {
    SnapshotReporting(cam, ReportedFid(UploadedFidIntended(cam.upload)))
  }

  /** As written, a snapshot that is taken and uploaded with a decodable reply
      reports the failure text instead of the file id; the intended operation
      makes the same calls and reports the id. */
  lemma SnapshotReportsFailureText(cam: Camera)
    requires cam.upload.Decoded? && cam.upload.fid != ""
    requires SnapshotOp(cam).outcome == Done
    ensures SnapshotOp(cam).calls[4] == SpawnReport(SnapshotUrlKey, Str(UploadFailedFid))
    ensures SnapshotOpIntended(cam).outcome == Done
    ensures SnapshotOpIntended(cam).calls[4] == SpawnReport(SnapshotUrlKey, Str(cam.upload.fid))
    ensures SnapshotOpIntended(cam).calls[..4] == SnapshotOp(cam).calls[..4]
  {
  }

  // ---------------------------------------------------------------------
  // Time calibration

  /** DeviceSetSystemDateAndTime: no profile lookup; set the clock manually,
      without daylight saving, in zone CST-0, to the current time; once the
      reply parses, hand the formatted time to the asynchronous reporter. */
  function TimeCalibrationOp(cam: Camera): (r: Run)
    ensures |r.calls| >= 1 && r.calls[0] == SetSystemDateAndTime(ManualDateTime, false, CameraTimeZone, cam.now)
    ensures r.outcome == Done <==> cam.answer(r.calls[0]) == Answered
    ensures r.outcome == Done ==> r.calls == [r.calls[0], SpawnReport(TimeCalibrationDataKey, Str(cam.formattedNow))]
    ensures r.outcome != Done ==> |r.calls| == 1
    ensures r.outcome.Failed? ==> r.outcome.context == "SetSystemDateAndTime err"
  {
    var setClock := SetSystemDateAndTime(ManualDateTime, false, CameraTimeZone, cam.now);
    var run := Finish([setClock], cam.answer(setClock), "SetSystemDateAndTime err", cam.errorText(setClock));
    if run.outcome == Done then Run([setClock, SpawnReport(TimeCalibrationDataKey, Str(cam.formattedNow))], Done)
    else run
  }

  /** Time calibration does not look up the profiles: two cameras that answer
      the clock call alike (and agree on the clock) calibrate alike. */
  lemma TimeCalibrationSkipsProfiles(cam: Camera, other: Camera)
    requires other.now == cam.now && other.formattedNow == cam.formattedNow
    requires var setClock := SetSystemDateAndTime(ManualDateTime, false, CameraTimeZone, cam.now);
             other.answer(setClock) == cam.answer(setClock) && other.errorText(setClock) == cam.errorText(setClock)
    ensures TimeCalibrationOp(other) == TimeCalibrationOp(cam)
    ensures forall i | 0 <= i < |TimeCalibrationOp(cam).calls| :: TimeCalibrationOp(cam).calls[i] != GetProfiles
  {
  }
}
