# camera: a Dafny model of the MQTT to ONVIF PTZ bridge

The camera service subscribes to shadow commands on an MQTT broker. It turns
each command into ONVIF requests for a pan/tilt/zoom camera. It reports the
command's state to a command service and publishes reports such as the
calibrated time or a snapshot's file id. Alongside this it keeps a structured
device log: entries are merged from fields, composed into messages, pushed
onto a bounded event bus and drained into a search-engine sink. Console log
lines get a coloured text format and a trimmed caller position.

This project models that sequential logic as pure Dafny functions over
immutable datatypes, and proves what each step promises.

- `values.dfy` (`Values`) holds Go's dynamic values (`interface{}`), field maps,
  `Option`, bytes, and the enumeration-order predicate. Go visits map keys in
  an unspecified order, so every range loop takes its order as a parameter
  constrained by `IsEnumeration`.
- `twins.dfy` (`Twins`) holds the shadow request/response records and the raw
  device payload.
- `mqtt.dfy` (`Mqtt`) covers ingress:
  - topic splitting and the `+` wildcard of section 4.7.1.3 of MQTT 3.1.1;
  - the 1024-slot non-blocking device queue;
  - the connect/reconnect loop, subscribe-on-connect and close ordering, all
    as a backend state with a recorded action trace.
- `commands.dfy` (`Commands`) holds the command keys and the direction-selector
  table. It also covers angle derivation and the zoom step, which is parsed by
  `strconv.Atoi` and narrowed to `int8`.
- `ptz.dfy` (`Ptz`) shapes the RelativeMove, GotoPreset, GotoHomePosition and
  SetPreset requests of the ONVIF PTZ Service Specification (section 5.3.2 for
  RelativeMove).
- `deviceops.dfy` (`DeviceOps`) covers each device operation of the downlink
  handler as a sequence of recorded camera calls. The camera's answers are an
  oracle. Each operation ends in nil, in a wrapped error with its context
  string, or in a panic.
- `downlink.dfy` (`Downlink`) covers `getPTZControlResult`, the per-key
  dispatch table and `handlerCameraDownLink`.
- `collect.dfy` (`Collect`) covers `collectCameraPacket`, with its ACK and
  terminal command-state trace, and the consumer loop `handlerCameraChan`.
- `report.dfy` (`Report`) covers `setMQTT` and the three report handlers.
- `echo.dfy` (`Echo`) covers level names, the `WithFields` merge, message
  composition with the red span for errors, the level setters and `echo`.
- `bus.dfy` (`Bus`) covers `Mark` as a bounded non-blocking FIFO and the
  draining event loop.
- `sink.dfy` (`Sink`) covers the configuration defaulting in `ESConfig.Init`,
  the client it hands out, and `ESClient.write`.
- `textformat.dfy` (`TextFormat`) covers the console line format: colour guard,
  level tag, the `_source` entry, data entries, message and reset.
- `caller.dfy` (`Caller`) covers `skipFile`, the path trimming of `getCaller`,
  and the ten-frame search of `findCaller`.

`collectCameraPacket` has a FAILED branch (downlink.go:89-91) that can never
run, because `handlerCameraDownLink` returns nil on every path
(downlink.go:137). The model follows the code as written. Next to it, it
models the evidently intended code for this and the other defects listed under
"## Findings". The corrected pipeline uses the corrected handler, snapshot and
consumer. The corrected get-presets (`DeviceOps.GetPresetsOpIntended`) is
stated on its own: both dispatch tables keep get-presets as written, so that
they differ only in the snapshot report's file id.

External effects are parameters:
- device answers, and the text of the error a failed call returns (`DeviceOps.Camera`);
- the registry lookup, the JSON decoder and the map order (`Collect.Env`);
- JSON marshalling;
- the clock, and time and float formatting;
- the broker's acceptance of a publish;
- the runtime's stack of frames (`Caller`).

## Model

| member | source | states |
|---|---|---|
| Mqtt.Split | mqtt.go:146 | Splitting on '/' gives at least one piece, and no piece contains '/' |
| Mqtt.JoinSplit | mqtt.go:146 | Re-joining the pieces of any topic with '/' gives the topic back |
| Mqtt.SplitJoin | mqtt.go:146 | Splitting a '/'-join of slash-free pieces gives exactly those pieces, so n separators make n+1 levels |
| Mqtt.DeviceId | mqtt.go:146-151 | A device id exists exactly when the topic has four levels; it is level 2 and holds no '/' |
| Mqtt.WildcardLevel | mqtt.go:76 | A topic that matches a four-level filter with '+' only at level 2 has four levels, and is the fixed levels around the matched one |
| Mqtt.CommandTopicRoundTrip | mqtt.go:146-151 | For every slash-free device id, its command topic matches the subscription "/x55P94801qK/+/get", and the handler extracts that same id |
| Mqtt.SubscribedTopicsAreAccepted | mqtt.go:146-151 | Every topic the subscription matches is accepted, and it is the command topic of the id taken from level 2 |
| Mqtt.DeviceHandler | mqtt.go:140-160 | A topic without four levels is rejected, and a full queue (1024 pending) drops the message. Either way the queue is unchanged; otherwise exactly one payload is appended at the tail, with its id and its bytes unchanged |
| Mqtt.OverflowDropsTheSurplus | mqtt.go:153-159 | 1025 messages for one device, delivered into an empty queue, leave exactly the first 1024 in arrival order; the last one is dropped |
| Mqtt.ConnectLoop | mqtt.go:192-201 | The loop ends connected exactly when some attempt succeeds, and nothing but the connection and the trace changes |
| Mqtt.ConnectLoopSucceeds | mqtt.go:192-201 | Up to the first accepted attempt, each refused attempt adds a new client, a refused connect and a 2 s sleep; the loop then adds a new client and the accepted connect, and stops |
| Mqtt.ConnectLoopKeepsTrying | mqtt.go:192-201 | While every attempt is refused, each one adds a new client, a refused connect and a 2 s sleep, and the loop stays disconnected |
| Mqtt.SleepsBeforeConnect | mqtt.go:194-196 | Connecting after k refusals sleeps exactly k times, 2 s each |
| Mqtt.OnConnected | mqtt.go:164-168 | A connect subscribes once to "/x55P94801qK/+/get" at the backend's QoS; a refused subscription is only logged and changes no state |
| Mqtt.OnConnectionLost | mqtt.go:170-176 | A lost connection first disconnects with a 250 ms quiesce, then runs the connect loop; it ends connected exactly when some attempt succeeds |
| Mqtt.Reconnect | mqtt.go:164-176 | After a loss and a successful connect loop the backend is connected again |
| Mqtt.ResubscribesOncePerReconnect | mqtt.go:164-176 | A loss followed by a reconnect starts with the disconnect and adds exactly one subscription to the trace |
| Mqtt.Close | mqtt.go:124-129 | Close disconnects with no quiesce, then waits for in-flight handlers, then closes the device channel, in that order. The client is left disconnected and the channel closed; QoS and queue are kept |
| Mqtt.CloseNeverReconnects | mqtt.go:124-129 | Close never connects or subscribes again and does not wait before disconnecting, while a lost connection waits 250 ms and ends connected once an attempt succeeds |
| Mqtt.PublishOn | mqtt.go:132-137 | A publish appends exactly one publish action, on the given topic at the backend's QoS, and changes nothing else. It fails exactly when the broker refuses it |
| Report.UpdateReport | handle.go:12-15 | The report has method "update", version 1, reported state exactly {key: value}, and no desired state |
| Report.UpdateReportInjective | handle.go:12-15 | Different key/value pairs give different reports |
| Report.SetMqtt | handle.go:11-27 | A marshal failure is returned and nothing is published. Otherwise the report is published once on the upstream topic, and the call fails exactly when the publish does |
| Report.PublishedReportDecodes | handle.go:17-21 | With a decoder that inverts the encoder, the one published message decodes to an update whose reported state is exactly {key: value} |
| Report.HandleSetSystemDateAndTime | handle.go:29-33 | The time is reported under "TimeCalibrationData", with setMQTT's publish-or-error outcome |
| Report.HandleGetSnapshot | handle.go:35-38 | The file id is reported under "SnapshotURL", with setMQTT's publish-or-error outcome |
| Report.HandleInterval | handle.go:40-43 | The status is reported under "CameraStatus", with setMQTT's publish-or-error outcome |
| Report.HandlersUseDistinctKeys | handle.go:29-43 | The three handlers' reports never coincide, whatever values they carry |
| Commands.Pointer | downlink.go:165-191 | The zoom part is always 0, and each part is in -1..1. The move is non-still exactly when the id is one of the strings "1".."8"; any other string, or a non-string, stands still |
| Commands.PointerIsBijective | downlink.go:167-185 | The eight selectors and the eight non-zero (upDown, leftRight) pairs correspond one to one |
| Commands.AngleOf | downlink.go:194-201 | A float angle is divided by 90; anything else gives 0.015625 |
| Commands.AngleRoundTrip | downlink.go:194-201 | A float of 90·a gives back a, and every non-float value, a missing one included, gives 0.015625 |
| Commands.Atoi | downlink.go:156 | strconv.Atoi's value always lies in the int64 range |
| Commands.AtoiSyntaxErrors | downlink.go:156 | The empty string, a lone sign, and a bad character after a digit run that has not overflowed uint64 (or at the start, when not a sign) all give 0, the value of a syntax error |
| Commands.AtoiSaturates | downlink.go:156 | A digit run beyond the int64 range gives the int64 maximum, or the minimum after '-'. This holds when the run ends the string, and also before a bad character once the run has overflowed uint64 |
| Commands.AtoiShowInt | downlink.go:156 | Parsing the decimal text of any int64 gives it back |
| Commands.ToInt8 | downlink.go:157 | The int8 conversion keeps the value modulo 256 |
| Commands.ToInt8Fits | downlink.go:157 | Values already in -128..127 are kept by the int8 conversion |
| Commands.ZoomStep | downlink.go:156-157 | A zoom step exists exactly for string values, and equals the parsed integer modulo 256 |
| Commands.ZoomStepRoundTrip | downlink.go:156-157 | The decimal text of any int8 step gives that step back |
| Ptz.RelativeMove | ptz/ptz.go:10-70 | Pan follows leftOrRight, tilt follows upOrDown, zoom follows zoom: +0.5·angle for 1, -0.5·angle for -1, 0 otherwise. Each component is at most 0.5·\|angle\|, all speeds are 0.5, the spaces are the generic translation spaces, and the token passes through |
| Ptz.MirroredSelectorsMirrorMove | ptz/ptz.go:16-39 | Negating the three selectors negates the translation and keeps the speed |
| Ptz.MoveSpeedIsFixed | ptz/ptz.go:56-66 | Any two relative moves have the same speed, whatever their arguments |
| Ptz.GotoPreset | ptz/ptz.go:96-109 | Both tokens pass through, and the speed is the relative move's fixed 0.5 |
| Ptz.GotoHome | ptz/ptz.go:118-131 | The token passes through, and the speed is the relative move's fixed 0.5 |
| Ptz.SetPreset | ptz/ptz.go:78-81 | Profile token, preset name and preset token pass through unchanged |
| DeviceOps.ErrorText | downlink.go:90 | A wrapped error prints as its context, then ": ", then its cause |
| DeviceOps.Finish | downlink.go:218-227 | An answered request ends nil, a malformed one with the operation's context wrapping the call's error, and an unreachable one with the panic of parsing a nil response |
| DeviceOps.OnProfile | downlink.go:408-426 | A failed profile fetch ends with the profile error after one call. Otherwise the operation is the second call, and it succeeds exactly when that call is answered |
| DeviceOps.ControlMove | downlink.go:204-228 | Once the profile is fetched, the second call is the relative move shaped from the selectors, the angle and the profile token |
| DeviceOps.GotoHome | downlink.go:429-447 | Goto-home makes the profile fetch and, exactly when that is answered, one goto-home request carrying the token |
| DeviceOps.SetHome | downlink.go:408-426 | Set-home makes the profile fetch and at most one set-home request carrying the token |
| DeviceOps.SetPresetOp | downlink.go:317-339 | The preset token is the float text, and the preset name is "预置点 " followed by it |
| DeviceOps.GetPresetsOp | downlink.go:342-363 | As written: the profile fetch and at most one get-presets request carrying the token. It never ends nil: once the request is made, a dropped call panics and any other answer fails with "PTZGetPresets err" wrapping the drained-body error |
| DeviceOps.GetPresetsOpIntended | downlink.go:342-363 | Corrected, with the body read once: the same calls and context, ending as the request's answer says |
| DeviceOps.GetPresetsNeverSucceeds | downlink.go:349-356 | As written get-presets never returns nil, and an answered request gives "PTZGetPresets err: EOF" where the corrected operation gives nil. Both make the same calls |
| DeviceOps.GotoPresetOp | downlink.go:389-405 | Goto-preset's request carries the float text of the preset. Its error context names the failing step |
| DeviceOps.RemovePresetOp | downlink.go:366-386 | Remove-preset's request carries the token and the float text of the preset |
| DeviceOps.ProfilesGatePtzOperations | downlink.go:317-447 | Without the media profiles, each PTZ operation makes only the profile fetch and fails with its own context wrapping the fetch's error |
| DeviceOps.ProfileOperationsFollowTheirCall | downlink.go:342-447 | With the profiles, set-home and get-presets make their one request on the profile's token, as goto-home does. Set-home and the corrected get-presets end nil exactly when that request is answered, and a malformed answer is wrapped in the operation's context. Get-presets as written panics exactly when the request is dropped |
| DeviceOps.PresetOpsShareToken | downlink.go:317-405 | Setting, going to and removing the same preset number name the same preset token on the same profile. The preset's name is "预置点 " followed by that token |
| DeviceOps.UploadedFid | downlink.go:308-313 | As written, a reply that decodes yields the empty file id |
| DeviceOps.UploadedFidIntended | downlink.go:308-313 | Corrected: a decoded reply yields its file id, and an undecodable one yields the empty id |
| DeviceOps.ReportedFid | downlink.go:280-283 | An empty file id is replaced by "快照上传异常", and any other id is kept |
| DeviceOps.SuccessfulUploadReportedAsFailure | downlink.go:308-313 | As written, every successful upload is reported as "快照上传异常" |
| DeviceOps.IntendedUploadReportsFid | downlink.go:280-284 | Corrected, a successful upload with a non-empty id reports that id. The failure text is reported exactly when decoding fails or the id is empty or is that text |
| DeviceOps.SnapshotReporting | downlink.go:231-285 | The snapshot succeeds exactly when profile and URI are answered and fetch and upload do not panic. It then fetches, uploads and spawns one "SnapshotURL" report of the given id; no other run spawns a report |
| DeviceOps.SnapshotOp | downlink.go:231-313 | As written: the snapshot's calls and outcome as above, and the report carries the id the inverted upload test yields |
| DeviceOps.SnapshotOpIntended | downlink.go:231-313 | Corrected: the same calls and outcome, and the report carries the uploaded file's id |
| DeviceOps.SnapshotReportsFailureText | downlink.go:280-313 | When the upload reply decodes with a non-empty id, the as-written snapshot reports "快照上传异常". The corrected one reports the id, after the same four calls |
| DeviceOps.TimeCalibrationOp | downlink.go:450-471 | Sets manual time in zone "CST-0" at the clock's instant. Exactly on success it spawns one "TimeCalibrationData" report of the formatted time |
| DeviceOps.TimeCalibrationSkipsProfiles | downlink.go:450-471 | Calibration never fetches the profiles: any two cameras that answer the clock call alike, at the same clock, calibrate alike |
| Downlink.ControlResult | downlink.go:141-162 | Selector "9" makes only the goto-home request and no move. Otherwise no goto-home: with no Zoom it moves by Pointer and AngleOf, and with a string Zoom it moves pan/tilt 0 by the parsed zoom step. Any other Zoom value panics before any call |
| Downlink.HomeIgnoresAngleAndZoom | downlink.go:142-146 | With selector "9" the result is goto-home, whatever Angle and Zoom hold |
| Downlink.ZoomOverridesDirection | downlink.go:154-158 | With a string Zoom, the direction selector (unless "9") has no effect |
| Downlink.Dispatch | downlink.go:104-134 | A key runs an operation exactly when it is a command key, and each of the ten keys runs its own table entry. A preset key whose value is not a number panics before any call |
| Downlink.DispatchPanicsOnlyWhen | downlink.go:104-134 | An operation can panic only when a desired value has the wrong type or the camera is unreachable |
| Downlink.DispatchMovesOnlyOnPtzOrHome | downlink.go:104-134 | No key but the PTZ keys and GotoHomePosition sends a relative move or a goto-home request |
| Downlink.DispatchAlike | downlink.go:104-134 | The corrected table runs the same entries, ends each alike, and makes the same calls up to the snapshot report's id |
| Downlink.RunKeysAlike | downlink.go:102-135 | Over any key sequence, the corrected loop panics alike, meets the same failure, and makes the same calls up to the snapshot report's id |
| Downlink.HandleDownLink | downlink.go:98-138 | An empty command id does nothing. The handler never reports a failure, whatever the operations return |
| Downlink.HandleDownLinkIntended | downlink.go:98-138 | Corrected: the same calls (up to the snapshot report's id) and the same panics as written |
| Downlink.IntendedFailsIffSomeKeyFailed | downlink.go:98-138 | Corrected: the handler fails exactly when the command has an id, nothing panicked, and some recognised key's operation failed. The error is then the first such key's |
| Downlink.SingleFailureIsSwallowed | downlink.go:100-137 | A command whose only key fails: as written the handler returns nil, while the corrected handler returns that failure |
| Downlink.IntendedFailsIffSomeKeyFails | downlink.go:100-137 | Without a panic, the loop ends with a failure exactly when it started with one or some recognised key failed |
| Downlink.IntendedReportsFirstFailure | downlink.go:100-137 | Without a panic, a loop that starts clean and ends with a failure holds the error of the first recognised key that failed |
| Downlink.ControlMovesOnce | downlink.go:141-162 | With well-typed values and a fetched profile, one control run moves the camera exactly once |
| Downlink.DispatchMotions | downlink.go:104-134 | A PTZ key moves the camera once, and every other key (goto-home aside) never does |
| Downlink.RunKeysMotions | downlink.go:102-135 | Over any key sequence without goto-home, the moves equal the number of PTZ keys in it |
| Downlink.OneMovePerPtzKey | downlink.go:101-135 | A command without GotoHomePosition makes one move per PTZ key present, and returns nil |
| Collect.DeviceEntry | downlink.go:77 | The log entry carries the registry's tid, pid and did, and no other data |
| Collect.Decoded | downlink.go:70-84 | A message is decoded exactly when its device is registered and its payload unmarshals. The JSON literal null unmarshals to a nil command |
| Collect.LogReceived | downlink.go:86 | The receipt is logged at the downLink level on the device's entry, and marked on a non-full bus |
| Collect.Respond | downlink.go:88-94 | ACK is sent first, even for an empty command id. Unless the handler panics, SUCCESS follows. FAILED is never sent, and the bus is untouched |
| Collect.CollectPacket | downlink.go:67-95 | A failed lookup or decode sends no state. A null payload is logged and then panics on the nil command before any state is sent. Otherwise ACK then, barring a panic, SUCCESS, for the decoded command id. FAILED is never sent |
| Collect.RespondIntended | downlink.go:88-94 | Corrected: after ACK, the terminal state is FAILED exactly when the corrected handler returns an error |
| Collect.CollectPacketIntended | downlink.go:67-95 | Corrected: no state on lookup or decode failure, and a null payload still panics. Otherwise ACK, then FAILED exactly when the corrected handler fails, else SUCCESS |
| Collect.FailedCommandReportedAsSuccess | downlink.go:89-94 | A command whose only key fails is reported as ACK, SUCCESS; the corrected packet reports ACK, FAILED |
| Collect.Drain | downlink.go:49-64 | The consumer takes at most the queued messages, handles at most the ones it takes, and takes all of them while it stays alive |
| Collect.DrainStopsAtFirstPanic | downlink.go:50-63 | Only the last handled packet can have panicked. The consumer dies exactly when it did |
| Collect.PanicStopsTheConsumer | downlink.go:50-63 | A panic on the first message stops the consumer after it; with the recover inside the loop, every message would be taken |
| Collect.NullCommandStopsTheConsumer | downlink.go:80-88 | A registered device's null payload, first in the queue, stops the consumer with no state sent; the recovering consumer takes every message |
| Collect.DrainRecovering | downlink.go:56-62 | Corrected: the consumer stays alive, takes every message, and makes one packet per message with a non-nil payload |
| Collect.Handled | downlink.go:56-60 | The messages handed to collectCameraPacket are queued messages with a payload; when every message has one, all of them are handed on in queue order |
| Collect.PacketIgnoresBus | downlink.go:67-95 | The command states sent, the camera calls and whether a panic escapes do not depend on the telemetry bus |
| Collect.IntendedPacketIgnoresBus | downlink.go:67-95 | The same holds for the corrected collectCameraPacket |
| Collect.DrainHandlesInOrder | downlink.go:49-64 | As written, the i-th packet sends the states and makes the calls of collectCameraPacket on the i-th message with a payload, in queue order. The consumer makes no more packets than such messages, and makes one for each while it stays alive |
| Collect.DrainRecoveringHandlesInOrder | downlink.go:49-64 | Corrected: the i-th packet is the corrected collectCameraPacket's on the i-th message with a payload, and every such message gets one |
| Bus.Mark | echo/mark.go:56-67 | The caller's map gains a timestamp before the send. A full bus (1000·1024 pending) returns "metrics eventBus is full." and is unchanged; otherwise exactly one event with the index and the stamped map is appended |
| Bus.EventLoop | echo/mark.go:43-54 | Draining hands every pending event to the writer once, oldest first, leaves the bus empty, and counts the writer's refusals |
| Bus.MarkThenDrainIsFifo | echo/mark.go:43-67 | An event marked on a non-full bus is drained after every earlier one, and its write is counted once |
| Sink.Init | echo/transport.go:24-34 | Empty index, scheme and URL take "iot", "http" and "http://192.168.1.6:9200". Non-empty ones, and the other fields, are kept |
| Sink.InitIdempotent | echo/transport.go:24-34 | Defaulting twice is defaulting once |
| Sink.InitFixesCompleteConfigs | echo/transport.go:25-33 | Defaulting changes nothing exactly when index, scheme and URL are all set |
| Sink.NewClient | echo/es_client.go:20-45 | A closed sink gets the zero client. An open one gets a connected client on its index exactly when the cluster answers, and a nil client otherwise |
| Sink.Write | echo/es_client.go:47-57 | A nil client panics. A client without a connection fails with "es client not connection" and sends nothing. Otherwise exactly one index request for the event is sent, failing exactly when it is refused |
| Sink.ClosedSinkRejectsEverything | echo/es_client.go:44-50 | A sink configured closed fails every write without sending anything |
| Sink.OpenSinkNeedsTheCluster | echo/mark.go:37-54 | With the sink on, the event loop's first write panics exactly when the cluster was unreachable; otherwise it sends the event to its index |
| Echo.LevelNameRoundTrip | echo/behavior_log.go:64-86 | Levels 1..9 have distinct names that map back to them. Every other level, 0 included, is "unknown" |
| Echo.Merged | echo/behavior_log.go:97-116 | The merge succeeds exactly when every tid and pid given is an int32 and every did given is a string. tid/pid/did go into their fields and never into Data. Earlier Data is kept unless overwritten, other keys are added, and level and message are untouched |
| Echo.WithFields | echo/behavior_log.go:97-116 | The loop over the fields, in any visiting order, computes the merge |
| Echo.NewEntry | log.go:114-118 | A new entry is the merge into the zero entry, so its Data holds exactly the non-routed keys |
| Echo.WithError | echo/behavior_log.go:118-120 | The error is ignored and the entry is returned unchanged |
| Echo.MethodLevelsAreDistinct | echo/behavior_log.go:121-164 | Each of the nine level methods sets its own level, and each has a known name. Only Error sets ErrorLevel |
| Echo.Compose | echo/behavior_log.go:166-177 | The message is the text, followed by "\t\t" and the JSON of Data exactly when Data is non-empty. Only the error level wraps it in the red span |
| Echo.Echo | echo/behavior_log.go:166-194 | Only the message changes. Exactly one event, on index "device", carries tid, pid, did, type and message plus the timestamp; a full bus drops it |
| Echo.Log | echo/behavior_log.go:121-194 | A level method sets its level, then composes the message and marks one "device" event. Identity and data are kept |
| Caller.SkipFileSpec | echo/filename.go:49-57 | A file is skipped exactly when one of the prefixes starts its name |
| Caller.ScanCuts | echo/filename.go:65-74 | The backward scan yields a suffix. It cuts after a slash at index ≥ 1 exactly when two slashes lie in file[1..]; otherwise the path is whole |
| Caller.TrimSpec | echo/filename.go:65-74 | The trimmed path is a suffix. With two or more '/' at indices ≥ 1, it follows a '/' and holds exactly one; otherwise it is unchanged |
| Caller.OneSlashSuffixIsUnique | echo/filename.go:66-72 | Only one suffix is preceded by a '/' and holds exactly one, so the trimmed path is determined |
| Caller.LeadingSlashIsKept | echo/filename.go:66 | Index 0 is never inspected: "/a/b" is kept whole while "x/a/b" becomes "a/b" |
| Caller.GetCaller | echo/filename.go:59-77 | A missing frame gives (0, "", 0). Otherwise the frame's pc and line come with its trimmed path |
| Caller.Search | echo/filename.go:35-40 | At most ten frames are inspected, and every frame passed over is skipped. The search stops early only at a kept frame |
| Caller.FindCaller | echo/filename.go:28-47 | The position is the frame where the search settles. The function name is looked up only for a non-zero pc |
| Caller.SettlesIsUnique | echo/filename.go:35-40 | The search can settle on only one frame |
| Caller.SearchStopsAtFirstKept | echo/filename.go:35-40 | The search never looks past the first kept frame |
| TextFormat.NewTextFormat | echo/text_format.go:39-43 | Colours are forced exactly when one argument is passed and it is true |
| TextFormat.ForcedColours | echo/text_format.go:39-48 | A single true colours every line except on Windows and Linux. Any other argument list leaves colour to whether stdout is a terminal, and Linux is never coloured |
| TextFormat.ColorOf | echo/text_format.go:49-61 | Every level's colour is an escape sequence |
| TextFormat.OnlyTraceIsUncoloured | echo/text_format.go:49-61 | Only the trace level gets the no-colour code; every other level has a colour |
| TextFormat.LevelText | echo/text_format.go:46 | The level text is the first four characters of the level's name, upper-cased |
| TextFormat.LevelTag | echo/text_format.go:65 | The tag is "[" + level text + "] ", seven characters |
| TextFormat.LevelTextRoundTrip | echo/text_format.go:46 | Distinct levels have distinct four-letter texts |
| TextFormat.SourceText | echo/text_format.go:67-70 | A "_source" entry is written as "[source]"; without one nothing is written |
| TextFormat.FieldsTextHolds | echo/text_format.go:72-74 | The i-th visited entry's "[k=v] " sits right after the text of the entries visited before it |
| TextFormat.Header | echo/text_format.go:64-70 | The header (time, level tag, source) starts with '[' |
| TextFormat.Tail | echo/text_format.go:76-79 | The line's tail ends with the newline |
| TextFormat.TailIsReset | echo/text_format.go:76-79 | A coloured line closes with the reset and then the newline; a plain line closes with the newline alone |
| TextFormat.Assemble | echo/text_format.go:62-79 | The line starts with the colour exactly when coloured, and the header follows it (or starts the line). The entries follow the header, and the message precedes the tail. The length is the sum of the parts, and the line ends with '\n' |
| TextFormat.Format | echo/text_format.go:45-81 | "_source" is removed and every other entry kept. The line ends with "\n". Colour and reset appear together, exactly when the guard holds, and the escape is the first character exactly then. The header follows the colour, the entries' text follows the header, and the message sits just before the tail. The length is the sum of the parts |
| TextFormat.FieldAmongFields | echo/text_format.go:72-75 | Every entry other than "_source" is written as "[k=v] " within the entries' text, after those visited before it |

## Left out

- Device I/O is an oracle: the ONVIF SOAP transport, XML parsing (ptz/auth.go), and the media and device request builders. The camera's answer to each call is a parameter.
- Snapshot download, file creation and the multipart upload are abstract steps. Only the file-id decision and the "快照上传异常" substitution are modelled. The panic when `os.Create` fails (downlink.go:272-275) has no step of its own: the model produces that trace only as an unreachable FetchSnapshot. So Downlink.DispatchPanicsOnlyWhen's "unreachable" covers a failed file creation as well, and says nothing about the file system.
- DeviceOps.GetPresetsOp: the second read of the drained body parses as empty text, which xml.Unmarshal rejects with io.EOF. This takes gosoap's Body of an empty message to be empty; gosoap is not part of this model, and if it panicked there instead, the outcome would be a panic rather than the EOF error.
- Mqtt.PublishOn: whether the broker accepts a publish is the `accepted` parameter. A publish while no connection is active fails only when `accepted` is false; the model does not tie acceptance to the connection state.
- Float formatting: `strconv.FormatFloat` of preset numbers is a parameter. Floats are `real`, with no rounding; the only float arithmetic is division by 90 and multiplication by 0.5.
- JSON encoding and decoding, `time.Now` and time formatting are parameters.
- `fmt.Sprintf` of log arguments is left out: the formatted text is an input. `%s` and `%v` of a value are one rendering function.
- Goroutines are left out: the spawned report handlers (recorded as a `SpawnReport` call), the mutex, the wait group and `sync.Pool`. Only sequential effects are modelled.
- The 60-second status ticker of the service's entry point is left out.
- The order in which Go ranges over a map is a parameter, constrained to visit each key once.
- The command-state service is modelled only as the recorded state updates. Its errors are ignored by the source.
- The constant "TIMEOUT" is declared but never used.
- Collect.Drain: the queue is finite. After a panic the Go goroutine is gone, and on a closed channel it would spin on nil payloads; neither is modelled beyond "stopped".
- Sink.NewClient: log.go's copy exits the process when the ping fails (log.go:43-45), where echo/es_client.go returns nil. The model follows echo/es_client.go, so that exit is not modelled.
- The registry and command-service gRPC clients, Elasticsearch, Redis, TLS and configuration loading are left out.
- The MQTT client options (keep-alive, timeouts, client id) are left out.
- The ack topic is left out: it is declared but never subscribed to.
- log.go repeats the echo package, except that its Entry lacks OnLine, OffLine and WithError (its FieldLogger, log.go:103-112, lists six level methods) and its NewESClients exits on a failed ping. The model follows the echo package, which covers both.
- Console logging through logrus is not modelled: the panic message of the recover (downlink.go:52), the receipt and error lines of collectCameraPacket (downlink.go:68, 74, 82), the error print of a full bus (echo/behavior_log.go:186) and the Debug line of each device log (echo/behavior_log.go:189-193). None of them changes any state of the model.
- Tid and Pid are taken to be int32 values, so the type assertions succeed exactly for `I32`.
- Caller.FindCaller: the runtime's frame lookup and the function-name lookup for a pc are parameters.
- TextFormat.Format: the statement that every entry appears in the line is given in two parts: Format places the entries' text, and FieldAmongFields places each entry within it. The composed single statement is not stated.
- TextFormat.LevelName: logrus's level names are written out from its documented names, since logrus is not part of this model.

## Findings

| source | as written | input that shows it | evidently intended | confidence | as-written member | corrected member |
|---|---|---|---|---|---|---|
| downlink.go:98-138 | `handlerCameraDownLink` stores each operation's error in `send` but returns nil. `collectCameraPacket` therefore always reports SUCCESS and never FAILED | A command with id "c1" whose only desired key is GotoHomePosition, on a camera whose profile fetch fails | Return an error whenever an operation failed (the model returns the first one), so that the command state becomes FAILED | not executed | Collect.FailedCommandReportedAsSuccess | Collect.CollectPacketIntended |
| downlink.go:308-313 | `sendSnapshot` returns the file id only when decoding the server's reply fails, and "" when it succeeds | A well-formed reply carrying file id "f1": "快照上传异常" is reported instead of "f1" | Return the decoded file id when decoding succeeds | not executed | DeviceOps.SnapshotReportsFailureText | DeviceOps.SnapshotOpIntended |
| downlink.go:49-64 | The recover is deferred outside the loop, so the first panic ends the consumer. Nothing reads the queue afterwards | A first message whose Zoom is a number (the `.(string)` assertion panics), or whose payload is `null` (the nil command is read), followed by any message | Recover per message, so the consumer keeps handling the queue | not executed | Collect.PanicStopsTheConsumer | Collect.DrainRecovering |
| downlink.go:349-356 | `PTZGetPresets` reads the response body to its end in `GetSoapMessage` to log it, then parses the same body again with `ParseResponse`, which sees nothing | A camera that answers GetPresets with a well-formed response: the operation returns "PTZGetPresets err: EOF" instead of nil | Parse the body read once, so that a well-formed answer ends nil | not executed | DeviceOps.GetPresetsNeverSucceeds | DeviceOps.GetPresetsOpIntended |
