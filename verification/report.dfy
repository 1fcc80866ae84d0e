/** Reports to the cloud: a one-key "update" shadow request published on the
    device's upstream topic. The three report handlers differ only in the key
    they report under. */
module Report {
  import opened Values
  import opened Twins
  import Mqtt
  import Commands

  /** The version every report carries. */
  const ReportVersion := 1

  /** setMQTT's request: method "update", version 1, the reported state holding
      exactly `key` with `value`, and no desired state. */
  function UpdateReport(key: string, value: Value): (r: RequestTwins)
    ensures r.shadowMethod == Update && r.version == ReportVersion
    ensures r.state.Some? && r.state.value.desired == map[]
    ensures r.state.value.reported.Keys == {key} && r.state.value.reported[key] == value
  {
    RequestTwins(Update, Some(State(map[key := value], map[])), ReportVersion)
  }

  /** Distinct reports are distinct requests: the request determines the key and
      the value it was built from. */
  lemma UpdateReportInjective(k1: string, v1: Value, k2: string, v2: Value)
    requires UpdateReport(k1, v1) == UpdateReport(k2, v2)
    ensures k1 == k2 && v1 == v2
  {
    var reported := UpdateReport(k1, v1).state.value.reported;
    assert k1 in reported.Keys;
  }

  datatype ReportError = MarshalFailed | PublishFailed

  /** The backend after the attempt and the error returned to the caller. */
  datatype Sent = Sent(backend: Mqtt.Backend, err: Option<ReportError>)

  /** setMQTT: marshal the report (a failure is returned and nothing is
      published), then publish it once on the upstream topic and return the
      publish error. */
  function SetMqtt(b: Mqtt.Backend, key: string, value: Value,
                   marshal: RequestTwins -> Option<seq<Byte>>, accepted: bool): (r: Sent)
    ensures marshal(UpdateReport(key, value)).None? ==> r == Sent(b, Some(MarshalFailed))
    ensures marshal(UpdateReport(key, value)).Some? ==>
              r.backend == b.(actions := b.actions + [Mqtt.Publish(Mqtt.RxTopic, b.qos, marshal(UpdateReport(key, value)).value)])
              && (r.err.None? <==> accepted)
              && (r.err.Some? ==> r.err.value == PublishFailed)
  {
    match marshal(UpdateReport(key, value))
    case None => Sent(b, Some(MarshalFailed))
    case Some(text) =>
      var (published, ok) := Mqtt.PublishOn(b, Mqtt.RxTopic, text, accepted);
      Sent(published, if ok then None else Some(PublishFailed))
  }

  /** With a codec whose decoder inverts its encoder, the one message setMQTT
      publishes decodes to an update whose reported state is exactly {key: value}. */
  lemma PublishedReportDecodes(b: Mqtt.Backend, key: string, value: Value,
                               marshal: RequestTwins -> Option<seq<Byte>>,
                               unmarshal: seq<Byte> -> Option<RequestTwins>, accepted: bool)
    requires forall t: RequestTwins | marshal(t).Some? :: unmarshal(marshal(t).value) == Some(t)
    requires marshal(UpdateReport(key, value)).Some?
    ensures var r := SetMqtt(b, key, value, marshal, accepted);
            && |r.backend.actions| == |b.actions| + 1
            && var sent := r.backend.actions[|b.actions|];
            && sent.Publish? && sent.topic == Mqtt.RxTopic
            && unmarshal(sent.payload).Some?
            && unmarshal(sent.payload).value.shadowMethod == Update
            && unmarshal(sent.payload).value.state.value.reported == map[key := value]
  {
    var report := UpdateReport(key, value);
    assert unmarshal(marshal(report).value) == Some(report);
  }

  /** `r` is what reporting `value` under `key` leaves behind: the marshal error
      with nothing published, or exactly one publish on the upstream topic of a
      payload that is the encoded one-key report, failing exactly when the
      broker refuses it. */
  predicate Published(b: Mqtt.Backend, r: Sent, key: string, value: Value,
                      marshal: RequestTwins -> Option<seq<Byte>>, accepted: bool)
  {
    var report := UpdateReport(key, value);
    && (marshal(report).None? ==> r == Sent(b, Some(MarshalFailed)))
    && (marshal(report).Some? ==>
          && r.backend == b.(actions := b.actions + [Mqtt.Publish(Mqtt.RxTopic, b.qos, marshal(report).value)])
          && (r.err.None? <==> accepted))
  }

  /** handleSetSystemDateAndTime: report the calibrated time. */
  function HandleSetSystemDateAndTime(b: Mqtt.Backend, time: Value,
                                      marshal: RequestTwins -> Option<seq<Byte>>, accepted: bool): (r: Sent)
    ensures Published(b, r, Commands.TimeCalibrationDataKey, time, marshal, accepted)
  {
    SetMqtt(b, Commands.TimeCalibrationDataKey, time, marshal, accepted)
  }

  /** handleGetSnapshot: report the snapshot's file id. */
  function HandleGetSnapshot(b: Mqtt.Backend, url: Value,
                             marshal: RequestTwins -> Option<seq<Byte>>, accepted: bool): (r: Sent)
    ensures Published(b, r, Commands.SnapshotUrlKey, url, marshal, accepted)
  {
    SetMqtt(b, Commands.SnapshotUrlKey, url, marshal, accepted)
  }

  /** HandleInterval: report the camera's status. */
  function HandleInterval(b: Mqtt.Backend, status: Value,
                          marshal: RequestTwins -> Option<seq<Byte>>, accepted: bool): (r: Sent)
    ensures Published(b, r, Commands.CameraStatusKey, status, marshal, accepted)
  {
    SetMqtt(b, Commands.CameraStatusKey, status, marshal, accepted)
  }

  /** The three handlers report under three different keys, so their reports
      never collide, whatever values they carry. */
  lemma HandlersUseDistinctKeys(v1: Value, v2: Value, v3: Value)
    ensures UpdateReport(Commands.TimeCalibrationDataKey, v1) != UpdateReport(Commands.SnapshotUrlKey, v2)
    ensures UpdateReport(Commands.SnapshotUrlKey, v2) != UpdateReport(Commands.CameraStatusKey, v3)
    ensures UpdateReport(Commands.TimeCalibrationDataKey, v1) != UpdateReport(Commands.CameraStatusKey, v3)
  {
    if UpdateReport(Commands.TimeCalibrationDataKey, v1) == UpdateReport(Commands.SnapshotUrlKey, v2) {
      UpdateReportInjective(Commands.TimeCalibrationDataKey, v1, Commands.SnapshotUrlKey, v2);
    }
    if UpdateReport(Commands.SnapshotUrlKey, v2) == UpdateReport(Commands.CameraStatusKey, v3) {
      UpdateReportInjective(Commands.SnapshotUrlKey, v2, Commands.CameraStatusKey, v3);
    }
    if UpdateReport(Commands.TimeCalibrationDataKey, v1) == UpdateReport(Commands.CameraStatusKey, v3) {
      UpdateReportInjective(Commands.TimeCalibrationDataKey, v1, Commands.CameraStatusKey, v3);
    }
  }
}
