/** The consumer side of the ingress queue: each queued message is looked up,
    decoded, logged, acknowledged, dispatched and given a terminal command
    state. The device registry, the command-state service and the JSON codec
    are oracles; the command states sent are recorded in order. */
module Collect {
  import opened Values
  import opened Twins
  import opened DeviceOps
  import Downlink
  import Echo
  import Bus

  const Ack := "ACK"
  const Success := "SUCCESS"
  const Failure := "FAILED"
  const Timeout := "TIMEOUT"

  /** The registry's answer for a device id. */
  datatype DeviceInfo = DeviceInfo(tid: int, pid: int, did: string)

  /** One update sent to the command-state service. */
  datatype CommandState = CommandState(cid: string, state: string)

  /** What json.Unmarshal leaves in the `*ResponseTwins` it decodes into: an
      error, or the pointer, which the JSON literal `null` sets to nil (None)
      without an error. */
  datatype Unmarshalled = UnmarshalError | Pointer(twins: Option<ResponseTwins>)

  /** Everything outside the consumer: the registry lookup, the JSON decoder,
      the order Go's range visits a decoded map in, the rendering of a payload
      and of log data as text, the clock, and the camera. */
  datatype Env = Env(
    lookup: string -> Option<DeviceInfo>,
    decode: seq<Byte> -> Unmarshalled,
    enumerate: Fields -> seq<string>,
    render: seq<Byte> -> string,
    marshal: Fields -> string,
    now: int,
    cam: Camera)

  /** The range over any decoded map visits each of its keys exactly once. */
  ghost predicate Enumerates(env: Env) {
    forall f: Fields :: IsEnumeration(env.enumerate(f), f.Keys)
  }

  /** What handling one message did: the command states sent, the camera calls,
      the telemetry bus afterwards, and whether a panic escaped. */
  datatype Packet = Packet(states: seq<CommandState>, calls: seq<Call>, pending: Bus.Pending, panicked: bool)

  const DownLinkText := "receive down data from mqtt this shuncom gateway "
  const SendErrorText := "send data to shuncom gateway "

  /** A nil payload reads as no bytes. */
  function Bytes(payload: Option<seq<Byte>>): seq<Byte> {
    if payload.Some? then payload.value else []
  }

  /** The log entry built from the registry's answer: tid, pid and did routed
      into their own fields, no data. */
  function DeviceEntry(info: DeviceInfo): (e: Echo.Entry)
    ensures e.tid == info.tid && e.pid == info.pid && e.did == info.did && e.data == map[]
  {
    var fields := map["tid" := I32(info.tid), "pid" := I32(info.pid), "did" := Str(info.did)];
    assert forall k | k in fields :: Echo.RoutedWellTyped(fields, k);
    Echo.NewEntry(fields).value
  }

  /** The order the dispatcher visits a decoded command's keys in. */
  function OrderOf(resp: ResponseTwins, env: Env): (order: seq<string>)
    requires Enumerates(env)
    ensures IsEnumeration(order, resp.payload.state.desired.Keys)
  {
    env.enumerate(resp.payload.state.desired)
  }

  /** The registry entry and the decoded command pointer (None when nil) of a
      message from a registered device whose payload decodes, if any. */
  function Decoded(p: DevicePayload, env: Env): (r: Option<(DeviceInfo, Option<ResponseTwins>)>)
    ensures r.Some? <==> env.lookup(p.did).Some? && env.decode(Bytes(p.payload)).Pointer?
    ensures r.Some? ==> r.value.0 == env.lookup(p.did).value && r.value.1 == env.decode(Bytes(p.payload)).twins
  {
    match env.lookup(p.did)
    case None => None
    case Some(info) =>
      match env.decode(Bytes(p.payload))
      case UnmarshalError => None
      case Pointer(twins) => Some((info, twins))
  }

  /** The downLink-level log line every decoded message produces. */
  function LogReceived(info: DeviceInfo, p: DevicePayload, env: Env, pending: Bus.Pending): (r: Echo.EchoResult)
    ensures r.entry.level == Echo.MethodLevel(Echo.DownLink)
    ensures r.entry.did == info.did && r.entry.tid == info.tid && r.entry.pid == info.pid
    ensures |pending| < Bus.EventBufferSize ==> |r.pending| == |pending| + 1 && r.pending[..|pending|] == pending
  {
    Echo.Log(DeviceEntry(info), Echo.DownLink, DownLinkText + env.render(Bytes(p.payload)), env.marshal, pending, env.now)
  }

  /** collectCameraPacket as written, once the message has been decoded: ACK is
      sent whatever the CommandID (even empty), the command is dispatched, and
      SUCCESS follows unless the dispatcher panicked. The dispatcher never
      returns an error, so FAILED is never sent. */
  function Respond(resp: ResponseTwins, env: Env, pending: Bus.Pending): (r: Packet)
    requires Enumerates(env)
    ensures 1 <= |r.states| <= 2 && r.states[0] == CommandState(resp.commandId, Ack)
    ensures r.panicked <==> |r.states| == 1
    ensures !r.panicked ==> r.states[1] == CommandState(resp.commandId, Success)
    ensures forall i | 0 <= i < |r.states| :: r.states[i].state != Failure
    ensures r.pending == pending
  {
    var run := Downlink.HandleDownLink(resp, env.cam, OrderOf(resp, env));
    var ack := CommandState(resp.commandId, Ack);
    if run.outcome == Panicked then Packet([ack], run.calls, pending, true)
    else Packet([ack, CommandState(resp.commandId, Success)], run.calls, pending, false)
  }

  /** collectCameraPacket as written. A failed registry lookup or decode ends
      the message with nothing sent; otherwise the message is logged at the
      downLink level. A payload of `null` leaves a nil command whose CommandID
      is then read: a panic before anything is sent. Otherwise the command is
      answered as Respond says: a panic in the dispatcher leaves it at ACK, and
      FAILED is never sent. */
  function CollectPacket(p: DevicePayload, env: Env, pending: Bus.Pending): (r: Packet)
    requires Enumerates(env)
    ensures Decoded(p, env).None? ==> r == Packet([], [], pending, false)
    ensures Decoded(p, env).Some? && Decoded(p, env).value.1.None? ==>
              && r.states == [] && r.calls == [] && r.panicked
              && (|pending| < Bus.EventBufferSize ==> |r.pending| == |pending| + 1 && r.pending[..|pending|] == pending)
    ensures Decoded(p, env).Some? && Decoded(p, env).value.1.Some? ==>
              var cid := Decoded(p, env).value.1.value.commandId;
              && 1 <= |r.states| <= 2
              && r.states[0] == CommandState(cid, Ack)
              && (r.panicked <==> |r.states| == 1)
              && (!r.panicked ==> r.states[1] == CommandState(cid, Success))
    ensures forall i | 0 <= i < |r.states| :: r.states[i].state != Failure
  {
    match Decoded(p, env)
    case None => Packet([], [], pending, false)
    case Some((info, twins)) =>
      var logged := LogReceived(info, p, env, pending);
      match twins
      case None => Packet([], [], logged.pending, true)
      case Some(resp) => Respond(resp, env, logged.pending)
  }

  /** collectCameraPacket with the dispatcher's error returned, once decoded:
      a failed operation is logged at the error level with the error's text
      and answered with FAILED. */
  function RespondIntended(entry: Echo.Entry, resp: ResponseTwins, env: Env, pending: Bus.Pending): (r: Packet)
    requires Enumerates(env)
    ensures 1 <= |r.states| <= 2 && r.states[0] == CommandState(resp.commandId, Ack)
    ensures r.panicked <==> |r.states| == 1
    ensures !r.panicked ==> r.states[1].cid == resp.commandId && r.states[1].state in {Success, Failure}
    ensures !r.panicked ==>
              (r.states[1].state == Failure <==> Downlink.HandleDownLinkIntended(resp, env.cam, OrderOf(resp, env)).outcome.Failed?)
  {
    var run := Downlink.HandleDownLinkIntended(resp, env.cam, OrderOf(resp, env));
    var ack := CommandState(resp.commandId, Ack);
    match run.outcome
    case Panicked => Packet([ack], run.calls, pending, true)
    case Failed(_, _) =>
      var failed := Echo.Log(entry, Echo.Error, SendErrorText + ErrorText(run.outcome), env.marshal, pending, env.now);
      Packet([ack, CommandState(resp.commandId, Failure)], run.calls, failed.pending, false)
    case Done => Packet([ack, CommandState(resp.commandId, Success)], run.calls, pending, false)
  }

  /** collectCameraPacket with the dispatcher's error returned. A nil
      command still panics. */
  function CollectPacketIntended(p: DevicePayload, env: Env, pending: Bus.Pending): (r: Packet)
    requires Enumerates(env)
    ensures Decoded(p, env).None? ==> r == Packet([], [], pending, false)
    ensures Decoded(p, env).Some? && Decoded(p, env).value.1.None? ==>
              r.states == [] && r.calls == [] && r.panicked
    ensures Decoded(p, env).Some? && Decoded(p, env).value.1.Some? ==>
              var resp := Decoded(p, env).value.1.value;
              && 1 <= |r.states| <= 2
              && r.states[0] == CommandState(resp.commandId, Ack)
              && (r.panicked <==> |r.states| == 1)
              && (!r.panicked ==> r.states[1].cid == resp.commandId && r.states[1].state in {Success, Failure})
              && (!r.panicked ==>
                    (r.states[1].state == Failure
                     <==> Downlink.HandleDownLinkIntended(resp, env.cam, OrderOf(resp, env)).outcome.Failed?))
  {
    match Decoded(p, env)
    case None => Packet([], [], pending, false)
    case Some((info, twins)) =>
      var logged := LogReceived(info, p, env, pending);
      match twins
      case None => Packet([], [], logged.pending, true)
      case Some(resp) => RespondIntended(logged.entry, resp, env, logged.pending)
  }

  /** A command whose only key is recognised and whose operation fails: as
      written it is acknowledged and then marked SUCCESS; as intended it is
      acknowledged and then marked FAILED. */
  lemma FailedCommandReportedAsSuccess(p: DevicePayload, env: Env, pending: Bus.Pending, key: string)
    requires Enumerates(env)
    requires Decoded(p, env).Some? && Decoded(p, env).value.1.Some?
    requires var resp := Decoded(p, env).value.1.value;
             && resp.commandId != ""
             && resp.payload.state.desired.Keys == {key}
             && Downlink.Dispatch(key, resp.payload.state.desired, env.cam, false).Some?
             && Downlink.Dispatch(key, resp.payload.state.desired, env.cam, false).value.outcome.Failed?
    ensures var cid := Decoded(p, env).value.1.value.commandId;
            && CollectPacket(p, env, pending).states == [CommandState(cid, Ack), CommandState(cid, Success)]
            && CollectPacketIntended(p, env, pending).states == [CommandState(cid, Ack), CommandState(cid, Failure)]
  {
    var resp := Decoded(p, env).value.1.value;
    var desired := resp.payload.state.desired;
    var order := env.enumerate(desired);
    SingletonEnumeration(order, key);
    Downlink.SingleFailureIsSwallowed(resp, env.cam, key);
  }

  // ---------------------------------------------------------------------
  // The consumer loop

  /** The consumer after some messages: the packets it produced, how many
      messages it took off the queue, whether it is still running, and the bus. */
  datatype Drained = Drained(packets: seq<Packet>, taken: nat, alive: bool, pending: Bus.Pending)

  /** handlerCameraChan as written: take messages in order, skip those with a
      nil payload, and handle the rest. The recover sits outside the loop, so
      the first panic ends the goroutine: every later message stays queued and
      nothing consumes the queue again. */
  function Drain(queue: seq<DevicePayload>, env: Env, pending: Bus.Pending): (r: Drained)
    requires Enumerates(env)
    ensures r.taken <= |queue| && |r.packets| <= r.taken
    ensures r.alive ==> r.taken == |queue|
    decreases |queue|
  {
    if queue == [] then Drained([], 0, true, pending)
    else if queue[0].payload.None? then
      var rest := Drain(queue[1..], env, pending);
      Drained(rest.packets, rest.taken + 1, rest.alive, rest.pending)
    else
      var pk := CollectPacket(queue[0], env, pending);
      if pk.panicked then Drained([pk], 1, false, pk.pending)
      else
        var rest := Drain(queue[1..], env, pk.pending);
        Drained([pk] + rest.packets, rest.taken + 1, rest.alive, rest.pending)
  }

  /** A consumer's packets are as a loop that ends at its first panic leaves
      them: when it has stopped, the last packet is the one that panicked and
      none before it did; while it is alive none has. */
  predicate StopsAtFirstPanic(r: Drained) {
    && (r.alive ==> forall i | 0 <= i < |r.packets| :: !r.packets[i].panicked)
    && (!r.alive ==> |r.packets| > 0 && r.packets[|r.packets| - 1].panicked)
    && (forall i | 0 <= i < |r.packets| - 1 :: !r.packets[i].panicked)
  }

  /** handlerCameraChan as written keeps that shape on every queue. */
  lemma {:induction false} DrainStopsAtFirstPanic(queue: seq<DevicePayload>, env: Env, pending: Bus.Pending)
    requires Enumerates(env)
    ensures StopsAtFirstPanic(Drain(queue, env, pending))
    decreases |queue|
  {
    if queue != [] {
      if queue[0].payload.None? {
        DrainStopsAtFirstPanic(queue[1..], env, pending);
      } else {
        var pk := CollectPacket(queue[0], env, pending);
        if !pk.panicked {
          var rest := Drain(queue[1..], env, pk.pending);
          DrainStopsAtFirstPanic(queue[1..], env, pk.pending);
          assert Drain(queue, env, pending) == Drained([pk] + rest.packets, rest.taken + 1, rest.alive, rest.pending);
          StopsAtFirstPanicCons(pk, rest);
        }
      }
    }
  }

  /** Prepending a packet that did not panic keeps the shape. */
  lemma StopsAtFirstPanicCons(pk: Packet, rest: Drained)
    requires !pk.panicked && StopsAtFirstPanic(rest)
    ensures StopsAtFirstPanic(Drained([pk] + rest.packets, rest.taken + 1, rest.alive, rest.pending))
  {
    var packets := [pk] + rest.packets;
    assert forall i | 1 <= i < |packets| :: packets[i] == rest.packets[i - 1];
  }

  /** A panicking first message stops the consumer as written: nothing after it
      is taken, while the recovering consumer takes the whole queue. */
  lemma PanicStopsTheConsumer(queue: seq<DevicePayload>, env: Env, pending: Bus.Pending)
    requires Enumerates(env)
    requires |queue| >= 1 && queue[0].payload.Some?
    requires CollectPacket(queue[0], env, pending).panicked
    ensures var r := Drain(queue, env, pending);
            !r.alive && r.taken == 1 && |r.packets| == 1
    ensures DrainRecovering(queue, env, pending).taken == |queue|
  {
  }

  /** A registered device's message whose payload is the JSON literal `null`
      is logged and then panics before any command state is sent, so the
      consumer as written stops on it; the recovering consumer goes on. */
  lemma NullCommandStopsTheConsumer(queue: seq<DevicePayload>, env: Env, pending: Bus.Pending)
    requires Enumerates(env)
    requires |queue| >= 1 && queue[0].payload.Some?
    requires env.lookup(queue[0].did).Some? && env.decode(queue[0].payload.value) == Pointer(None)
    ensures var r := Drain(queue, env, pending);
            !r.alive && r.taken == 1 && r.packets[0].states == [] && r.packets[0].calls == []
    ensures DrainRecovering(queue, env, pending).taken == |queue|
  {
    assert Decoded(queue[0], env) == Some((env.lookup(queue[0].did).value, None));
  }

  /** handlerCameraChan with the recover moved into the loop body: a panic
      ends only its own message. */
  function DrainRecovering(queue: seq<DevicePayload>, env: Env, pending: Bus.Pending): (r: Drained)
    requires Enumerates(env)
    ensures r.alive && r.taken == |queue|
    ensures |r.packets| == |Handled(queue)|
    decreases |queue|
  {
    if queue == [] then Drained([], 0, true, pending)
    else if queue[0].payload.None? then
      var rest := DrainRecovering(queue[1..], env, pending);
      Drained(rest.packets, rest.taken + 1, true, rest.pending)
    else
      var pk := CollectPacketIntended(queue[0], env, pending);
      var rest := DrainRecovering(queue[1..], env, pk.pending);
      Drained([pk] + rest.packets, rest.taken + 1, true, rest.pending)
  }

  /** The messages the consumer hands on, in queue order: those with a
      payload. */
  function Handled(queue: seq<DevicePayload>): (h: seq<DevicePayload>)
    ensures |h| <= |queue|
    ensures forall i | 0 <= i < |h| :: h[i].payload.Some? && h[i] in queue
    ensures (forall i | 0 <= i < |queue| :: queue[i].payload.Some?) ==> h == queue
  {
    if queue == [] then []
    else if queue[0].payload.Some? then [queue[0]] + Handled(queue[1..])
    else Handled(queue[1..])
  }

  /** Two packets that sent the same command states, made the same camera
      calls and agree on whether a panic escaped. */
  predicate SameEffect(a: Packet, b: Packet) {
    a.states == b.states && a.calls == b.calls && a.panicked == b.panicked
  }

  /** What a message does to the command service and the camera does not
      depend on the telemetry bus, as written and as corrected. */
  lemma PacketIgnoresBus(p: DevicePayload, env: Env, pending: Bus.Pending, other: Bus.Pending)
    requires Enumerates(env)
    ensures SameEffect(CollectPacket(p, env, pending), CollectPacket(p, env, other))
  {
    match Decoded(p, env)
    case None =>
    case Some((info, twins)) =>
      if twins.Some? {
        var run := Downlink.HandleDownLink(twins.value, env.cam, OrderOf(twins.value, env));
        assert CollectPacket(p, env, pending).calls == run.calls;
      }
  }

  lemma IntendedPacketIgnoresBus(p: DevicePayload, env: Env, pending: Bus.Pending, other: Bus.Pending)
    requires Enumerates(env)
    ensures SameEffect(CollectPacketIntended(p, env, pending), CollectPacketIntended(p, env, other))
  {
    match Decoded(p, env)
    case None =>
    case Some((info, twins)) =>
      if twins.Some? {
        var run := Downlink.HandleDownLinkIntended(twins.value, env.cam, OrderOf(twins.value, env));
        assert CollectPacketIntended(p, env, pending).calls == run.calls;
      }
  }

  /** The packets are, one for one, what `handle` does with the messages of
      `h`, and there are no more of them than messages. */
  predicate Matches(packets: seq<Packet>, h: seq<DevicePayload>, handle: DevicePayload -> Packet) {
    && |packets| <= |h|
    && forall i | 0 <= i < |packets| :: SameEffect(packets[i], handle(h[i]))
  }

  /** collectCameraPacket as written, on a fixed environment and bus. */
  function AsWritten(env: Env, pending: Bus.Pending): (handle: DevicePayload -> Packet)
    requires Enumerates(env)
    ensures forall p :: handle(p) == CollectPacket(p, env, pending)
  {
    p => CollectPacket(p, env, pending)
  }

  /** collectCameraPacket as corrected, on a fixed environment and bus. */
  function AsIntended(env: Env, pending: Bus.Pending): (handle: DevicePayload -> Packet)
    requires Enumerates(env)
    ensures forall p :: handle(p) == CollectPacketIntended(p, env, pending)
  {
    p => CollectPacketIntended(p, env, pending)
  }

  /** A message's packet in front of the packets of the messages after it,
      when the handler for the rest has the same effects. */
  lemma MatchesCons(pk: Packet, rest: seq<Packet>, p: DevicePayload, h: seq<DevicePayload>,
                    handle: DevicePayload -> Packet, later: DevicePayload -> Packet)
    requires forall q :: SameEffect(handle(q), later(q))
    requires SameEffect(pk, handle(p)) && Matches(rest, h, later)
    ensures Matches([pk] + rest, [p] + h, handle)
  {
    forall i | 1 <= i < |rest| + 1
      ensures SameEffect(([pk] + rest)[i], handle(([p] + h)[i]))
    {
      assert ([pk] + rest)[i] == rest[i - 1] && ([p] + h)[i] == h[i - 1];
    }
  }

  /** The as-written handler's effects do not depend on the bus it starts from. */
  lemma AsWrittenIgnoresBus(env: Env, pending: Bus.Pending, other: Bus.Pending)
    requires Enumerates(env)
    ensures forall q :: SameEffect(AsWritten(env, pending)(q), AsWritten(env, other)(q))
  {
    forall q ensures SameEffect(AsWritten(env, pending)(q), AsWritten(env, other)(q)) {
      PacketIgnoresBus(q, env, pending, other);
    }
  }

  lemma AsIntendedIgnoresBus(env: Env, pending: Bus.Pending, other: Bus.Pending)
    requires Enumerates(env)
    ensures forall q :: SameEffect(AsIntended(env, pending)(q), AsIntended(env, other)(q))
  {
    forall q ensures SameEffect(AsIntended(env, pending)(q), AsIntended(env, other)(q)) {
      IntendedPacketIgnoresBus(q, env, pending, other);
    }
  }

  /** The consumer as written handles the messages with a payload in queue
      order: its i-th packet is what collectCameraPacket does with the i-th of
      them. It handles all of them while it stays alive. */
  lemma {:induction false} DrainHandlesInOrder(queue: seq<DevicePayload>, env: Env, pending: Bus.Pending)
    requires Enumerates(env)
    ensures var r := Drain(queue, env, pending);
            && Matches(r.packets, Handled(queue), AsWritten(env, pending))
            && (r.alive ==> |r.packets| == |Handled(queue)|)
    decreases |queue|
  {
    if queue != [] {
      if queue[0].payload.None? {
        DrainHandlesInOrder(queue[1..], env, pending);
      } else {
        var pk := CollectPacket(queue[0], env, pending);
        assert Handled(queue) == [queue[0]] + Handled(queue[1..]);
        if pk.panicked {
          MatchesCons(pk, [], queue[0], Handled(queue[1..]), AsWritten(env, pending), AsWritten(env, pending));
          assert [pk] + [] == [pk];
        } else {
          DrainHandlesInOrder(queue[1..], env, pk.pending);
          var rest := Drain(queue[1..], env, pk.pending);
          AsWrittenIgnoresBus(env, pending, pk.pending);
          MatchesCons(pk, rest.packets, queue[0], Handled(queue[1..]), AsWritten(env, pending), AsWritten(env, pk.pending));
        }
      }
    }
  }

  /** The recovering consumer handles every message with a payload, in queue
      order, with the corrected collectCameraPacket. */
  lemma {:induction false} DrainRecoveringHandlesInOrder(queue: seq<DevicePayload>, env: Env, pending: Bus.Pending)
    requires Enumerates(env)
    ensures var r := DrainRecovering(queue, env, pending);
            && Matches(r.packets, Handled(queue), AsIntended(env, pending))
            && |r.packets| == |Handled(queue)|
    decreases |queue|
  {
    if queue != [] {
      if queue[0].payload.None? {
        DrainRecoveringHandlesInOrder(queue[1..], env, pending);
      } else {
        var pk := CollectPacketIntended(queue[0], env, pending);
        assert Handled(queue) == [queue[0]] + Handled(queue[1..]);
        DrainRecoveringHandlesInOrder(queue[1..], env, pk.pending);
        var rest := DrainRecovering(queue[1..], env, pk.pending);
        AsIntendedIgnoresBus(env, pending, pk.pending);
        MatchesCons(pk, rest.packets, queue[0], Handled(queue[1..]), AsIntended(env, pending), AsIntended(env, pk.pending));
      }
    }
  }
}
