/** The MQTT side of the bridge: topic parsing in the delivery callback, the
    non-blocking enqueue into the 1024-slot ingress queue, and the connection
    life cycle (connect loop, subscribe on connect, reconnect on loss, close).
    Each life-cycle step appends the client actions it performs to a trace. */
module Mqtt {
  import opened Values
  import opened Twins

  const BufferSize: nat := 1024
  const Slash: char := '/'
  const DeviceTopic := "/x55P94801qK/+/get"
  const RxTopic := "/x55P94801qK/7923463163321710/update"
  const AckTopic := "/x55P94801qK/+/ack"
  const RetryDelaySeconds: nat := 2
  const LostQuiesceMillis: nat := 250
  const CloseQuiesceMillis: nat := 0

  // ---------------------------------------------------------------------
  // Topics

  /** Go's `strings.Split(s, "/")`: the pieces between separators, so n
      separators give n+1 pieces and the empty string gives one empty piece. */
  function Split(s: string): (r: seq<string>)
    ensures |r| >= 1
    ensures forall i | 0 <= i < |r| :: Slash !in r[i]
    decreases |s|
  {
    if |s| == 0 then [""]
    else
      var rest := Split(s[1..]);
      if s[0] == Slash then [""] + rest
      else [[s[0]] + rest[0]] + rest[1..]
  }

  /** The inverse of Split: the pieces glued back with separators. */
  function Join(parts: seq<string>): string
    requires |parts| >= 1
    decreases |parts|
  {
    if |parts| == 1 then parts[0] else parts[0] + [Slash] + Join(parts[1..])
  }

  /** Joining the pieces of a split gives back the string. */
  lemma {:induction false} JoinSplit(s: string)
    ensures Join(Split(s)) == s
    decreases |s|
  {
    if |s| > 0 {
      var rest := Split(s[1..]);
      JoinSplit(s[1..]);
      if s[0] == Slash {
        assert Split(s) == [""] + rest;
        assert ([""] + rest)[1..] == rest;
      } else {
        var r := Split(s);
        assert r == [[s[0]] + rest[0]] + rest[1..];
        if |rest| == 1 {
          assert Join(r) == [s[0]] + rest[0];
        } else {
          assert r[1..] == rest[1..];
          assert Join(rest) == rest[0] + [Slash] + Join(rest[1..]);
        }
        assert s == [s[0]] + s[1..];
      }
    }
  }

  /** Splitting a join of separator-free pieces gives back the pieces. */
  lemma {:induction false} SplitJoin(parts: seq<string>)
    requires |parts| >= 1
    requires forall i | 0 <= i < |parts| :: Slash !in parts[i]
    ensures Split(Join(parts)) == parts
    decreases |parts|, |parts[0]|
  {
    if |parts| == 1 {
      SplitPiece(parts[0]);
    } else if parts[0] == [] {
      var tail := Join(parts[1..]);
      assert Join(parts) == [Slash] + tail;
      SplitJoin(parts[1..]);
      assert ([Slash] + tail)[1..] == tail;
    } else {
      var c := parts[0][0];
      var shorter := [parts[0][1..]] + parts[1..];
      assert shorter[1..] == parts[1..];
      assert Join(shorter) == parts[0][1..] + [Slash] + Join(parts[1..]);
      assert Join(parts) == [c] + Join(shorter);
      forall i | 0 <= i < |shorter| ensures Slash !in shorter[i] {
        if i == 0 {
          assert forall x | x in parts[0][1..] :: x in parts[0];
        } else {
          assert shorter[i] == parts[i];
        }
      }
      SplitJoin(shorter);
      assert ([c] + Join(shorter))[1..] == Join(shorter);
      assert [c] + parts[0][1..] == parts[0];
    }
  }

  /** A piece without separators splits into itself. */
  lemma {:induction false} SplitPiece(s: string)
    requires Slash !in s
    ensures Split(s) == [s]
    decreases |s|
  {
    if |s| > 0 {
      assert Slash !in s[1..] by {
        assert forall x | x in s[1..] :: x in s;
      }
      SplitPiece(s[1..]);
      assert [s[0]] + s[1..] == s;
    }
  }

  /** A four-piece join written out. */
  lemma Join4(a: string, b: string, c: string, d: string)
    ensures Join([a, b, c, d]) == a + [Slash] + b + [Slash] + c + [Slash] + d
  {
    var p := [a, b, c, d];
    assert p[1..] == [b, c, d];
    assert p[1..][1..] == [c, d];
    assert p[1..][1..][1..] == [d];
    assert Join([d]) == d;
    assert Join([c, d]) == c + [Slash] + d;
    assert Join([b, c, d]) == b + [Slash] + (c + [Slash] + d);
    assert Join(p) == a + [Slash] + (b + [Slash] + (c + [Slash] + d));
  }

  /** The device id of a topic: the third piece of a four-piece topic, None for
      any other shape. */
  function DeviceId(topic: string): (r: Option<string>)
    ensures r.Some? <==> |Split(topic)| == 4
    ensures r.Some? ==> r.value == Split(topic)[2] && Slash !in r.value
  {
    var s := Split(topic);
    if |s| != 4 then None else Some(s[2])
  }

  /** Topic-filter matching with the single-level wildcard `+` (section 4.7.1.3
      of MQTT 3.1.1): the same number of levels, each equal or matched by `+`. */
  predicate LevelsMatch(filter: seq<string>, topic: seq<string>) {
    |filter| == |topic| && forall i | 0 <= i < |filter| :: filter[i] == "+" || filter[i] == topic[i]
  }

  predicate TopicMatches(filter: string, topic: string) {
    LevelsMatch(Split(filter), Split(topic))
  }

  /** The topic the cloud publishes a device's commands on. */
  function CommandTopic(did: string): string {
    "/x55P94801qK/" + did + "/get"
  }

  /** Four separator-free levels joined by separators split back into those levels. */
  lemma FourLevels(a: string, b: string, c: string, d: string)
    requires Slash !in a && Slash !in b && Slash !in c && Slash !in d
    ensures Split(a + [Slash] + b + [Slash] + c + [Slash] + d) == [a, b, c, d]
  {
    Join4(a, b, c, d);
    SplitJoin([a, b, c, d]);
  }

  /** A command topic written out level by level. */
  lemma CommandTopicLevels(did: string)
    ensures CommandTopic(did) == "" + [Slash] + "x55P94801qK" + [Slash] + did + [Slash] + "get"
  {
  }

  /** The subscription's filter has four levels, the third being the wildcard. */
  lemma DeviceTopicLevels()
    ensures Split(DeviceTopic) == ["", "x55P94801qK", "+", "get"]
  {
    assert DeviceTopic == "" + [Slash] + "x55P94801qK" + [Slash] + "+" + [Slash] + "get";
    FourLevels("", "x55P94801qK", "+", "get");
  }

  /** For every device id without a separator, its command topic matches the
      subscription, and the callback reads the id back from the level `+` matched. */
  lemma CommandTopicRoundTrip(did: string)
    requires Slash !in did
    ensures TopicMatches(DeviceTopic, CommandTopic(did))
    ensures DeviceId(CommandTopic(did)) == Some(did)
  {
    var t := CommandTopic(did);
    var levels := ["", "x55P94801qK", did, "get"];
    CommandTopicLevels(did);
    FourLevels("", "x55P94801qK", did, "get");
    assert Split(t) == levels;
    DeviceTopicLevels();
    var filter := ["", "x55P94801qK", "+", "get"];
    assert LevelsMatch(filter, levels) by {
      forall i | 0 <= i < 4 ensures filter[i] == "+" || filter[i] == levels[i] {
        if i == 2 { assert filter[2] == "+"; }
      }
    }
  }

  /** A topic matching a four-level filter whose third level is the wildcard is
      the filter with that level replaced by the topic's own third level. */
  lemma {:induction false} WildcardLevel(a: string, b: string, d: string, topic: string)
    requires a != "+" && b != "+" && d != "+"
    requires LevelsMatch([a, b, "+", d], Split(topic))
    ensures |Split(topic)| == 4
    ensures topic == a + [Slash] + b + [Slash] + Split(topic)[2] + [Slash] + d
  {
    var s := Split(topic);
    var f := [a, b, "+", d];
    JoinSplit(topic);
    assert s == [s[0], s[1], s[2], s[3]];
    Join4(s[0], s[1], s[2], s[3]);
    assert f[0] == a && f[1] == b && f[3] == d;
    assert f[0] == "+" || f[0] == s[0];
    assert f[1] == "+" || f[1] == s[1];
    assert f[3] == "+" || f[3] == s[3];
  }

  /** Every topic the subscription delivers is accepted by the callback, the id
      it takes is the level the wildcard matched, and the topic is that device's
      command topic. */
  lemma SubscribedTopicsAreAccepted(topic: string)
    requires TopicMatches(DeviceTopic, topic)
    ensures DeviceId(topic).Some?
    ensures DeviceId(topic).value == Split(topic)[2]
    ensures topic == CommandTopic(DeviceId(topic).value)
  {
    DeviceTopicLevels();
    WildcardLevel("", "x55P94801qK", "get", topic);
    CommandTopicLevels(Split(topic)[2]);
  }

  // ---------------------------------------------------------------------
  // Ingress queue

  /** What the delivery callback did with one message. */
  datatype Ingress = Enqueued | QueueFull | BadTopic

  /** The pending messages, oldest first, never more than the channel's capacity. */
  type Queue = q: seq<DevicePayload> | |q| <= BufferSize

  /** deviceHandler: split the topic, take the device id, then try a
      non-blocking send; a full queue drops the message. */
  function DeviceHandler(queue: Queue, topic: string, payload: Option<seq<Byte>>): (r: (Queue, Ingress))
    ensures r.1 == BadTopic <==> |Split(topic)| != 4
    ensures r.1 == QueueFull <==> |Split(topic)| == 4 && |queue| == BufferSize
    ensures r.1 != Enqueued ==> r.0 == queue
    ensures r.1 == Enqueued ==> r.0 == queue + [DevicePayload(DeviceId(topic).value, payload)]
  {
    match DeviceId(topic)
    case None => (queue, BadTopic)
    case Some(did) =>
      if |queue| < BufferSize then (queue + [DevicePayload(did, payload)], Enqueued)
      else (queue, QueueFull)
  }

  /** Delivering a sequence of messages to an empty queue with no consumer keeps
      the first 1024 well-formed ones and drops every later one, in order. */
  function DeliverAll(queue: Queue, msgs: seq<(string, Option<seq<Byte>>)>): Queue
    decreases |msgs|
  {
    if msgs == [] then queue
    else DeliverAll(DeviceHandler(queue, msgs[0].0, msgs[0].1).0, msgs[1..])
  }

  /** 1025 deliveries on one command topic: exactly 1024 are queued, each with the
      device id and payload it arrived with, and the last is dropped. */
  lemma {:induction false} OverflowDropsTheSurplus(did: string, payloads: seq<Option<seq<Byte>>>)
    requires Slash !in did
    requires |payloads| == BufferSize + 1
    ensures var q := DeliverAll([], seq(|payloads|, i requires 0 <= i < |payloads| => (CommandTopic(did), payloads[i])));
            && |q| == BufferSize
            && forall i | 0 <= i < BufferSize :: q[i] == DevicePayload(did, payloads[i])
  {
    var msgs := seq(|payloads|, i requires 0 <= i < |payloads| => (CommandTopic(did), payloads[i]));
    assert DeviceId(CommandTopic(did)) == Some(did) by {
      CommandTopicRoundTrip(did);
    }
    assert msgs[0..] == msgs;
    DeliverPrefix([], did, payloads, msgs, 0);
  }

  /** Loop invariant of OverflowDropsTheSurplus, one message at a time. */
  lemma {:induction false} DeliverPrefix(queue: Queue, did: string, payloads: seq<Option<seq<Byte>>>,
                                         msgs: seq<(string, Option<seq<Byte>>)>, n: nat)
    requires DeviceId(CommandTopic(did)) == Some(did)
    requires |msgs| == |payloads| && n <= |msgs|
    requires forall i | 0 <= i < |msgs| :: msgs[i] == (CommandTopic(did), payloads[i])
    requires |queue| == if n < BufferSize then n else BufferSize
    requires forall i | 0 <= i < |queue| :: queue[i] == DevicePayload(did, payloads[i])
    ensures var q := DeliverAll(queue, msgs[n..]);
            && |q| == (if |msgs| < BufferSize then |msgs| else BufferSize)
            && forall i | 0 <= i < |q| :: q[i] == DevicePayload(did, payloads[i])
    decreases |msgs| - n
  {
    if n < |msgs| {
      assert msgs[n..][0] == msgs[n];
      assert msgs[n..][1..] == msgs[n + 1..];
      var next := DeviceHandler(queue, CommandTopic(did), payloads[n]).0;
      DeliverPrefix(next, did, payloads, msgs, n + 1);
    } else {
      assert msgs[n..] == [];
    }
  }

  // ---------------------------------------------------------------------
  // Connection life cycle

  /** The client calls the backend makes, in order. */
  datatype Action =
    | NewClient
    | ConnectAttempt(ok: bool)
    | Sleep(seconds: nat)
    | Subscribe(topic: string, qos: nat)
    | SubscribeFailureLogged(topic: string)
    | Disconnect(quiesceMillis: nat)
    | WaitHandlers
    | CloseDeviceChan
    | Publish(topic: string, qos: nat, payload: seq<Byte>)

  datatype Conn = Disconnected | Connected

  datatype Backend = Backend(conn: Conn, qos: nat, queue: Queue, chanOpen: bool, actions: seq<Action>)

  /** The actions of one refused connect attempt. */
  const FailedRound: seq<Action> := [NewClient, ConnectAttempt(false), Sleep(RetryDelaySeconds)]

  /** The actions of one accepted connect attempt. */
  const Connecting: seq<Action> := [NewClient, ConnectAttempt(true)]

  /** The actions of `k` refused connect attempts. */
  function Failures(k: nat): seq<Action> {
    if k == 0 then [] else FailedRound + Failures(k - 1)
  }

  /** The actions of `k` refused connect attempts followed by an accepted one. */
  function Retries(k: nat): seq<Action> {
    Failures(k) + Connecting
  }

  /** Index of the first successful attempt. */
  function FirstSuccess(attempts: seq<bool>): (k: nat)
    requires true in attempts
    ensures k < |attempts| && attempts[k] && forall i | 0 <= i < k :: !attempts[i]
  {
    if attempts[0] then 0 else FirstSuccess(attempts[1..]) + 1
  }

  /** connectLoop: connect with a fresh client; on failure sleep two seconds and
      try again. `attempts` are the broker's answers to successive connects; when
      none of them succeeds the loop is still running and the backend stays
      disconnected. */
  function ConnectLoop(b: Backend, attempts: seq<bool>): (r: Backend)
    ensures r.qos == b.qos && r.queue == b.queue && r.chanOpen == b.chanOpen
    ensures attempts != [] ==> (r.conn == Connected <==> true in attempts)
    decreases |attempts|
  {
    if attempts == [] then b
    else if attempts[0] then b.(conn := Connected, actions := b.actions + Connecting)
    else
      var next := b.(conn := Disconnected, actions := b.actions + FailedRound);
      assert attempts == [false] + attempts[1..];
      ConnectLoop(next, attempts[1..])
  }

  /** The connect loop's trace up to the first success: one failed round per
      refused attempt, then the successful connect. */
  lemma {:induction false} ConnectLoopSucceeds(b: Backend, attempts: seq<bool>)
    requires true in attempts
    ensures ConnectLoop(b, attempts).actions == b.actions + Retries(FirstSuccess(attempts))
    decreases |attempts|
  {
    if !attempts[0] {
      var rest := attempts[1..];
      var next := b.(conn := Disconnected, actions := b.actions + FailedRound);
      RefusedAttempt(b, attempts);
      ConnectLoopSucceeds(next, rest);
      RetriesStep(b.actions, FirstSuccess(rest));
    }
  }

  /** A refused first attempt: one failed round, then the loop on the rest. */
  lemma RefusedAttempt(b: Backend, attempts: seq<bool>)
    requires true in attempts && !attempts[0]
    ensures true in attempts[1..]
    ensures FirstSuccess(attempts) == FirstSuccess(attempts[1..]) + 1
    ensures ConnectLoop(b, attempts)
            == ConnectLoop(b.(conn := Disconnected, actions := b.actions + FailedRound), attempts[1..])
  {
    assert attempts == [false] + attempts[1..];
  }

  /** A failed round in front of k retries is k + 1 retries. */
  lemma RetriesStep(prefix: seq<Action>, k: nat)
    ensures (prefix + FailedRound) + Retries(k) == prefix + Retries(k + 1)
  {
    assert FailedRound + Failures(k) == Failures(k + 1);
  }

  /** With every attempt refused, one failed round per attempt. */
  lemma {:induction false} ConnectLoopKeepsTrying(b: Backend, attempts: seq<bool>)
    requires true !in attempts
    ensures ConnectLoop(b, attempts).actions == b.actions + Failures(|attempts|)
    decreases |attempts|
  {
    if attempts != [] {
      var next := b.(conn := Disconnected, actions := b.actions + FailedRound);
      assert attempts[0] in attempts;
      assert true !in attempts[1..] by {
        forall i | 0 <= i < |attempts| - 1 ensures attempts[1..][i] == attempts[i + 1] { }
      }
      ConnectLoopKeepsTrying(next, attempts[1..]);
    }
  }

  /** Each refused attempt costs one two-second sleep; the accepted one none. */
  lemma SleepsBeforeConnect(k: nat)
    ensures CountSleeps(Retries(k)) == k
    ensures CountSleeps(Retries(k)) * RetryDelaySeconds == 2 * k
  {
    FailuresSleep(k);
    CountSleepsAppend(Failures(k), Connecting);
    assert CountSleeps(Connecting) == 0 by {
      assert Connecting[1..][1..] == [];
      assert CountSleeps(Connecting[1..]) == 0;
    }
  }

  lemma {:induction false} FailuresSleep(k: nat)
    ensures CountSleeps(Failures(k)) == k
  {
    if k > 0 {
      assert CountSleeps(FailedRound) == 1 by {
        assert FailedRound[1..][1..][1..] == [];
        assert CountSleeps(FailedRound[1..][1..]) == 1;
        assert CountSleeps(FailedRound[1..]) == 1;
      }
      FailuresSleep(k - 1);
      CountSleepsAppend(FailedRound, Failures(k - 1));
    }
  }

  function CountSleeps(actions: seq<Action>): nat {
    if actions == [] then 0 else (if actions[0].Sleep? then 1 else 0) + CountSleeps(actions[1..])
  }

  lemma {:induction false} CountSleepsAppend(a: seq<Action>, b: seq<Action>)
    ensures CountSleeps(a + b) == CountSleeps(a) + CountSleeps(b)
    decreases |a|
  {
    if a != [] {
      assert (a + b)[1..] == a[1..] + b;
      CountSleepsAppend(a[1..], b);
    } else {
      assert a + b == b;
    }
  }

  /** onConnected: subscribe to the device topic; a failure is only logged and
      changes nothing else. */
  function OnConnected(b: Backend, subscribed: bool): (r: Backend)
    ensures r.conn == b.conn && r.qos == b.qos && r.queue == b.queue && r.chanOpen == b.chanOpen
    ensures |r.actions| > |b.actions| && r.actions[..|b.actions|] == b.actions
    ensures r.actions[|b.actions|] == Subscribe(DeviceTopic, b.qos)
    ensures subscribed ==> r.actions == b.actions + [Subscribe(DeviceTopic, b.qos)]
    ensures !subscribed ==> r.actions == b.actions + [Subscribe(DeviceTopic, b.qos), SubscribeFailureLogged(DeviceTopic)]
  {
    var acts := SubscribeActions(b.qos, subscribed);
    assert (b.actions + acts)[..|b.actions|] == b.actions;
    b.(actions := b.actions + acts)
  }

  /** onConnectionLost: disconnect (250 ms quiesce), then run the connect loop. */
  function OnConnectionLost(b: Backend, attempts: seq<bool>): (r: Backend)
    ensures r.conn == Connected <==> true in attempts
    ensures true in attempts ==> r.actions == b.actions + [Disconnect(LostQuiesceMillis)] + Retries(FirstSuccess(attempts))
    ensures true !in attempts ==> r.actions == b.actions + [Disconnect(LostQuiesceMillis)] + Failures(|attempts|)
    ensures r.qos == b.qos && r.queue == b.queue && r.chanOpen == b.chanOpen
  {
    var down := b.(conn := Disconnected, actions := b.actions + [Disconnect(LostQuiesceMillis)]);
    var r := ConnectLoop(down, attempts);
    assert true in attempts ==> r.actions == down.actions + Retries(FirstSuccess(attempts)) by {
      if true in attempts { ConnectLoopSucceeds(down, attempts); }
    }
    assert true !in attempts ==> r.actions == down.actions + Failures(|attempts|) by {
      if true !in attempts { ConnectLoopKeepsTrying(down, attempts); }
    }
    r
  }

  function CountSubscribes(actions: seq<Action>): nat {
    if actions == [] then 0 else (if actions[0].Subscribe? then 1 else 0) + CountSubscribes(actions[1..])
  }

  /** A connection loss followed by the client's on-connect callback: once the
      loop connects again, the device topic is subscribed exactly once more. */
  function Reconnect(b: Backend, attempts: seq<bool>, subscribed: bool): (r: Backend)
    requires true in attempts
    ensures r.conn == Connected
  {
    OnConnected(OnConnectionLost(b, attempts), subscribed)
  }

  lemma ResubscribesOncePerReconnect(b: Backend, attempts: seq<bool>, subscribed: bool)
    requires true in attempts
    ensures var r := Reconnect(b, attempts, subscribed);
            && |r.actions| > |b.actions|
            && r.actions[..|b.actions|] == b.actions
            && r.actions[|b.actions|] == Disconnect(LostQuiesceMillis)
            && CountSubscribes(r.actions) == CountSubscribes(b.actions) + 1
  {
    var k := FirstSuccess(attempts);
    var tail := [Disconnect(LostQuiesceMillis)] + Retries(k);
    var sub := SubscribeActions(b.qos, subscribed);
    var r := Reconnect(b, attempts, subscribed);
    assert r.actions == b.actions + (tail + sub);
    ReconnectTailCount(k, b.qos, subscribed);
    CountSubscribesAppend(b.actions, tail + sub);
  }

  /** The actions onConnected appends. */
  function SubscribeActions(qos: nat, subscribed: bool): seq<Action> {
    if subscribed then [Subscribe(DeviceTopic, qos)] else [Subscribe(DeviceTopic, qos), SubscribeFailureLogged(DeviceTopic)]
  }

  lemma ReconnectTailCount(k: nat, qos: nat, subscribed: bool)
    ensures CountSubscribes([Disconnect(LostQuiesceMillis)] + Retries(k) + SubscribeActions(qos, subscribed)) == 1
  {
    var sub := SubscribeActions(qos, subscribed);
    CountSubscribesAppend([Disconnect(LostQuiesceMillis)] + Retries(k), sub);
    CountSubscribesAppend([Disconnect(LostQuiesceMillis)], Retries(k));
    RetriesHaveNoSubscribe(k);
    assert CountSubscribes([Disconnect(LostQuiesceMillis)]) == 0;
    assert CountSubscribes(sub) == 1 by {
      if subscribed {
        assert sub[1..] == [];
      } else {
        assert sub[1..] == [SubscribeFailureLogged(DeviceTopic)];
        assert sub[1..][1..] == [];
        assert CountSubscribes(sub[1..]) == 0;
      }
    }
  }

  lemma {:induction false} CountSubscribesAppend(a: seq<Action>, b: seq<Action>)
    ensures CountSubscribes(a + b) == CountSubscribes(a) + CountSubscribes(b)
    decreases |a|
  {
    if a != [] {
      assert (a + b)[1..] == a[1..] + b;
      CountSubscribesAppend(a[1..], b);
    } else {
      assert a + b == b;
    }
  }

  lemma RetriesHaveNoSubscribe(k: nat)
    ensures CountSubscribes(Retries(k)) == 0
  {
    FailuresHaveNoSubscribe(k);
    CountSubscribesAppend(Failures(k), Connecting);
    assert CountSubscribes(Connecting) == 0 by {
      assert Connecting[1..][1..] == [];
      assert CountSubscribes(Connecting[1..]) == 0;
    }
  }

  lemma {:induction false} FailuresHaveNoSubscribe(k: nat)
    ensures CountSubscribes(Failures(k)) == 0
  {
    if k > 0 {
      assert CountSubscribes(FailedRound) == 0 by {
        assert FailedRound[1..][1..][1..] == [];
        assert CountSubscribes(FailedRound[1..][1..]) == 0;
        assert CountSubscribes(FailedRound[1..]) == 0;
      }
      FailuresHaveNoSubscribe(k - 1);
      CountSubscribesAppend(FailedRound, Failures(k - 1));
    }
  }

  /** Close: disconnect at once, wait for the in-flight delivery callbacks, then
      close the ingress channel, in that order. A deliberate disconnect does
      not fire the connection-lost handler, so the client stays down. */
  function Close(b: Backend): (r: Backend)
    ensures r.actions == b.actions + [Disconnect(CloseQuiesceMillis), WaitHandlers, CloseDeviceChan]
    ensures r.conn == Disconnected && !r.chanOpen
    ensures r.qos == b.qos && r.queue == b.queue
  {
    b.(conn := Disconnected, chanOpen := false,
       actions := b.actions + [Disconnect(CloseQuiesceMillis), WaitHandlers, CloseDeviceChan])
  }

  /** Close against a lost connection: both disconnect first, but Close does
      not wait for in-flight work and never tries to connect again, while the
      connection-lost handler reconnects once an attempt succeeds. */
  lemma CloseNeverReconnects(b: Backend, attempts: seq<bool>)
    ensures var r := Close(b);
            && r.conn == Disconnected
            && forall i | |b.actions| <= i < |r.actions| :: !r.actions[i].ConnectAttempt? && !r.actions[i].Subscribe?
    ensures Close(b).actions[|b.actions|].quiesceMillis < OnConnectionLost(b, attempts).actions[|b.actions|].quiesceMillis
    ensures true in attempts ==> OnConnectionLost(b, attempts).conn == Connected
  {
    assert OnConnectionLost(b, attempts).actions[|b.actions|] == Disconnect(LostQuiesceMillis);
  }

  /** publish: exactly one publish, at the configured QoS, is appended and
      nothing else about the backend changes; the broker's rejection is the
      error. */
  function PublishOn(b: Backend, topic: string, payload: seq<Byte>, accepted: bool): (r: (Backend, bool))
    ensures |r.0.actions| == |b.actions| + 1 && r.0.actions[..|b.actions|] == b.actions
    ensures r.0.actions[|b.actions|] == Publish(topic, b.qos, payload)
    ensures r.0.conn == b.conn && r.0.qos == b.qos && r.0.queue == b.queue && r.0.chanOpen == b.chanOpen
    ensures r.1 <==> accepted
  {
    (b.(actions := b.actions + [Publish(topic, b.qos, payload)]), accepted)
  }
}
