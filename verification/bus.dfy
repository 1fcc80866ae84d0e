/** The telemetry event bus: a process-wide buffered channel of capacity
    1000*1024. Producers call Mark, which never blocks: it either enqueues one
    event or reports that the bus is full. A single consumer drains the channel
    in FIFO order and hands each event to the sink, ignoring write errors. */
module Bus {
  import opened Values

  const EventBufferSize: nat := 1000 * 1024
  const TimestampKey := "timestamp"
  const BusFullMessage := "metrics eventBus is full."

  /** One telemetry record: the index it is stored under and its fields. */
  datatype Event = Event(index: string, value: Fields)

  /** The events waiting in the channel, oldest first. */
  type Pending = s: seq<Event> | |s| <= EventBufferSize

  /** The outcome of Mark: the new channel contents, the caller's map after Mark
      stamped it (Go hands the caller's own map to the event), and the error. */
  datatype MarkResult = MarkResult(pending: Pending, fields: Fields, err: Option<string>)

  /** Mark: stamp the caller's map with the current time, then try a
      non-blocking send. The stamp happens before the send, so the caller's map
      gains the timestamp even when the bus is full. */
  function Mark(pending: Pending, fields: Fields, index: string, now: int): (r: MarkResult)
    ensures TimestampKey in r.fields && r.fields[TimestampKey] == Time(now)
    ensures r.fields.Keys == fields.Keys + {TimestampKey}
    ensures forall k | k in fields && k != TimestampKey :: r.fields[k] == fields[k]
    ensures r.err.Some? <==> |pending| == EventBufferSize
    ensures r.err.Some? ==> r.pending == pending && r.err.value == BusFullMessage
    ensures r.err.None? ==> r.pending == pending + [Event(index, r.fields)]
  {
    var stamped := fields[TimestampKey := Time(now)];
    if |pending| < EventBufferSize then
      MarkResult(pending + [Event(index, stamped)], stamped, None)
    else
      MarkResult(pending, stamped, Some(BusFullMessage))
  }

  /** Number of events among `events` the writer rejects. */
  function Rejected(events: seq<Event>, write: Event -> bool): nat {
    if events == [] then 0 else (if write(events[0]) then 0 else 1) + Rejected(events[1..], write)
  }

  /** The consumer loop over the events currently pending: each event is taken
      from the head and written exactly once, in FIFO order; a failed write is
      dropped and the loop goes on. */
  method EventLoop(pending: Pending, write: Event -> bool) returns (written: seq<Event>, failures: nat, rest: Pending)
    ensures written == pending
    ensures rest == []
    ensures failures == Rejected(pending, write)
  {
    rest := pending;
    written := [];
    failures := 0;
    while rest != []
      invariant written + rest == pending
      invariant failures + Rejected(rest, write) == Rejected(pending, write)
      decreases |rest|
    {
      var evt := rest[0];
      var ok := write(evt);
      if !ok {
        failures := failures + 1;
      }
      written := written + [evt];
      rest := rest[1..];
    }
  }

  /** Events leave the bus in the order Mark put them in: draining after a
      successful Mark writes the earlier events first and the new event last. */
  lemma {:induction false} MarkThenDrainIsFifo(pending: Pending, fields: Fields, index: string, now: int, write: Event -> bool)
    requires |pending| < EventBufferSize
    ensures var m := Mark(pending, fields, index, now);
            && m.err.None?
            && m.pending[..|pending|] == pending
            && m.pending[|pending|] == Event(index, fields[TimestampKey := Time(now)])
            && Rejected(m.pending, write) == Rejected(pending, write) + (if write(m.pending[|pending|]) then 0 else 1)
  {
    var m := Mark(pending, fields, index, now);
    RejectedAppend(pending, m.pending[|pending|], write);
  }

  lemma {:induction false} RejectedAppend(events: seq<Event>, e: Event, write: Event -> bool)
    ensures Rejected(events + [e], write) == Rejected(events, write) + (if write(e) then 0 else 1)
    decreases |events|
  {
    if events != [] {
      assert (events + [e])[1..] == events[1..] + [e];
      RejectedAppend(events[1..], e, write);
    } else {
      assert (events + [e])[1..] == [];
    }
  }
}
