/** The telemetry sink's configuration defaulting and the write guard of the
    search-index client. The client itself (dialling, health checks, the HTTP
    index request) is external; only the decisions made before it are modelled. */
module Sink {
  import opened Values
  import Bus

  const DefaultIndex := "iot"
  const DefaultScheme := "http"
  const DefaultUrl := "http://192.168.1.6:9200"
  const LogType := "log"
  const NotConnectedMessage := "es client not connection"

  datatype EsConfig = EsConfig(
    url: string,
    index: string,
    scheme: string,
    username: string,
    password: string,
    close: bool)

  /** Init's defaulting: an empty index, scheme or URL takes its default; every
      other field, and every non-empty one, is kept. */
  function Init(c: EsConfig): (r: EsConfig)
    ensures r.index != "" && r.scheme != "" && r.url != ""
    ensures c.index != "" ==> r.index == c.index
    ensures c.index == "" ==> r.index == DefaultIndex
    ensures c.scheme != "" ==> r.scheme == c.scheme
    ensures c.scheme == "" ==> r.scheme == DefaultScheme
    ensures c.url != "" ==> r.url == c.url
    ensures c.url == "" ==> r.url == DefaultUrl
    ensures r.username == c.username && r.password == c.password && r.close == c.close
  {
    c.(index := if c.index == "" then DefaultIndex else c.index,
       scheme := if c.scheme == "" then DefaultScheme else c.scheme,
       url := if c.url == "" then DefaultUrl else c.url)
  }

  /** Defaulting twice is defaulting once. */
  lemma InitIdempotent(c: EsConfig)
    ensures Init(Init(c)) == Init(c)
  {
  }

  /** A configuration whose three defaulted fields are already set is left alone. */
  lemma InitFixesCompleteConfigs(c: EsConfig)
    ensures Init(c) == c <==> (c.index != "" && c.scheme != "" && c.url != "")
  {
  }

  /** The search-index client: `connected` is false for the zero-valued client
      built when the sink is switched off (`Es` is nil in Go). */
  datatype EsClient = EsClient(index: string, connected: bool)

  /** The client Init hands out, which becomes the event loop's writer. A
      switched-off sink gets the zero client; a switched-on sink gets a
      connected client when the cluster can be reached and answers a ping, and
      a nil pointer (None) when it cannot. */
  function NewClient(c: EsConfig, reachable: bool): (r: Option<EsClient>)
    ensures c.close ==> r == Some(EsClient("", false))
    ensures !c.close ==> (r.Some? <==> reachable)
    ensures r.Some? && !c.close ==> r.value.connected && r.value.index == c.index
  {
    if c.close then Some(EsClient("", false))
    else if reachable then Some(EsClient(c.index, true))
    else None
  }

  /** One index request: the event is stored under its own index name. */
  datatype IndexRequest = IndexRequest(index: string, docType: string, body: Bus.Event)

  /** The error returned, the requests sent, and whether the write panicked. */
  datatype WriteResult = WriteResult(err: Option<string>, sent: seq<IndexRequest>, panicked: bool)

  /** write through the event loop's writer: a nil writer panics on reading
      its client field; a client without a connection fails at once and sends
      nothing; otherwise exactly one index request is sent and its failure is
      returned. */
  function Write(writer: Option<EsClient>, evt: Bus.Event, accepts: IndexRequest -> bool): (r: WriteResult)
    ensures r.panicked <==> writer.None?
    ensures r.panicked ==> r.sent == []
    ensures writer.Some? && !writer.value.connected ==> r.err == Some(NotConnectedMessage) && r.sent == []
    ensures writer.Some? && writer.value.connected ==>
              |r.sent| == 1 && r.sent[0].index == evt.index && r.sent[0].body == evt
              && (r.err.None? <==> accepts(r.sent[0]))
  {
    match writer
    case None => WriteResult(None, [], true)
    case Some(es) =>
      if !es.connected then WriteResult(Some(NotConnectedMessage), [], false)
      else
        var req := IndexRequest(evt.index, LogType, evt);
        WriteResult(if accepts(req) then None else Some("index request failed"), [req], false)
  }

  /** With the sink switched off, every event the bus hands over is rejected. */
  lemma ClosedSinkRejectsEverything(c: EsConfig, reachable: bool, evt: Bus.Event, accepts: IndexRequest -> bool)
    requires c.close
    ensures var r := Write(NewClient(Init(c), reachable), evt, accepts);
            !r.panicked && r.err.Some? && r.sent == []
  {
  }

  /** With the sink switched on, the first event written decides the process's
      fate: an unreachable cluster leaves a nil writer whose first write panics
      (nothing recovers it), and a reachable one sends the event. */
  lemma OpenSinkNeedsTheCluster(c: EsConfig, reachable: bool, evt: Bus.Event, accepts: IndexRequest -> bool)
    requires !c.close
    ensures var r := Write(NewClient(Init(c), reachable), evt, accepts);
            (r.panicked <==> !reachable) && (reachable ==> |r.sent| == 1 && r.sent[0].index == evt.index)
  {
  }
}
