/** The observer dashboard's view of captured traffic: the list of exchange
    rows kept by the `request` and `response` listeners, and the small
    classifiers that decide how a row and the connection indicator look. */
module Dashboard {
  import opened JsValues
  import opened Events

  /** One entry of the `requests` state: the `request` payload as received,
      plus the fields a merged `response` payload adds. A field that the
      JavaScript object does not have is None. */
  datatype Row = Row(
    id: string,
    verb: string,
    url: string,
    headers: map<string, string>,
    timestamp: int,
    protocol: string,
    statusCode: Option<int>,
    duration: Option<int>,
    status: Option<int>)

  /** The object a `request` payload becomes when stored. */
  function FromRequest(d: RequestData): Row {
    Row(d.id, d.verb, d.url, d.headers, d.timestamp, d.protocol, None, None, None)
  }

  function Ids(rows: seq<Row>): set<string> {
    set i | 0 <= i < |rows| :: rows[i].id
  }

  /** `setRequests(prev => [data, ...prev])`: the newest exchange goes first. */
  function OnRequest(prev: seq<Row>, d: RequestData): (next: seq<Row>)
    ensures |next| == |prev| + 1
    ensures next[0] == FromRequest(d) && next[1..] == prev
    ensures Ids(next) == {d.id} + Ids(prev)
  {
    var next := [FromRequest(d)] + prev;
    assert forall i :: 0 <= i < |prev| ==> next[i + 1] == prev[i];
    next
  }

  /** `{ ...req, ...data, status: data.statusCode }`: the response payload's
      fields override the row's, and `status` copies the status code. */
  function Merge(row: Row, d: ResponseData): Row {
    row.(id := d.id, statusCode := Some(d.statusCode), duration := Some(d.duration),
         status := Some(d.statusCode))
  }

  /** `prev.map(req => req.id === data.id ? merged : req)`. */
  function OnResponse(prev: seq<Row>, d: ResponseData): (next: seq<Row>)
    ensures |next| == |prev|
    ensures forall i :: 0 <= i < |prev| ==> next[i].id == prev[i].id
    ensures forall i :: 0 <= i < |prev| && prev[i].id != d.id ==> next[i] == prev[i]
    ensures forall i :: 0 <= i < |prev| && prev[i].id == d.id ==> next[i] == Merge(prev[i], d)
  {
    if prev == [] then []
    else [if prev[0].id == d.id then Merge(prev[0], d) else prev[0]] + OnResponse(prev[1..], d)
  }

  /** A merged row keeps what the request said, takes the response's code and
      duration, and its displayed status equals the status code. */
  lemma MergeKeepsRequestFields(row: Row, d: ResponseData)
    requires row.id == d.id
    ensures var m := Merge(row, d);
      && m.id == row.id && m.verb == row.verb && m.url == row.url
      && m.headers == row.headers && m.timestamp == row.timestamp
      && m.protocol == row.protocol
      && m.statusCode == Some(d.statusCode) && m.duration == Some(d.duration)
      && m.status == m.statusCode
  {
  }

  /** A response whose id no row has changes nothing. */
  lemma {:induction false} UnmatchedResponseIsNoOp(prev: seq<Row>, d: ResponseData)
    requires d.id !in Ids(prev)
    ensures OnResponse(prev, d) == prev
  {
    var next := OnResponse(prev, d);
    forall i | 0 <= i < |prev| ensures next[i] == prev[i] {
      assert prev[i].id in Ids(prev);
    }
  }

  /** Delivering the same response twice is the same as delivering it once. */
  lemma {:induction false} ResponseIdempotent(prev: seq<Row>, d: ResponseData)
    ensures OnResponse(OnResponse(prev, d), d) == OnResponse(prev, d)
  {
    var once := OnResponse(prev, d);
    var twice := OnResponse(once, d);
    forall i | 0 <= i < |prev| ensures twice[i] == once[i] {
      if prev[i].id == d.id {
        assert once[i] == Merge(prev[i], d);
        assert Merge(Merge(prev[i], d), d) == Merge(prev[i], d);
      }
    }
  }

  /** The listeners the dashboard registers: `request` prepends, `response`
      merges; it has no listener for `error`, so those messages are dropped. */
  function Apply(rows: seq<Row>, e: Event): seq<Row> {
    match e
    case Request(d) => OnRequest(rows, d)
    case Response(d) => OnResponse(rows, d)
    case Error(_, _) => rows
  }

  /** The list after a stream of messages, oldest first. */
  function Replay(rows: seq<Row>, events: seq<Event>): seq<Row>
    decreases |events|
  {
    if events == [] then rows else Replay(Apply(rows, events[0]), events[1..])
  }

  function CountRequests(events: seq<Event>): nat {
    if events == [] then 0
    else (if events[0].Request? then 1 else 0) + CountRequests(events[1..])
  }

  /** Only `request` messages add rows; nothing ever removes one. */
  lemma {:induction false} ReplayLength(rows: seq<Row>, events: seq<Event>)
    ensures |Replay(rows, events)| == |rows| + CountRequests(events)
    decreases |events|
  {
    if events != [] {
      ReplayLength(Apply(rows, events[0]), events[1..]);
    }
  }

  // ---- Classifiers --------------------------------------------------------

  datatype Tone = Blue | Green | Red | Yellow | Gray

  /** Colour of the method badge: GET blue, POST green, anything else gray. */
  function MethodTone(verb: string): (t: Tone)
    ensures t == Blue <==> verb == "GET"
    ensures t == Green <==> verb == "POST"
    ensures t == Gray <==> verb != "GET" && verb != "POST"
  {
    if verb == "GET" then Blue else if verb == "POST" then Green else Gray
  }

  /** The status column: a coloured badge showing the code, or "Pending...". */
  datatype StatusCell = Badge(tone: Tone, text: string) | Pending

  function StatusCellOf(status: Option<int>): (c: StatusCell)
    ensures c.Pending? <==> !Truthy(status)
    ensures c.Badge? ==> c.text == NumberToString(status.value)
    ensures c.Badge? ==> (c.tone == Green <==> 200 <= status.value < 300)
    ensures c.Badge? ==> (c.tone == Red <==> status.value >= 400)
    ensures c.Badge? ==> (c.tone == Yellow <==> status.value < 200 || 300 <= status.value < 400)
  {
    if !Truthy(status) then Pending
    else
      var s := status.value;
      Badge(if 200 <= s < 300 then Green else if s >= 400 then Red else Yellow, NumberToString(s))
  }

  /** After a matching response the row leaves "Pending..." unless the code is 0. */
  lemma ResponseShowsStatus(row: Row, d: ResponseData)
    ensures StatusCellOf(Merge(row, d).status).Pending? <==> d.statusCode == 0
  {
  }

  /** The duration column: "<n>ms" for a truthy duration, "-" otherwise. */
  function DurationCell(duration: Option<int>): (s: string)
    ensures s == "-" <==> !Truthy(duration)
  {
    if Truthy(duration) then NumberToString(duration.value) + "ms" else "-"
  }

  /** Reads a duration cell back: "-" is no duration, "<n>ms" is n. */
  function ParseDurationCell(s: string): Option<int> {
    if |s| >= 2 && s[|s| - 2..] == "ms" then ParseNumber(s[..|s| - 2]) else None
  }

  /** The duration cell loses nothing but the difference between absent and 0. */
  lemma DurationCellRoundTrip(duration: Option<int>)
    ensures ParseDurationCell(DurationCell(duration)) == (if Truthy(duration) then duration else None)
  {
    if Truthy(duration) {
      var s := DurationCell(duration);
      assert s[..|s| - 2] == NumberToString(duration.value);
      NumberRoundTrip(duration.value);
    }
  }

  /** "No requests captured yet" shows exactly when the list is empty. */
  function ShowsEmptyNotice(rows: seq<Row>): bool {
    |rows| == 0
  }

  /** Once any `request` message has arrived the notice is gone for good. */
  lemma NoticeHiddenAfterRequest(rows: seq<Row>, events: seq<Event>, k: nat)
    requires k < |events| && events[k].Request?
    ensures !ShowsEmptyNotice(Replay(rows, events))
  {
    ReplayLength(rows, events);
    CountRequestsPositive(events, k);
  }

  lemma {:induction false} CountRequestsPositive(events: seq<Event>, k: nat)
    requires k < |events| && events[k].Request?
    ensures CountRequests(events) > 0
    decreases k
  {
    if k > 0 {
      CountRequestsPositive(events[1..], k - 1);
    }
  }

  // ---- Connection indicator ----------------------------------------------

  datatype ConnectionEvent = Connect | Disconnect

  const InitialStatus: string := "Disconnected"

  /** `setStatus('Connected')` / `setStatus('Disconnected')`. */
  function OnConnectionEvent(e: ConnectionEvent): string {
    match e
    case Connect => "Connected"
    case Disconnect => "Disconnected"
  }

  /** The status text after a stream of socket lifecycle events, oldest first. */
  function StatusAfter(events: seq<ConnectionEvent>): string {
    if events == [] then InitialStatus else OnConnectionEvent(events[|events| - 1])
  }

  /** The dot beside the status text. */
  function Indicator(status: string): (t: Tone)
    ensures t == Green <==> status == "Connected"
    ensures t != Green ==> t == Red
  {
    if status == "Connected" then Green else Red
  }

  /** The indicator is green exactly when the latest lifecycle event was a connect. */
  lemma IndicatorFollowsLastEvent(events: seq<ConnectionEvent>)
    ensures Indicator(StatusAfter(events)) == Green
      <==> |events| > 0 && events[|events| - 1] == Connect
  {
  }
}
