/** What one database call makes of its request's pressure (apps/api/src/db.ts,
    lines 42-108 and 143-167, and apps/api/src/db-pressure.ts, lines 17-112). */
module DbPressure {
  import opened Wrappers

  // --------------------------------------------------------------- classifying

  /** A field of a JSON body. */
  datatype Field = Undefined | Text(text: string) | Other

  datatype Body = Unreadable | NullBody | Fields(code: Field, message: Field)

  datatype Response = Response(status: int, body: Body)

  const GATEWAY_FAILURE_MESSAGE := "An unexpected error occurred"

  predicate IsDatabaseOverload(r: Response) {
    r.status in {502, 503, 504}
    || (r.status == 500 && r.body.Fields?
        && (r.body.code == Text("53300")
            || (r.body.code == Undefined && r.body.message == Text(GATEWAY_FAILURE_MESSAGE))))
  }

  /** How a fetch may reject: our deadline, the caller's own signal, or in transit. */
  datatype FetchError = TimeoutError | AbortError | InTransit

  datatype Pressure = Pressure(overloaded: bool, unreachable: bool)

  const CALM := Pressure(false, false)

  predicate Trouble(p: Pressure) { p.overloaded || p.unreachable }

  /** The request asks its database nothing more. */
  predicate Stops(p: Pressure) { p.overloaded }

  /** What the caller of a database call gets. */
  datatype Result = StoppedAsking | Overloaded | Failed(error: FetchError) | Returned(response: Response)

  /** What a settled call says of the database, its request being `scoped` or not. */
  datatype Word = Refused | Died | Reached | Silent

  function WordOfError(e: FetchError): Word {
    match e
    case TimeoutError => Refused
    case AbortError => Silent
    case InTransit => Died
  }

  function WordOfResponse(r: Response): Word { if IsDatabaseOverload(r) then Refused else Reached }

  /** What the caller of a rejected fetch gets, in a request or outside one: only a
      request can stop asking, so elsewhere a deadline is an error like any other. */
  function ResultOfError(e: FetchError, inRequest: bool): Result {
    if e == TimeoutError && inRequest then Overloaded else Failed(e)
  }

  function ResultOfResponse(r: Response, inRequest: bool): Result {
    if IsDatabaseOverload(r) && inRequest then Overloaded else Returned(r)
  }

  /** The pressure of a request after one word about its database. */
  function Heard(p: Pressure, word: Word): Pressure {
    match word
    case Refused => p.(overloaded := true)
    case Died => p.(unreachable := true)
    case Reached => p.(unreachable := false)
    case Silent => p
  }

  // ---------------------------------------------------------- the mutable marks

  /** A request's entry in the asynchronous scope; null where there is none. */
  class RequestPressure {
    var overloaded: bool
    var unreachable: bool

    constructor ()
      ensures Value() == CALM
    {
      overloaded, unreachable := false, false;
    }

    function Value(): Pressure
      reads this
    {
      Pressure(overloaded, unreachable)
    }
  }

  function Own(current: RequestPressure?): set<object> { if current == null then {} else {current} }

  method MarkDatabaseOverloaded(current: RequestPressure?) returns (marked: bool)
    modifies Own(current)
    ensures marked <==> current != null
    ensures current != null ==> current.Value() == Heard(old(current.Value()), Refused)
  {
    if current == null { return false; }
    current.overloaded := true;
    marked := true;
  }

  method MarkDatabaseUnreachable(current: RequestPressure?)
    modifies Own(current)
    ensures current != null ==> current.Value() == Heard(old(current.Value()), Died)
  {
    if current != null { current.unreachable := true; }
  }

  method MarkDatabaseReachable(current: RequestPressure?)
    modifies Own(current)
    ensures current != null ==> current.Value() == Heard(old(current.Value()), Reached)
  {
    if current != null { current.unreachable := false; }
  }

  function DatabaseOverloaded(current: RequestPressure?): bool
    reads Own(current)
  {
    current != null && Stops(current.Value())
  }

  function DatabaseTrouble(current: RequestPressure?): bool
    reads Own(current)
  {
    current != null && Trouble(current.Value())
  }

  /** The `catch` of the wrapper. Without a request a deadline is a call that died. */
  method OnReject(current: RequestPressure?, error: FetchError) returns (result: Result)
    modifies Own(current)
    ensures current != null ==> current.Value() == Heard(old(current.Value()), WordOfError(error))
    ensures result == ResultOfError(error, current != null)
    ensures current != null && error == TimeoutError ==>
      result == Overloaded && current.overloaded && current.unreachable == old(current.unreachable)
    ensures current != null && error == InTransit ==>
      result == Failed(InTransit) && current.unreachable && current.overloaded == old(current.overloaded)
    ensures current != null && error == AbortError ==>
      result == Failed(AbortError) && current.overloaded == old(current.overloaded)
      && current.unreachable == old(current.unreachable)
    ensures current == null ==> result == Failed(error)
  {
    if error == TimeoutError {
      var marked := MarkDatabaseOverloaded(current);
      if marked { return Overloaded; }
    }
    if error != AbortError { MarkDatabaseUnreachable(current); }
    result := Failed(error);
  }

  /** The rest of the wrapper, once the answer has been classified. */
  method OnAnswer(current: RequestPressure?, response: Response) returns (result: Result)
    modifies Own(current)
    ensures current != null ==> current.Value() == Heard(old(current.Value()), WordOfResponse(response))
    ensures result == ResultOfResponse(response, current != null)
    ensures current != null && response.status in {502, 503, 504} ==>
      result == Overloaded && current.overloaded && current.unreachable == old(current.unreachable)
    ensures current != null && response.status !in {500, 502, 503, 504} ==>
      result == Returned(response) && !current.unreachable && current.overloaded == old(current.overloaded)
    ensures current == null ==> result == Returned(response)
  {
    if IsDatabaseOverload(response) {
      var marked := MarkDatabaseOverloaded(current);
      if marked { return Overloaded; }
    }
    MarkDatabaseReachable(current);
    result := Returned(response);
  }

  /** How the fetch of a call settles, if it is begun. */
  datatype Settlement = Rejected(error: FetchError) | Answered(response: Response)

  function SettledWord(s: Settlement): Word {
    match s
    case Rejected(error) => WordOfError(error)
    case Answered(response) => WordOfResponse(response)
  }

  function SettledResult(s: Settlement, inRequest: bool): Result {
    match s
    case Rejected(error) => ResultOfError(error, inRequest)
    case Answered(response) => ResultOfResponse(response, inRequest)
  }

  /** The whole wrapper, no other call of the request settling meanwhile. It fetches
      unless the request has seen its database refuse; then it says so, and marks
      nothing. */
  method Fetch(current: RequestPressure?, settlement: Settlement) returns (result: Result, fetched: bool)
    modifies Own(current)
    ensures fetched == (current == null || !old(current.overloaded))
    ensures fetched && current != null && settlement == Rejected(TimeoutError) ==>
      result == Overloaded && current.overloaded
    ensures result == if fetched then SettledResult(settlement, current != null) else StoppedAsking
    ensures current != null ==>
      current.Value() == if fetched then Heard(old(current.Value()), SettledWord(settlement)) else old(current.Value())
  {
    if DatabaseOverloaded(current) { return StoppedAsking, false; }
    fetched := true;
    match settlement {
      case Rejected(error) => result := OnReject(current, error);
      case Answered(response) => result := OnAnswer(current, response);
    }
  }

  // -------------------------------------------------------------- the response

  type Headers = map<string, seq<string>>

  datatype Reply = Reply(status: int, headers: Headers, body: string)

  const VARY := "vary"
  const CONTENT_LENGTH := "content-length"

  function ValuesOf(h: Headers, name: string): seq<string> { if name in h then h[name] else [] }

  /** What a request answers with, given the status its route ended in. */
  function AnswerStatus(p: Pressure, status: int): int { if Trouble(p) && status >= 500 then 503 else status }

  /** What `headers` holds under `name` once `busy` was merged in. */
  ghost function Merged(h: Headers, busy: seq<(string, string)>, name: string): seq<string> {
    if busy == [] then ValuesOf(h, name)
    else
      var last := busy[|busy| - 1];
      var before := Merged(h, busy[..|busy| - 1], name);
      if last.0 != name then before else if name == "vary" then before + [last.1] else [last.1]
  }

  /** The middleware's last step: a 5xx of a request in trouble becomes the busy
      reply with the headers already set. */
  method Rewrite(reply: Reply, current: RequestPressure?, busyHeaders: seq<(string, string)>, busyBody: string)
    returns (r: Reply)
    ensures r.status == if current == null then reply.status else AnswerStatus(current.Value(), reply.status)
    ensures !DatabaseTrouble(current) || reply.status < 500 || reply.status == 503 ==> r == reply
    ensures DatabaseTrouble(current) && reply.status >= 500 && reply.status != 503 ==>
      && r.body == busyBody && "content-length" !in r.headers
      && forall name :: name != "content-length" ==> ValuesOf(r.headers, name) == Merged(reply.headers, busyHeaders, name)
  {
    if DatabaseTrouble(current) && reply.status >= 500 && reply.status != 503 {
      var headers := reply.headers;
      for i := 0 to |busyHeaders|
        invariant forall name :: ValuesOf(headers, name) == Merged(reply.headers, busyHeaders[..i], name)
      {
        var name, value := busyHeaders[i].0, busyHeaders[i].1;
        assert busyHeaders[..i + 1][..i] == busyHeaders[..i];
        headers := headers[name := if name == VARY then ValuesOf(headers, name) + [value] else [value]];
      }
      assert busyHeaders[..|busyHeaders|] == busyHeaders;
      headers := headers - {CONTENT_LENGTH};
      r := Reply(503, headers, busyBody);
    } else {
      r := reply;
    }
  }

  /** A header the busy reply does not name keeps its values. */
  lemma {:induction false} UnnamedKept(h: Headers, busy: seq<(string, string)>, name: string)
    requires forall i :: 0 <= i < |busy| ==> busy[i].0 != name
    ensures Merged(h, busy, name) == ValuesOf(h, name)
  {
    if busy != [] { UnnamedKept(h, busy[..|busy| - 1], name); }
  }

  /** Every `vary` value is kept, the ones already set first. */
  lemma {:induction false} VaryGrows(h: Headers, busy: seq<(string, string)>)
    ensures ValuesOf(h, "vary") <= Merged(h, busy, "vary")
  {
    if busy != [] { VaryGrows(h, busy[..|busy| - 1]); }
  }
}
