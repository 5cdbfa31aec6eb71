/** One POST to a worker server and how `webapi_post` (rust/src/webapi.rs)
    classifies what came back. The transport itself is not modelled: a
    `Response` is what the network delivered for one request. */
module Http {
  import opened Outcomes
  import Json
  import Decimal

  /** HTTP status codes are `u16` in the source. */
  type StatusCode = c: int | 0 <= c < 0x1_0000

  const OK: StatusCode := 200
  const TOO_MANY_REQUESTS: StatusCode := 429

  /** What reading and parsing the body of a 200 response produced. */
  datatype Body =
    | Unreadable(detail: string)   // reading the body text failed
    | Malformed(detail: string)    // the text is not JSON
    | Parsed(value: Json.Value)

  /** The abstract outcome of one POST. A non-200 body is never read, so its
      `Body` is irrelevant to the client. */
  datatype Response =
    | TransportFailure(detail: string)
    | Received(status: StatusCode, body: Body)

  /** Why a request failed other than by its status code; each `detail`
      stands for the debug text of the underlying library error. */
  datatype Cause =
    | Transport(detail: string)
    | Read(detail: string)
    | Parse(detail: string)
    | ErrMember(value: Json.Value)

  /** `WebApiError`. */
  datatype WebApiError = StatusError(code: StatusCode) | Error(cause: Cause)

  /** `webapi_post`: classify one response. */
  function Classify(resp: Response): (r: Result<Json.Value, WebApiError>)
    // a status other than 200 is reported with exactly that code, and only then
    ensures r.Err? && r.error.StatusError? <==> resp.Received? && resp.status != OK
    ensures r.Err? && r.error.StatusError? ==> r.error.code == resp.status
    // transport, read and parse failures are never status errors
    ensures resp.TransportFailure? ==> r == Err(Error(Transport(resp.detail)))
    ensures resp.Received? && resp.status == OK && !resp.body.Parsed? ==> r.Err? && r.error.Error?
    // a 200 document is returned untouched unless it carries an "Err" member
    ensures r.Ok? <==> resp.Received? && resp.status == OK && resp.body.Parsed? && !Json.HasErrMember(resp.body.value)
    ensures r.Ok? ==> r.value == resp.body.value
    ensures resp.Received? && resp.status == OK && resp.body.Parsed? && Json.HasErrMember(resp.body.value) ==>
              r == Err(Error(ErrMember(resp.body.value)))
  {
    match resp
    case TransportFailure(detail) => Err(Error(Transport(detail)))
    case Received(status, body) =>
      if status != OK then Err(StatusError(status))
      else
        match body
        case Unreadable(detail) => Err(Error(Read(detail)))
        case Malformed(detail) => Err(Error(Parse(detail)))
        case Parsed(value) =>
          if Json.HasErrMember(value) then Err(Error(ErrMember(value))) else Ok(value)
  }

  /** The outcomes `webapi_post` can produce: a success never carries an
      "Err" member, a status error never carries 200, and an "Err"-member
      failure always carries one. */
  predicate Possible(outcome: Result<Json.Value, WebApiError>) {
    match outcome
    case Ok(v) => !Json.HasErrMember(v)
    case Err(StatusError(code)) => code != OK
    case Err(Error(ErrMember(v))) => Json.HasErrMember(v)
    case Err(Error(_)) => true
  }

  /** A server behaviour that makes the client see `outcome`. */
  function Respond(outcome: Result<Json.Value, WebApiError>): Response {
    match outcome
    case Ok(v) => Received(OK, Parsed(v))
    case Err(StatusError(code)) => Received(code, Unreadable(""))
    case Err(Error(Transport(d))) => TransportFailure(d)
    case Err(Error(Read(d))) => Received(OK, Unreadable(d))
    case Err(Error(Parse(d))) => Received(OK, Malformed(d))
    case Err(Error(ErrMember(v))) => Received(OK, Parsed(v))
  }

  /** Every classification is a possible outcome, and every possible outcome
      is the classification of some response: `Possible` is exactly the
      range of `webapi_post`. */
  lemma ClassifyRange(resp: Response, outcome: Result<Json.Value, WebApiError>)
    ensures Possible(Classify(resp))
    ensures Possible(outcome) ==> Classify(Respond(outcome)) == outcome
  {
  }

  const STATUS_PREFIX: string := "Err with code: "

  /** The message `webapi_post_pick` returns for a non-retryable status: the
      fixed prefix, then the code in decimal, from which it can be read back. */
  function StatusMessage(code: StatusCode): (m: string)
    ensures |STATUS_PREFIX| < |m| && m[..|STATUS_PREFIX|] == STATUS_PREFIX
    ensures forall i :: |STATUS_PREFIX| <= i < |m| ==> Decimal.IsDigit(m[i])
    ensures Decimal.Parse(m[|STATUS_PREFIX|..]) == code
  {
    var m := STATUS_PREFIX + Decimal.Show(code);
    assert m[|STATUS_PREFIX|..] == Decimal.Show(code);
    Decimal.ParseShow(code);
    m
  }

  /** The message names the code exactly: two codes share a message only if
      they are the same code. */
  lemma StatusMessageInjective(a: StatusCode, b: StatusCode)
    ensures StatusMessage(a) == StatusMessage(b) <==> a == b
  {
    if StatusMessage(a) == StatusMessage(b) {
      assert StatusMessage(a)[|STATUS_PREFIX|..] == StatusMessage(b)[|STATUS_PREFIX|..];
    }
  }
}
