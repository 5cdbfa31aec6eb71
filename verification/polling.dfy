/** Submission followed by polling (`webapi_post_polling` in
    rust/src/webapi.rs). The submission must answer `Started(id)`; the job is
    then queried at `server + "sys/query_state"` on the server that accepted
    it, with the identifier as the request body, every 30 seconds while it is
    `Pending`, until a poll answers `Done(result)` or anything else. Polling
    has no retry on 429 and no limit on the number of polls; here it runs over
    a finite list of poll responses and stops with `Exhausted` when the list
    runs out. */
module Polling {
  import opened Outcomes
  import Json
  import Http
  import opened Servers
  import opened Protocol
  import opened Runs
  import opened Submission

  /** Seconds slept after a `Pending` answer before the next poll. */
  const POLL_INTERVAL: nat := 30

  /** The path of the job-state query, appended to the server address as is. */
  const QUERY_STATE: string := "sys/query_state"

  /** The response is a successful document that decodes to `state`. */
  predicate Reports(decode: Decoder, resp: Http.Response, state: PollingState) {
    var outcome := Http.Classify(resp);
    outcome.Ok? && decode(outcome.value) == Decoded(state)
  }

  /** The outcome of a poll that does not ask to wait. */
  function Finish(decode: Decoder, resp: Http.Response): Result<Json.Value, Failure> {
    match Http.Classify(resp)
    case Err(e) => Err(PollFailed(e))
    case Ok(v) =>
      match decode(v)
      case Undecoded(d) => Err(Undecodable(d))
      case Decoded(Done(result)) => Ok(result)
      case Decoded(state) => Err(BadPollState(state))
  }

  /** The polling loop for job `id` on `server`. */
  function Poll(server: Server, id: nat, decode: Decoder, polls: seq<Http.Response>): (run: Run<Json.Value>)
    // polling never panics
    ensures !run.halt.Panicked?
    // polling never reports what only a submission can report
    ensures run.halt.Returned? && run.halt.result.Err? ==>
              !run.halt.result.error.Rejected? && !run.halt.result.error.BadStatus? && !run.halt.result.error.NotStarted?
    // an unexpected state ends polling and is reported; it is never Pending or Done
    ensures run.halt.Returned? && run.halt.result.Err? && run.halt.result.error.BadPollState? ==>
              !run.halt.result.error.state.Pending? && !run.halt.result.error.state.Done?
    decreases |polls|
  {
    if |polls| == 0 then Run(Exhausted, [])
    else
      var post := Posted(server + QUERY_STATE, Json.Number(id));
      if Reports(decode, polls[0], Pending) then
        var rest := Poll(server, id, decode, polls[1..]);
        Run(rest.halt, [post, Slept(POLL_INTERVAL)] + rest.log)
      else Run(Returned(Finish(decode, polls[0])), [post])
  }

  /** `webapi_post_polling(path, payload)`: submit with retry, then poll. */
  function PostPolling(config: WebApiConfig, path: string, payload: Json.Value, decode: Decoder,
                       attempts: seq<Attempt>, polls: seq<Http.Response>): (run: Run<Json.Value>)
    // the only panic is the submission's, from an empty server list
    ensures run.halt.Panicked? <==> |config.servers| == 0
  {
    var submitted := PostPick(config, path, payload, attempts);
    match submitted.halt
    case Panicked(message) => Run(Panicked(message), submitted.log)
    case Exhausted => Run(Exhausted, submitted.log)
    case Returned(Err(failure)) => Run(Returned(Err(failure)), submitted.log)
    case Returned(Ok((server, value))) =>
      match decode(value)
      case Undecoded(d) => Run(Returned(Err(Undecodable(d))), submitted.log)
      case Decoded(Started(id)) =>
        var polled := Poll(server, id, decode, polls);
        Run(polled.halt, submitted.log + polled.log)
      case Decoded(state) => Run(Returned(Err(NotStarted(state))), submitted.log)
  }

  /** The number of leading polls that report `Pending`. */
  function Pendings(decode: Decoder, polls: seq<Http.Response>): (k: nat)
    ensures k <= |polls|
    ensures forall i :: 0 <= i < k ==> Reports(decode, polls[i], Pending)
    ensures k < |polls| ==> !Reports(decode, polls[k], Pending)
  {
    if |polls| == 0 || !Reports(decode, polls[0], Pending) then 0 else 1 + Pendings(decode, polls[1..])
  }

  /** The whole polling loop at once: k `Pending` answers cost k polls and k
      delays; the next poll, if there is one, ends the loop. */
  function ExpectedPoll(server: Server, id: nat, decode: Decoder, polls: seq<Http.Response>): Run<Json.Value> {
    var k := Pendings(decode, polls);
    var waited := Backoff(Repeat(server + QUERY_STATE, k), Json.Number(id), POLL_INTERVAL);
    if k == |polls| then Run(Exhausted, waited)
    else Run(Returned(Finish(decode, polls[k])), waited + [Posted(server + QUERY_STATE, Json.Number(id))])
  }

  lemma {:induction false} PollIsExpected(server: Server, id: nat, decode: Decoder, polls: seq<Http.Response>)
    ensures Poll(server, id, decode, polls) == ExpectedPoll(server, id, decode, polls)
    decreases |polls|
  {
    if |polls| > 0 && Reports(decode, polls[0], Pending) {
      var tail := polls[1..];
      PollIsExpected(server, id, decode, tail);
      var k := Pendings(decode, polls);
      var url := server + QUERY_STATE;
      var post := Posted(url, Json.Number(id));
      assert Repeat(url, k)[1..] == Repeat(url, k - 1);
      var rest := Backoff(Repeat(url, k - 1), Json.Number(id), POLL_INTERVAL);
      if k < |polls| {
        assert polls[k] == tail[k - 1];
        assert [post, Slept(POLL_INTERVAL)] + (rest + [post]) == ([post, Slept(POLL_INTERVAL)] + rest) + [post];
      }
    }
  }

  /** Sticky binding: every poll goes to the query-state path of the server
      that accepted the job, carries the job identifier, and every wait is
      30 seconds. */
  lemma {:induction false} PollIsSticky(server: Server, id: nat, decode: Decoder, polls: seq<Http.Response>)
    ensures AllPostsTo(Poll(server, id, decode, polls).log, server + QUERY_STATE, Json.Number(id))
    ensures AllSleeps(Poll(server, id, decode, polls).log, POLL_INTERVAL)
  {
    PollIsExpected(server, id, decode, polls);
    var url := server + QUERY_STATE;
    var k := Pendings(decode, polls);
    var waited := Backoff(Repeat(url, k), Json.Number(id), POLL_INTERVAL);
    BackoffRepeatPostsTo(url, k, Json.Number(id), POLL_INTERVAL);
    BackoffCounts(Repeat(url, k), Json.Number(id), POLL_INTERVAL);
    var last := [Posted(url, Json.Number(id))];
    assert AllPostsTo(last, url, Json.Number(id));
    AllPostsToAppend(waited, last, url, Json.Number(id));
    AllSleepsAppend(waited, last, POLL_INTERVAL);
  }

  /** k `Pending` answers followed by any other answer: k+1 polls, k delays
      of 30 seconds, and the call returns what the last answer means. */
  lemma FinishesAfterPendings(server: Server, id: nat, decode: Decoder, polls: seq<Http.Response>, k: nat)
    requires k < |polls|
    requires forall i :: 0 <= i < k ==> Reports(decode, polls[i], Pending)
    requires !Reports(decode, polls[k], Pending)
    ensures var run := Poll(server, id, decode, polls);
            && run.halt == Returned(Finish(decode, polls[k]))
            && Posts(run.log) == k + 1
            && Sleeps(run.log) == k
            && Delay(run.log) == POLL_INTERVAL * k
  {
    PollIsExpected(server, id, decode, polls);
    var url := server + QUERY_STATE;
    var waited := Backoff(Repeat(url, k), Json.Number(id), POLL_INTERVAL);
    var last := [Posted(url, Json.Number(id))];
    BackoffCounts(Repeat(url, k), Json.Number(id), POLL_INTERVAL);
    CountsAppend(waited, last);
    assert Posts(last) == 1 && Sleeps(last) == 0 && Delay(last) == 0;
  }

  /** `Pending` k times and then `Done(result)`: the call returns `result`
      itself, after exactly k delays of 30 seconds. */
  lemma DoneAfterPendings(server: Server, id: nat, decode: Decoder, polls: seq<Http.Response>, k: nat, result: Json.Value)
    requires k < |polls|
    requires forall i :: 0 <= i < k ==> Reports(decode, polls[i], Pending)
    requires Reports(decode, polls[k], Done(result))
    ensures var run := Poll(server, id, decode, polls);
            && run.halt == Returned(Ok(result))
            && Sleeps(run.log) == k
            && Delay(run.log) == POLL_INTERVAL * k
  {
    FinishesAfterPendings(server, id, decode, polls, k);
  }

  /** A successful poll passes on the payload of a `Done` answer unchanged:
      the value returned is the one the first non-`Pending` answer carried. */
  lemma {:induction false} DonePayloadUnchanged(server: Server, id: nat, decode: Decoder, polls: seq<Http.Response>)
    ensures var run := Poll(server, id, decode, polls);
            run.halt.Returned? && run.halt.result.Ok? ==>
              var k := Pendings(decode, polls);
              k < |polls| && Reports(decode, polls[k], Done(run.halt.result.value))
  {
    PollIsExpected(server, id, decode, polls);
  }

  /** A 429 while polling is not retried: it ends the call as an error. */
  lemma OverloadEndsPolling(server: Server, id: nat, decode: Decoder, polls: seq<Http.Response>, body: Http.Body)
    requires |polls| > 0 && polls[0] == Http.Received(Http.TOO_MANY_REQUESTS, body)
    ensures Poll(server, id, decode, polls) ==
            Run(Returned(Err(PollFailed(Http.StatusError(Http.TOO_MANY_REQUESTS)))), [Posted(server + QUERY_STATE, Json.Number(id))])
  {
  }

  /** Fail fast: unless the submission returns a document decoding to
      `Started`, no poll is sent, the call sleeps no more than the submission
      did, and a returned result is an error; a submission error is passed on
      unchanged. */
  lemma NoPollWithoutStart(config: WebApiConfig, path: string, payload: Json.Value, decode: Decoder,
                           attempts: seq<Attempt>, polls: seq<Http.Response>)
    ensures var submitted := PostPick(config, path, payload, attempts);
            var run := PostPolling(config, path, payload, decode, attempts, polls);
            !(submitted.halt.Returned? && submitted.halt.result.Ok? &&
              decode(submitted.halt.result.value.1).Decoded? &&
              decode(submitted.halt.result.value.1).state.Started?) ==>
              && run.log == submitted.log
              && (run.halt.Returned? ==> run.halt.result.Err?)
              && (submitted.halt.Returned? && submitted.halt.result.Err? ==> run.halt == Returned(Err(submitted.halt.result.error)))
  {
  }

  /** After a `Started(id)` submission to some server, the call is the
      submission followed by polling job `id` on that very server: every
      later request goes to its query-state path, none picks a server again. */
  lemma PollsStayOnAcceptingServer(config: WebApiConfig, path: string, payload: Json.Value, decode: Decoder,
                                   attempts: seq<Attempt>, polls: seq<Http.Response>, server: Server, value: Json.Value, id: nat)
    requires PostPick(config, path, payload, attempts).halt == Returned(Ok((server, value)))
    requires decode(value) == Decoded(Started(id))
    ensures var submitted := PostPick(config, path, payload, attempts);
            var run := PostPolling(config, path, payload, decode, attempts, polls);
            && |submitted.log| > 0
            && submitted.log[|submitted.log| - 1] == Posted(server + path, payload)
            && run.log[..|submitted.log|] == submitted.log
            && AllPostsTo(run.log[|submitted.log|..], server + QUERY_STATE, Json.Number(id))
            && run.halt == Poll(server, id, decode, polls).halt
  {
    SuccessNamesServerUsed(config, path, payload, attempts);
    PollIsSticky(server, id, decode, polls);
    var submitted := PostPick(config, path, payload, attempts);
    var polled := Poll(server, id, decode, polls);
    assert (submitted.log + polled.log)[|submitted.log|..] == polled.log;
  }

  /** The end-to-end promise: k overloads, then a submission answered
      `Started(id)`, then m `Pending` polls and a `Done(result)` poll yield
      `result` after k delays of 60 seconds and m delays of 30 seconds. */
  lemma EndToEnd(config: WebApiConfig, path: string, payload: Json.Value, decode: Decoder,
                 attempts: seq<Attempt>, k: nat, started: Json.Value, id: nat,
                 polls: seq<Http.Response>, m: nat, result: Json.Value)
    requires |config.servers| > 0
    requires k < |attempts|
    requires forall i :: 0 <= i < k ==> Overloaded(attempts[i])
    requires attempts[k].response == Http.Received(Http.OK, Http.Parsed(started))
    requires !Json.HasErrMember(started) && decode(started) == Decoded(Started(id))
    requires m < |polls|
    requires forall i :: 0 <= i < m ==> Reports(decode, polls[i], Pending)
    requires Reports(decode, polls[m], Done(result))
    ensures var run := PostPolling(config, path, payload, decode, attempts, polls);
            && run.halt == Returned(Ok(result))
            && Sleeps(run.log) == k + m
            && Delay(run.log) == RETRY_DELAY * k + POLL_INTERVAL * m
  {
    SucceedsAfterOverloads(config, path, payload, attempts, k, started);
    var server := config.servers[attempts[k].draw % |config.servers|];
    DoneAfterPendings(server, id, decode, polls, m, result);
    CountsAppend(PostPick(config, path, payload, attempts).log, Poll(server, id, decode, polls).log);
  }
}
