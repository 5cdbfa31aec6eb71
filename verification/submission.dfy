/** Submit-with-retry (`webapi_post_pick` in rust/src/webapi.rs): pick a
    server, POST the payload to `server + path`, and on status 429 sleep
    60 seconds and start over with a fresh pick; every other outcome ends
    the call. The loop has no retry limit; here it runs over a finite list of
    attempts and stops with `Exhausted` when the list runs out. */
module Submission {
  import opened Outcomes
  import Json
  import Http
  import Decimal
  import opened Servers
  import opened Protocol
  import opened Runs

  /** Seconds slept after a 429 before the next pick. */
  const RETRY_DELAY: nat := 60

  /** What the environment decides for one round of the loop: the random
      draw that picks the server, and the response that server gives. */
  datatype Attempt = Attempt(draw: nat, response: Http.Response)

  /** The server asked the client to come back later. */
  predicate Overloaded(a: Attempt) {
    a.response.Received? && a.response.status == Http.TOO_MANY_REQUESTS
  }

  /** The outcome of a round that does not retry, with the server it used. */
  function Settle(server: Server, outcome: Result<Json.Value, Http.WebApiError>): Result<(Server, Json.Value), Failure> {
    match outcome
    case Ok(v) => Ok((server, v))
    case Err(Error(cause)) => Err(Rejected(cause))
    case Err(StatusError(code)) => Err(BadStatus(code))
  }

  /** `webapi_post_pick(path, payload)` against the servers of `config`. */
  function PostPick(config: WebApiConfig, path: string, payload: Json.Value, attempts: seq<Attempt>): (run: Run<(Server, Json.Value)>)
    // the only panic is the pick from an empty server list, before any request
    ensures run.halt.Panicked? <==> |config.servers| == 0
    ensures run.halt.Panicked? ==> run.halt.message == NO_SERVER && run.log == []
    // a success names a configured server and carries a document without an "Err" member
    ensures run.halt.Returned? && run.halt.result.Ok? ==>
              run.halt.result.value.0 in config.servers && !Json.HasErrMember(run.halt.result.value.1)
    // a reported status is neither success nor overload
    ensures run.halt.Returned? && run.halt.result.Err? && run.halt.result.error.BadStatus? ==>
              run.halt.result.error.code != Http.OK && run.halt.result.error.code != Http.TOO_MANY_REQUESTS
    // only rejected submissions and bad statuses are reported
    ensures run.halt.Returned? && run.halt.result.Err? ==>
              run.halt.result.error.Rejected? || run.halt.result.error.BadStatus?
    decreases |attempts|
  {
    if |config.servers| == 0 then Run(Panicked(NO_SERVER), [])
    else if |attempts| == 0 then Run(Exhausted, [])
    else
      var server := PickServer(config, attempts[0].draw).value;
      var post := Posted(server + path, payload);
      match Http.Classify(attempts[0].response)
      case Ok(v) => Run(Returned(Ok((server, v))), [post])
      case Err(Error(cause)) => Run(Returned(Err(Rejected(cause))), [post])
      case Err(StatusError(code)) =>
        if code != Http.TOO_MANY_REQUESTS then Run(Returned(Err(BadStatus(code))), [post])
        else
          var rest := PostPick(config, path, payload, attempts[1..]);
          Run(rest.halt, [post, Slept(RETRY_DELAY)] + rest.log)
  }

  /** The number of leading attempts answered with 429. */
  function Overloads(attempts: seq<Attempt>): (k: nat)
    ensures k <= |attempts|
    ensures forall i :: 0 <= i < k ==> Overloaded(attempts[i])
    ensures k < |attempts| ==> !Overloaded(attempts[k])
  {
    if |attempts| == 0 || !Overloaded(attempts[0]) then 0 else 1 + Overloads(attempts[1..])
  }

  /** The URLs the attempts are sent to. */
  function Urls(config: WebApiConfig, path: string, attempts: seq<Attempt>): (urls: seq<string>)
    requires |config.servers| > 0
    ensures |urls| == |attempts|
  {
    if |attempts| == 0 then []
    else [PickServer(config, attempts[0].draw).value + path] + Urls(config, path, attempts[1..])
  }

  /** The whole call at once: after k leading 429s the loop has sent k
      requests and slept k times; the next attempt, if there is one, ends it. */
  function Expected(config: WebApiConfig, path: string, payload: Json.Value, attempts: seq<Attempt>): Run<(Server, Json.Value)> {
    if |config.servers| == 0 then Run(Panicked(NO_SERVER), [])
    else
      var k := Overloads(attempts);
      var retried := Backoff(Urls(config, path, attempts[..k]), payload, RETRY_DELAY);
      if k == |attempts| then Run(Exhausted, retried)
      else
        var server := PickServer(config, attempts[k].draw).value;
        Run(Returned(Settle(server, Http.Classify(attempts[k].response))), retried + [Posted(server + path, payload)])
  }

  /** The retry loop is the closed form: it stops exactly at the first
      attempt not answered with 429. */
  lemma {:induction false} PostPickIsExpected(config: WebApiConfig, path: string, payload: Json.Value, attempts: seq<Attempt>)
    ensures PostPick(config, path, payload, attempts) == Expected(config, path, payload, attempts)
    decreases |attempts|
  {
    if |config.servers| > 0 && |attempts| > 0 && Overloaded(attempts[0]) {
      var tail := attempts[1..];
      PostPickIsExpected(config, path, payload, tail);
      var k := Overloads(attempts);
      assert k == 1 + Overloads(tail);
      assert attempts[..k][1..] == tail[..k - 1];
      var server := PickServer(config, attempts[0].draw).value;
      assert Urls(config, path, attempts[..k]) == [server + path] + Urls(config, path, tail[..k - 1]);
      var post := Posted(server + path, payload);
      var rest := Backoff(Urls(config, path, tail[..k - 1]), payload, RETRY_DELAY);
      if k < |attempts| {
        assert attempts[k] == tail[k - 1];
        var last := [Posted(PickServer(config, tail[k - 1].draw).value + path, payload)];
        assert [post, Slept(RETRY_DELAY)] + (rest + last) == ([post, Slept(RETRY_DELAY)] + rest) + last;
      }
    }
  }

  /** A run of k overloads followed by an attempt that does not ask to retry:
      k requests and k delays of 60 seconds precede the final request, which
      goes to the server picked by the (k+1)-th draw, and the call returns
      that request's outcome together with that same server. */
  lemma SettlesAfterOverloads(config: WebApiConfig, path: string, payload: Json.Value, attempts: seq<Attempt>, k: nat)
    requires |config.servers| > 0
    requires k < |attempts|
    requires forall i :: 0 <= i < k ==> Overloaded(attempts[i])
    requires !Overloaded(attempts[k])
    ensures var run := PostPick(config, path, payload, attempts);
            var server := PickServer(config, attempts[k].draw).value;
            && run.halt == Returned(Settle(server, Http.Classify(attempts[k].response)))
            && Posts(run.log) == k + 1
            && Sleeps(run.log) == k
            && Delay(run.log) == RETRY_DELAY * k
            && AllSleeps(run.log, RETRY_DELAY)
            && run.log[|run.log| - 1] == Posted(server + path, payload)
  {
    PostPickIsExpected(config, path, payload, attempts);
    var retried := Backoff(Urls(config, path, attempts[..k]), payload, RETRY_DELAY);
    var server := PickServer(config, attempts[k].draw).value;
    var last := [Posted(server + path, payload)];
    BackoffCounts(Urls(config, path, attempts[..k]), payload, RETRY_DELAY);
    CountsAppend(retried, last);
    assert Posts(last) == 1 && Sleeps(last) == 0 && Delay(last) == 0;
    AllSleepsAppend(retried, last, RETRY_DELAY);
  }

  /** k overloads and then a good document: success with that document,
      the server of the (k+1)-th pick, and exactly k delays of 60 seconds. */
  lemma SucceedsAfterOverloads(config: WebApiConfig, path: string, payload: Json.Value, attempts: seq<Attempt>, k: nat, v: Json.Value)
    requires |config.servers| > 0
    requires k < |attempts|
    requires forall i :: 0 <= i < k ==> Overloaded(attempts[i])
    requires attempts[k].response == Http.Received(Http.OK, Http.Parsed(v))
    requires !Json.HasErrMember(v)
    ensures var run := PostPick(config, path, payload, attempts);
            && run.halt == Returned(Ok((config.servers[attempts[k].draw % |config.servers|], v)))
            && Sleeps(run.log) == k
            && Delay(run.log) == RETRY_DELAY * k
  {
    SettlesAfterOverloads(config, path, payload, attempts, k);
  }

  /** Any status other than 200 and 429 on the first attempt is returned at
      once, with its code and without any delay. */
  lemma OtherStatusIsImmediate(config: WebApiConfig, path: string, payload: Json.Value, attempts: seq<Attempt>, code: Http.StatusCode, body: Http.Body)
    requires |config.servers| > 0
    requires |attempts| > 0 && attempts[0].response == Http.Received(code, body)
    requires code != Http.OK && code != Http.TOO_MANY_REQUESTS
    ensures var run := PostPick(config, path, payload, attempts);
            && run.halt == Returned(Err(BadStatus(code)))
            && Posts(run.log) == 1
            && Delay(run.log) == 0
  {
    SettlesAfterOverloads(config, path, payload, attempts, 0);
  }

  /** A transport, read, parse or "Err"-member failure on the first attempt is
      returned at once, unchanged, without any delay. */
  lemma ErrorIsImmediate(config: WebApiConfig, path: string, payload: Json.Value, attempts: seq<Attempt>, cause: Http.Cause)
    requires |config.servers| > 0
    requires |attempts| > 0 && Http.Classify(attempts[0].response) == Err(Http.Error(cause))
    ensures var run := PostPick(config, path, payload, attempts);
            && run.halt == Returned(Err(Rejected(cause)))
            && Posts(run.log) == 1
            && Delay(run.log) == 0
  {
    SettlesAfterOverloads(config, path, payload, attempts, 0);
  }

  /** The loop only runs out of responses when every one of them was a 429:
      it never gives up on overload by itself. */
  lemma {:induction false} ExhaustedOnlyByOverload(config: WebApiConfig, path: string, payload: Json.Value, attempts: seq<Attempt>)
    requires |config.servers| > 0
    ensures PostPick(config, path, payload, attempts).halt.Exhausted? <==>
            forall i :: 0 <= i < |attempts| ==> Overloaded(attempts[i])
  {
    PostPickIsExpected(config, path, payload, attempts);
  }

  /** The server returned on success is the server the final request went
      to: the URL that succeeded is that server followed by `path`. */
  lemma {:induction false} SuccessNamesServerUsed(config: WebApiConfig, path: string, payload: Json.Value, attempts: seq<Attempt>)
    ensures var run := PostPick(config, path, payload, attempts);
            run.halt.Returned? && run.halt.result.Ok? ==>
              |run.log| > 0 && run.log[|run.log| - 1] == Posted(run.halt.result.value.0 + path, payload)
  {
    var run := PostPick(config, path, payload, attempts);
    PostPickIsExpected(config, path, payload, attempts);
    if run.halt.Returned? && run.halt.result.Ok? {
      SettlesAfterOverloads(config, path, payload, attempts, Overloads(attempts));
    }
  }

  /** A reported status renders as the message "Err with code: N", and the
      number read back from that message is the status the server answered
      on the attempt that ended the loop. */
  lemma {:induction false} BadStatusMessageNamesStatus(config: WebApiConfig, path: string, payload: Json.Value, attempts: seq<Attempt>)
    ensures var run := PostPick(config, path, payload, attempts);
            run.halt.Returned? && run.halt.result.Err? && run.halt.result.error.BadStatus? ==>
              var k := Overloads(attempts);
              var message := Http.StatusMessage(run.halt.result.error.code);
              && k < |attempts|
              && attempts[k].response.Received?
              && Decimal.Parse(message[|Http.STATUS_PREFIX|..]) == attempts[k].response.status
  {
    PostPickIsExpected(config, path, payload, attempts);
  }
}
