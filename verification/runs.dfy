/** What one call of the client does, as seen from outside: the requests it
    sends and the delays it sleeps, in order, and how it stops. Clocks and
    sleeping are not modelled beyond recording each delay. */
module Runs {
  import opened Outcomes
  import Json
  import Protocol

  datatype Event = Posted(url: string, body: Json.Value) | Slept(seconds: nat)

  /** How a call stops: it returns, it panics, or the finite trace of server
      responses ran out while the call was still waiting for one (the real
      call would go on). */
  datatype Halt<+T> =
    | Returned(result: Result<T, Protocol.Failure>)
    | Panicked(message: string)
    | Exhausted

  datatype Run<+T> = Run(halt: Halt<T>, log: seq<Event>)

  /** The number of requests in a log. */
  function Posts(log: seq<Event>): nat {
    if |log| == 0 then 0 else (if log[0].Posted? then 1 else 0) + Posts(log[1..])
  }

  /** The number of delays in a log. */
  function Sleeps(log: seq<Event>): nat {
    if |log| == 0 then 0 else (if log[0].Slept? then 1 else 0) + Sleeps(log[1..])
  }

  /** The total time slept, in seconds. */
  function Delay(log: seq<Event>): nat {
    if |log| == 0 then 0 else (if log[0].Slept? then log[0].seconds else 0) + Delay(log[1..])
  }

  /** Every request of the log is `body` sent to `url`. */
  predicate AllPostsTo(log: seq<Event>, url: string, body: Json.Value) {
    forall i :: 0 <= i < |log| && log[i].Posted? ==> log[i] == Posted(url, body)
  }

  /** Every delay of the log lasts `seconds`. */
  predicate AllSleeps(log: seq<Event>, seconds: nat) {
    forall i :: 0 <= i < |log| && log[i].Slept? ==> log[i].seconds == seconds
  }

  /** One request to each URL in turn, each followed by a delay of
      `seconds`: the shape of a retry or polling loop that went round. */
  function Backoff(urls: seq<string>, body: Json.Value, seconds: nat): seq<Event> {
    if |urls| == 0 then [] else [Posted(urls[0], body), Slept(seconds)] + Backoff(urls[1..], body, seconds)
  }

  /** `n` copies of `url`. */
  function Repeat(url: string, n: nat): (urls: seq<string>)
    ensures |urls| == n
    ensures forall i :: 0 <= i < n ==> urls[i] == url
  {
    if n == 0 then [] else [url] + Repeat(url, n - 1)
  }

  lemma {:induction false} CountsAppend(a: seq<Event>, b: seq<Event>)
    ensures Posts(a + b) == Posts(a) + Posts(b)
    ensures Sleeps(a + b) == Sleeps(a) + Sleeps(b)
    ensures Delay(a + b) == Delay(a) + Delay(b)
    decreases |a|
  {
    if |a| == 0 {
      assert a + b == b;
    } else {
      assert (a + b)[1..] == a[1..] + b;
      CountsAppend(a[1..], b);
    }
  }

  /** A loop that went round `|urls|` times sent `|urls|` requests and slept
      `|urls|` times, `seconds` each. */
  lemma {:induction false} BackoffCounts(urls: seq<string>, body: Json.Value, seconds: nat)
    ensures Posts(Backoff(urls, body, seconds)) == |urls|
    ensures Sleeps(Backoff(urls, body, seconds)) == |urls|
    ensures Delay(Backoff(urls, body, seconds)) == seconds * |urls|
    ensures AllSleeps(Backoff(urls, body, seconds), seconds)
    decreases |urls|
  {
    if |urls| > 0 {
      var head := [Posted(urls[0], body), Slept(seconds)];
      var tail := Backoff(urls[1..], body, seconds);
      BackoffCounts(urls[1..], body, seconds);
      CountsAppend(head, tail);
      assert Posts(head) == 1 && Sleeps(head) == 1 && Delay(head) == seconds;
      assert forall i :: 2 <= i < |head + tail| ==> (head + tail)[i] == tail[i - 2];
    }
  }

  /** Polling one URL `n` times sends every request there. */
  lemma {:induction false} BackoffRepeatPostsTo(url: string, n: nat, body: Json.Value, seconds: nat)
    ensures AllPostsTo(Backoff(Repeat(url, n), body, seconds), url, body)
    decreases n
  {
    if n > 0 {
      var urls := Repeat(url, n);
      assert urls[1..] == Repeat(url, n - 1);
      BackoffRepeatPostsTo(url, n - 1, body, seconds);
      var tail := Backoff(urls[1..], body, seconds);
      var log := [Posted(url, body), Slept(seconds)] + tail;
      assert forall i :: 2 <= i < |log| ==> log[i] == tail[i - 2];
    }
  }

  lemma AllPostsToAppend(a: seq<Event>, b: seq<Event>, url: string, body: Json.Value)
    requires AllPostsTo(a, url, body) && AllPostsTo(b, url, body)
    ensures AllPostsTo(a + b, url, body)
  {
  }

  lemma AllSleepsAppend(a: seq<Event>, b: seq<Event>, seconds: nat)
    requires AllSleeps(a, seconds) && AllSleeps(b, seconds)
    ensures AllSleeps(a + b, seconds)
  {
  }
}
