# Remote job dispatch client — a Dafny model

This project models the remote-dispatch client of `rust/src/webapi.rs`. The client offloads a
long-running job to one of several worker servers and follows the job until it finishes. It has
four parts:

- **`webapi_post`** classifies the outcome of one POST. The result is a JSON document, a
  `StatusError(code)` or an `Error`. Module `Http`.
- **`pick_server`** chooses one of the configured servers at random. Module `Servers`.
- **`webapi_post_pick`** is submit-with-retry. It picks a server and posts to `server + path`. On
  status 429 it sleeps 60 seconds and starts over with a new pick. This retry has no limit. Every
  other outcome ends the call, and a success returns the server that was used. Module `Submission`.
- **`webapi_post_polling`** submits the job and requires the answer `Started(id)`. It then polls
  `server + "sys/query_state"` on that same server, sending `id` as the body. While the job is
  `Pending` it waits 30 seconds between polls. It stops at `Done(result)` or at any other answer.
  Module `Polling`.

The network is modelled as finite traces of abstract responses, and each request consumes one
response:

- A submission round consumes one `Attempt`. An attempt holds the random draw that picks the server
  and that server's `Response`.
- A poll consumes one `Response`.

Submission always comes before polling, so keeping the two traces separate loses nothing. Each
call produces a `Run`. It has a log of events (`Posted(url, body)` and `Slept(seconds)`) and a
`Halt`. The halt is one of three things:

- `Returned(result)`;
- `Panicked(message)`, for `pick_server` on an empty list;
- `Exhausted`, when the trace ran out while the real loop would still be waiting for a response.

Each loop has a partner: a closed-form reference definition (`Submission.Expected`,
`Polling.ExpectedPoll`). It is stated in terms of the number of leading 429 answers or leading
`Pending` answers. A lemma proves that each loop equals its closed form, and the properties
follow from those lemmas.

The model follows two details of the code exactly:

- The poll URL is `server` directly followed by `sys/query_state`, with no separator added.
- The `"Err"` member is inspected only on status 200. A non-200 response is reported by its status
  code alone, and its body is never read.

## Model

| member | source | states |
|---|---|---|
| Json.Get | rust/src/webapi.rs:136 | looking up a key finds something exactly when the document is an object with that member, and then it finds that member's value |
| Http.Classify | rust/src/webapi.rs:116-141 | a non-200 status is reported as `StatusError` carrying exactly the received code, and only then; transport, read and parse failures are `Error`, never `StatusError`; at 200 a parsed document is returned unmodified exactly when it has no top-level "Err" member, and otherwise it becomes an `Error` carrying the document |
| Http.ClassifyRange | rust/src/webapi.rs:116-141 | `Possible` is exactly the set of outcomes of `webapi_post`: every classification is possible, and every possible outcome is produced by some server response |
| Http.StatusMessageInjective | rust/src/webapi.rs:103-105 | the "Err with code: N" message determines the code: two codes give the same message only if they are equal |
| Decimal.Show | rust/src/webapi.rs:104 | the rendering of a code has at least one character, only digits, and no leading zero |
| Http.StatusMessage | rust/src/webapi.rs:104 | the message is "Err with code: " followed only by digits, and those digits read back as exactly the code |
| Submission.BadStatusMessageNamesStatus | rust/src/webapi.rs:101-105 | when the call reports a status, its message reads back as the status the server gave on the attempt that ended the loop |
| Decimal.ParseShow | rust/src/webapi.rs:104 | the decimal rendering of a code can be read back to the same number |
| Servers.PickServer | rust/src/webapi.rs:50-54 | the pick yields a member of the server list, and it fails (the "No server found!" panic) exactly when the list is empty |
| Servers.EveryServerReachable | rust/src/webapi.rs:50-54 | every configured server is chosen by some draw |
| Submission.PostPick | rust/src/webapi.rs:91-113 | the call panics exactly when there are no servers, and then sends nothing; a success names a configured server and a document without an "Err" member; a reported status is neither 200 nor 429; the only failures are rejected submissions and bad statuses |
| Submission.PostPickIsExpected | rust/src/webapi.rs:95-112 | the retry loop equals its closed form: it sends one request and sleeps 60 seconds per leading 429, then stops at the first attempt that is not a 429 and returns that attempt's outcome |
| Submission.SettlesAfterOverloads | rust/src/webapi.rs:95-112 | after k 429s and one other answer, the call sends exactly k+1 requests and sleeps exactly k times, 60 seconds each; it returns the last answer's outcome, and the last request goes to the server of the last pick |
| Submission.SucceedsAfterOverloads | rust/src/webapi.rs:96-111 | k 429s followed by a good 200 document give success with that document and the server of the (k+1)-th pick, after exactly k delays totalling 60·k seconds |
| Submission.OtherStatusIsImmediate | rust/src/webapi.rs:101-105 | a status other than 200 and 429 is returned at once as that code, after one request and no delay |
| Submission.ErrorIsImmediate | rust/src/webapi.rs:98-100 | an `Error` from `webapi_post` is returned at once and unchanged, after one request and no delay |
| Submission.ExhaustedOnlyByOverload | rust/src/webapi.rs:95-112 | the loop is still running when the trace runs out exactly when every response was a 429: there is no retry cap |
| Submission.SuccessNamesServerUsed | rust/src/webapi.rs:96-99 | the server returned on success is the one whose URL `server + path` received the successful request |
| Polling.Poll | rust/src/webapi.rs:168-187 | polling never panics; it never reports a submission failure; a reported bad state is neither `Pending` nor `Done` |
| Polling.PollIsExpected | rust/src/webapi.rs:168-187 | the polling loop equals its closed form: one poll and one 30-second wait per leading `Pending`, then it stops at the first other answer with that answer's meaning |
| Polling.PollIsSticky | rust/src/webapi.rs:168-170 | every poll goes to `server + "sys/query_state"` with the job id as body, and every wait lasts 30 seconds |
| Polling.FinishesAfterPendings | rust/src/webapi.rs:170-186 | k `Pending` answers followed by any other answer give k+1 polls and exactly k waits (30·k seconds); the call then returns what the last answer means and polls no more |
| Polling.DoneAfterPendings | rust/src/webapi.rs:173-186 | `Pending` k times and then `Done(result)` returns exactly `result` after exactly k waits of 30 seconds |
| Polling.DonePayloadUnchanged | rust/src/webapi.rs:174 | a successful poll returns exactly the payload that the first non-`Pending` answer carried in `Done` |
| Polling.OverloadEndsPolling | rust/src/webapi.rs:170 | a 429 while polling is not retried: after one poll the call ends with that status error |
| Polling.PostPolling | rust/src/webapi.rs:144-188 | the whole call panics exactly when there are no servers |
| Polling.NoPollWithoutStart | rust/src/webapi.rs:148-166 | if the submission fails, or its document does not decode to `Started`, no poll is sent and any result is an error; a submission error is passed on unchanged |
| Polling.PollsStayOnAcceptingServer | rust/src/webapi.rs:148-170 | after a `Started(id)` submission, the log is the submission followed by polls only to the accepting server's query-state path with body `id`, and no server is picked again |
| Polling.EndToEnd | rust/src/webapi.rs:144-188 | k 429s, a `Started(id)` submission, then m `Pending` polls and a `Done(result)` poll return `result` after k+m delays totalling 60·k + 30·m seconds |

## Left out

- The lazily built HTTP client and configuration (`REQWEST_CLIENT`, `CONFIG`, rust/src/webapi.rs:21-41) are left out. They cover file reading, PEM parsing, YAML parsing and client construction. The configuration is a value passed to the client, and `trustCert` is carried but unused.
- The HTTP transport, JSON text parsing and decoding are not modelled:
  - A `Response` is what one request produced.
  - Decoding a document into a `PollingState` is an oracle function passed to the client.
- JSON numbers are integers only, and floating-point numbers are not modelled. The client never inspects numbers.
- Debug formatting (`format!("{:?}", ..)`) is not modelled. Errors reach the caller as a structured `Failure`, not as a string. The one message the source spells out in full, "Err with code: N", is rendered by `Http.StatusMessage`. `Submission.BadStatusMessageNamesStatus` links that rendering to the `BadStatus` failure of the retry loop. No other failure is rendered as text.
- `PollingState` is defined in a crate that is not part of this model. Only the variants the client matches are modelled: `Started`, `Pending` and `Done`. Every other shape is `Other`. The job id is assumed to be a number.
- `thread::sleep` is recorded as a `Slept` event. The random generator is an oracle draw reduced modulo the list length.
- Servers.EveryServerReachable: states only that every server can be chosen, not that the choice is uniform, because randomness is an oracle here.
- The retry loop and the poll loop may never end. The model runs them over finite traces and reports `Exhausted` when a trace runs out. Termination in general is not claimed.
- Logging (`trace!`, `debug!`, `info!`) is left out.
- `fil_seal_commit_phase2_webapi` (rust/src/webapi.rs:205-277) is left out. It is a foreign-function entry point with raw pointers, an environment-variable switch and calls into the proof library.
- The commented-out upload helper and macro (rust/src/webapi.rs:59-79, 190-195) and the `webapi_post_polling!` macro wrapper are left out.
- rust/build.rs (header generation) and rust/src/lib.rs (module declarations) contain no logic of the client.
