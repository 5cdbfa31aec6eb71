/** The job protocol spoken with a worker server, and the failures the
    client reports to its caller. */
module Protocol {
  import Json
  import Http

  /** The states of a remote job that the client distinguishes. The job
      identifier is numeric; every state the client does not match on
      (a removed job, a server-side error, ...) is `Other`. */
  datatype PollingState =
    | Started(id: nat)
    | Pending
    | Done(result: Json.Value)
    | Other(detail: string)

  /** Reading a JSON document as a `PollingState` (`serde_json::from_value`);
      `Undecoded` carries the debug text of the decoding error. */
  type Decoder = Json.Value -> DecodeResult

  datatype DecodeResult = Decoded(state: PollingState) | Undecoded(detail: string)

  /** The error strings of `webapi_post_pick` and `webapi_post_polling`,
      one variant per place the source builds one. */
  datatype Failure =
    | Rejected(cause: Http.Cause)            // a non-status error of the submission
    | BadStatus(code: Http.StatusCode)       // Http.StatusMessage(code)
    | Undecodable(detail: string)            // the document is not a polling state
    | NotStarted(state: PollingState)        // the submission did not start a job
    | PollFailed(error: Http.WebApiError)    // any error of a query-state request
    | BadPollState(state: PollingState)      // a poll answered neither Pending nor Done
}
