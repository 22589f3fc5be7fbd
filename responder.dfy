/** `get_gemini_response` seen from its caller (ChatBot.py:26-64): the HTTP
    exchange is an abstract outcome, and every exception raised on the way is
    turned into a fixed message with no sources by the `except` clauses at
    ChatBot.py:55-64. */
module Responder {
  import opened PyJson
  import opened Extraction

  /** The body of a response, as `response.json()` sees it. */
  datatype Body = NotJson | Decoded(value: Json)

  /** What the single POST produced: `requests.post` itself raised (no
      connection, timeout, invalid URL, ...), or a response arrived. */
  datatype Exchange = SendFailed | Received(status: int, body: Body)

  /** The exceptions that reach the handlers. */
  datatype Raised =
    | ConnectionFailure        // raised by requests.post
    | HttpError(status: int)   // raised by raise_for_status
    | JsonDecodeError          // raised by response.json()
    | Builtin(fault: Fault)    // raised by the extraction

  const RequestFailureText: string :=
    "An error occurred while fetching the response. Please check your API key and network connection."
  const ParseFailureText: string := "An error occurred while processing the response."
  const UnexpectedFailureText: string := "An unexpected error occurred. Please try again later."

  /** `raise_for_status` raises for client errors (4xx) and server errors (5xx)
      only. */
  predicate IsErrorStatus(status: int) {
    400 <= status < 600
  }

  /** How the `try` block ended: with the extracted reply, or by raising. */
  datatype Outcome = Done(reply: Reply) | Failed(error: Raised)

  /** The body of the `try` block (ChatBot.py:28-53). */
  function Attempt(x: Exchange): Outcome {
    match x
    case SendFailed => Failed(ConnectionFailure)
    case Received(status, body) =>
      if IsErrorStatus(status) then Failed(HttpError(status))
      else match body
        case NotJson => Failed(JsonDecodeError)
        case Decoded(v) => match Extract(v)
          case Ok(reply) => Done(reply)
          case Err(f) => Failed(Builtin(f))
  }

  /** `except requests.exceptions.RequestException` matches these. Since
      requests 2.27, the error raised by `response.json()` derives from both
      `RequestException` and `json.JSONDecodeError`. */
  predicate IsRequestException(e: Raised) {
    e.ConnectionFailure? || e.HttpError? || e.JsonDecodeError?
  }

  /** `except json.JSONDecodeError` matches these. */
  predicate IsJsonDecodeError(e: Raised) {
    e.JsonDecodeError?
  }

  const RequestFailed: Reply := Reply(JStr(RequestFailureText), [])
  const ParseFailed: Reply := Reply(JStr(ParseFailureText), [])
  const UnexpectedFailed: Reply := Reply(JStr(UnexpectedFailureText), [])

  /** The three `except` clauses of ChatBot.py:55-64 in the order written: the
      first clause that matches handles the exception. */
  function HandleAsWritten(e: Raised): Reply {
    if IsRequestException(e) then RequestFailed
    else if IsJsonDecodeError(e) then ParseFailed
    else UnexpectedFailed
  }

  /** The handlers with the decode-error clause tried first, so that each kind
      of failure reaches the clause written for it. */
  function Handle(e: Raised): Reply {
    if IsJsonDecodeError(e) then ParseFailed
    else if IsRequestException(e) then RequestFailed
    else UnexpectedFailed
  }

  /** `get_gemini_response` as written. */
  function RespondAsWritten(x: Exchange): Reply {
    match Attempt(x)
    case Done(reply) => reply
    case Failed(e) => HandleAsWritten(e)
  }

  /** `get_gemini_response` with the handlers in their intended order. */
  function Respond(x: Exchange): Reply {
    match Attempt(x)
    case Done(reply) => reply
    case Failed(e) => Handle(e)
  }

  // ---------------------------------------------------------------------------
  // Properties

  /** Each way the exchange can go, and the reply it ends in. */
  lemma RespondClassified(x: Exchange)
    ensures x.SendFailed? ==> Respond(x) == RequestFailed
    ensures x.Received? && IsErrorStatus(x.status) ==> Respond(x) == RequestFailed
    ensures x.Received? && !IsErrorStatus(x.status) && x.body.NotJson? ==> Respond(x) == ParseFailed
    ensures (x.Received? && !IsErrorStatus(x.status) && x.body.Decoded?) ==>
      Respond(x) == (if Extract(x.body.value).Ok? then Extract(x.body.value).value else UnexpectedFailed)
  {
  }

  /** Every failure ends in exactly one of the three fixed messages with no
      sources, whichever order the handlers are tried in; nothing is raised to
      the caller. */
  lemma FailuresCarryNoSources(x: Exchange)
    requires Attempt(x).Failed?
    ensures RespondAsWritten(x).sources == [] && Respond(x).sources == []
    ensures RespondAsWritten(x) in {RequestFailed, ParseFailed, UnexpectedFailed}
    ensures Respond(x) in {RequestFailed, ParseFailed, UnexpectedFailed}
  {
  }

  /** The text handed back is never empty (or otherwise falsy), as written and
      with the handlers reordered. */
  lemma ReplyTextTruthy(x: Exchange)
    ensures Truthy(RespondAsWritten(x).text)
    ensures Truthy(Respond(x).text)
  {
    match Attempt(x)
    case Done(reply) =>
      ReplyShape(x.body.value);
    case Failed(e) =>
  }

  /** Sources reach the caller, from either handler order, only from a
      successful exchange whose first candidate has an answer and a non-empty
      attribution list; the two orders then return the same reply. */
  lemma SourcesNeedAnswer(x: Exchange)
    requires RespondAsWritten(x).sources != [] || Respond(x).sources != []
    ensures x.Received? && !IsErrorStatus(x.status) && x.body.Decoded?
    ensures RespondAsWritten(x) == Respond(x)
    ensures Extract(x.body.value) == Ok(Respond(x))
    ensures AnswerIn(x.body.value, Respond(x).text) && Cited(Candidate(x.body.value))
  {
    ReplyShape(x.body.value);
  }

  /** The handlers written in order misreport an undecodable body: it is
      caught by the request-failure clause, so a response with a non-error
      status (a 200, or a 204 with an empty body) whose body is not JSON is
      reported as a network problem. */
  lemma DecodeErrorMisreported(status: int)
    requires !IsErrorStatus(status)
    ensures RespondAsWritten(Received(status, NotJson)) == RequestFailed
    ensures Respond(Received(status, NotJson)) == ParseFailed
    ensures RequestFailed != ParseFailed
  {
  }

  /** Apart from that one case, the corrected handlers agree with the original. */
  lemma HandlersAgreeOtherwise(x: Exchange)
    requires Attempt(x) != Failed(JsonDecodeError)
    ensures RespondAsWritten(x) == Respond(x)
  {
  }
}
