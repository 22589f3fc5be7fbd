# Cornell AI Assistant (ChatBot.py) in Dafny

ChatBot.py is a console assistant. It sends each question to the Gemini
`generateContent` endpoint with Google Search grounding, takes the answer text
and the cited web sources out of the JSON response, and prints them. This
project models the three pieces of logic inside it and proves what they
promise:

- **Answer extraction** (`get_gemini_response`, ChatBot.py:39-53), in
  `extraction.dfy`. It is a pure function `Extraction.Extract` over a decoded
  JSON value (`PyJson.Json`). Python's `d.get(k, default)`, `v[0]`, `v[k]` and
  truthiness are modelled exactly in `pyjson.dfy`, so every lookup that raises
  in Python yields an `Err` with the exception kind. The same extraction is
  also stated declaratively (`HasCandidate`, `AnswerIn`, `Cited`, and
  `Filter(HasWeb, ...)` over the attributions), and lemmas connect the two
  descriptions.
- **Failure classification** (ChatBot.py:26-64), in `responder.dfy`. The HTTP
  exchange is an abstract `Exchange`: the send failed, or a status and a body
  that is either undecodable or a decoded JSON value. `Responder.Attempt` is
  the `try` block. `Responder.RespondAsWritten` maps each exception to one of
  the three fixed replies with the `except` clauses in the order written, and
  `Responder.Respond` does so with the decode-error clause tried first (see
  "## Findings").
- **Console loop** (ChatBot.py:66-85), in `repl.dfy` with the string
  operations in `text.dfy`. `Repl.Run` is the `while True` loop over a finite
  sequence of input lines. Its body is `Repl.Turn`, and the source `for` loop
  is `Repl.ShowReply`. `Turn` and `Run` are proved equal to the specification
  functions `Step` and `Replay`, and `ShowReply` to `Render`; the loop's
  properties are proved about those functions. The responder is a function parameter `ask`. Standard output is
  a sequence of `Printed` writes: the banner, each `input` prompt, the
  re-prompt, "Thinking...", the answer and the source lines. `Written` gives
  the exact characters of each write; it documents the output format, and
  the contracts are stated over the `Printed` events.

Python's `str()` of a non-string JSON value, used by the f-string on line 85
when a title or uri is not a string, is the function parameter `str`.

Two details of the code are modelled as written:

- `raise_for_status` raises only for statuses 400-599 (ChatBot.py:33); a 1xx
  or 3xx response goes on to `response.json()`.
- Line 44 copies whatever truthy value `parts[0].text` holds, so the reply's
  text is a `Json`, not necessarily a string. When it is not a str, the
  `replace` on line 80 raises AttributeError and nothing catches it. The loop
  then ends in mode `Crashed`.

## Model

| member | source | states |
|---|---|---|
| Extraction.SourcesFromMeaning | ChatBot.py:47-51 | the comprehension succeeds exactly when every attribution is a dict whose truthy `web` (if any) is a dict holding `uri` and `title`; it then yields `{uri, title}` of exactly the attributions with a truthy `web`, in their original order |
| Extraction.SourcesFromBounded | ChatBot.py:47-51 | never more sources than attributions, and each source is the `uri` and `title` of some attribution with a truthy `web` |
| Extraction.ProbeThenSubscript | ChatBot.py:43-44 | once the `.get` chain finds a truthy text, the candidate really holds `content.parts[0].text`, and the subscripts yield that same text without raising |
| Extraction.AnswerFound | ChatBot.py:43-51 | when the first candidate's `content.parts[0].text` is truthy, the reply text is exactly that value; with a non-empty, well-formed attribution list the sources are exactly the attributions with a truthy `web`, in order; with no metadata, or a falsy metadata or attribution list, there are none; an error in the metadata is the error of the whole extraction |
| Extraction.ReplyShape | ChatBot.py:39-53 | every successful extraction is the fallback reply or carries the first candidate's answer; non-empty sources imply a found answer and a non-empty `groundingAttributions` list, are that list filtered by truthy `web` in order, and are no longer than it |
| Extraction.FallbackCases | ChatBot.py:39-43 | a missing `candidates` key, a falsy first candidate, a missing `content`, a missing `parts`, and a missing or falsy `text` all give the fallback message with no sources, without raising |
| Extraction.RaisingCases | ChatBot.py:39-51 | a non-dict body raises AttributeError; an empty `candidates` list and an empty `parts` list raise IndexError; a malformed cited attribution, or a truthy attribution value that is not a list, raises; no partial result survives |
| Responder.RespondClassified | ChatBot.py:33-64 | with the decode-error clause tried first (the corrected order): a failed send and a 4xx/5xx status give the request-failure message; an undecodable body gives the processing-error message; a decoded body gives the extracted reply, or the unexpected-error message when the extraction raises |
| Responder.FailuresCarryNoSources | ChatBot.py:55-64 | with the handlers as written and reordered alike, every exception ends in one of the three fixed messages with no sources; nothing propagates to the caller |
| Responder.ReplyTextTruthy | ChatBot.py:40-64 | with the handlers as written and reordered alike, the text handed back is never empty or otherwise falsy |
| Responder.SourcesNeedAnswer | ChatBot.py:41-64 | sources reach the caller, from either handler order, only from a non-error response whose body decodes, whose first candidate has an answer, and whose attribution list is non-empty; both orders then give the same reply |
| Responder.DecodeErrorMisreported | ChatBot.py:33-61 | with the handlers in the written order, a response with any non-error status and an undecodable body gives the request-failure message; with the decode clause first it gives the processing-error message, and the two differ |
| Responder.HandlersAgreeOtherwise | ChatBot.py:55-64 | apart from a decode failure, the handlers as written and in corrected order give the same reply |
| Text.StripLeadingSuffix | ChatBot.py:73 | `lstrip()` removes a whitespace prefix and stops at the first character that is not whitespace |
| Text.StripTrailingPrefix | ChatBot.py:73 | `rstrip()` removes a whitespace suffix and stops at the last character that is not whitespace |
| Text.StripEmptyIff | ChatBot.py:73 | `strip()` yields the empty string exactly when every character is whitespace |
| Text.LowerAscii | ChatBot.py:70 | lowering keeps the length and maps each upper-case ASCII letter to its lower-case letter, every other character to itself |
| Text.ExitIff | ChatBot.py:70 | `line.lower() == 'exit'` holds exactly when the line is the four letters e, x, i, t in any letter case, with nothing around them |
| Text.FixBullets | ChatBot.py:80 | the bullet repair keeps the length of the text |
| Text.FixBulletsReplaces | ChatBot.py:80 | every occurrence of the mis-encoded bullet (U+00E2 U+20AC U+00A2) is shown as "  *" at the same position |
| Text.FixBulletsKeeps | ChatBot.py:80 | every character outside the occurrences is left unchanged |
| Text.FixBulletsClean | ChatBot.py:80 | no mis-encoded bullet is left in the shown text |
| Repl.SourceLines | ChatBot.py:82-85 | the "Sources:" header appears exactly when there are sources, followed by one `  - title (uri)` line per source, in list order |
| Repl.ShowReply | ChatBot.py:80-85 | the source loop prints the repaired answer, then the header and one line per source, which is `Render` |
| Repl.Turn | ChatBot.py:69-85 | one pass of the loop body on a live session is `Step`: the prompt, then termination on `exit`, the re-prompt on blank input, or the responder call with "Thinking...", the answer and its sources; the responder is called exactly for question lines |
| Repl.Run | ChatBot.py:67-85 | the loop over the input lines ends in the mode and transcript of `Replay`, having called the responder once per prompt that `Replay` records |
| Repl.StepAsked | ChatBot.py:70-78 | a pass sends the line to the responder exactly when it is a question |
| Repl.ReplayAsked | ChatBot.py:68-78 | a new line is sent to the responder exactly when the session is live and the line is a question; a stopped session is unchanged by it |
| Repl.ClassifyMeaning | ChatBot.py:70-75 | a line is `exit` exactly when its `lower()` is "exit", and blank exactly when it is not `exit` and holds only whitespace |
| Repl.ExitNotTrimmed | ChatBot.py:70 | `exit` with a space before or after it is sent to the responder as a question |
| Repl.StoppedStaysStopped | ChatBot.py:68-71 | once the loop has ended, further input changes nothing |
| Repl.ExitEndsSession | ChatBot.py:70-71 | on `exit` the loop terminates after writing only the prompt, with no responder call, and every later line is ignored |
| Repl.QuestionAnswered | ChatBot.py:76-85 | a line that is not `exit` and holds a non-whitespace character is sent to the responder; when the reply's text is a str, the prompt, "Thinking...", the repaired answer and its sources are printed and the session stays live |
| Repl.QuestionCrashes | ChatBot.py:76-80 | a question whose reply's text is not a str ends the session after the prompt and "Thinking...", with the line recorded as sent |
| Repl.BlankReprompts | ChatBot.py:73-75 | a whitespace-only line that is not `exit` writes the prompt and "Please enter a question." and changes nothing else |
| Repl.AskedAreQuestions | ChatBot.py:70-78 | every line sent to the responder is a question: never `exit`, never blank |
| Repl.AskedWhileAwaiting | ChatBot.py:68-78 | while the session is live, the lines sent to the responder are exactly the question lines, in input order |
| Repl.CallsBounded | ChatBot.py:68-78 | there are never more responder calls than input lines |
| Repl.RepairedAppend | ChatBot.py:80 | appending writes without a mis-encoded answer to a transcript without one keeps it free of them |
| Repl.StepRepaired | ChatBot.py:80 | a pass keeps every shown answer free of the mis-encoded bullet |
| Repl.AnswersRepaired | ChatBot.py:80 | no answer is ever shown with the mis-encoded bullet still in it |

## Left out

- The HTTP call: `requests.post`, the URL with the API key, the headers and the internals of `raise_for_status` (ChatBot.py:28-33). The exchange is the abstract `Exchange`.
- Building the request body and `json.dumps` (ChatBot.py:18-24, 31), and the decoding done by `response.json()` (ChatBot.py:36). The body arrives already decoded, or as `NotJson`.
- The API key, URL and system prompt constants (ChatBot.py:7-8, 16). They are configuration with no behaviour.
- The diagnostics written to `sys.stderr` (ChatBot.py:56, 59-60, 63) and the flushing of standard output.
- The end of input: when the lines run out, the real `input` writes one more prompt and raises EOFError. The model stops with the session still `AwaitingInput`, and that last prompt is not in the transcript. KeyboardInterrupt is not modelled either.
- Python's `str()` of a non-string title or uri is the parameter `str`, not a model of Python's repr of dicts, lists and numbers.
- JSON numbers are reals, so the int/float distinction is not modelled, and the `NaN`, `Infinity` and `-Infinity` that Python's `json` accepts cannot be represented. The extraction only tests their truthiness, but a numeric title or uri reaches the f-string at ChatBot.py:85, where Python prints `1` and `1.0` differently; the parameter `str` sees both as `JNum(1.0)`.
- JSON objects are maps: key order and duplicate keys are not modelled. Iterating a dict-valued attribution list raises AttributeError at its first key whatever the order, but `str()` of a dict-valued title or uri at ChatBot.py:85 prints its keys in order, which the parameter `str` cannot see.
- The responder is a function `ask` from the question to its reply, so the model answers a repeated question the same way every time. The real program may answer it differently on a second call (a network failure, then an answer). No property proved here depends on replies to equal questions being equal.
- Text.LowerAscii: lowers ASCII letters only. Python's `lower()` changes other letters too, but no character other than E, X, I and T lowers to e, x, i or t, so comparing with "exit" gives the same answer.
- The extraction evaluates `attr["web"]` once for both `uri` and `title` (ChatBot.py:48). Both lookups read the same unchanged dict, so they yield the same value.

## Findings

| source | as written | input that shows it | evidently intended | confidence | as-written member | corrected member |
|---|---|---|---|---|---|---|
| ChatBot.py:33-61 | `except requests.exceptions.RequestException` comes before `except json.JSONDecodeError`. Since requests 2.27, `response.json()` raises `requests.exceptions.JSONDecodeError`, which derives from both classes, so the first clause catches decode failures and lines 58-61 never run | `Received(200, NotJson)`: a 200 response whose body is not JSON (any status outside 400-599 does the same, e.g. a 204 with an empty body) | the reply "An error occurred while processing the response." | not executed; holds for requests 2.27 or later | Responder.DecodeErrorMisreported | Responder.RespondClassified |

`Responder.HandleAsWritten` and `Responder.RespondAsWritten` keep the clause
order of the code, and `Responder.DecodeErrorMisreported` shows the
misreported case. `Responder.Handle` tries the decode clause first, and
`Responder.Respond` is built on it. The console loop does not use either:
it takes the responder as the parameter `ask`.
`Responder.RespondClassified` proves that each kind of failure reaches its own
message there, and `Responder.HandlersAgreeOtherwise` proves that this is the
only difference.
