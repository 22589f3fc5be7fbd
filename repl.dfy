/** The console loop of ChatBot.py (lines 66-85): read a line, stop on `exit`,
    ask again on blank input, otherwise call the responder and show its answer
    and sources. Console input is a finite sequence of lines; the responder and
    Python's `str()` of a non-string JSON value are parameters. */
module Repl {
  import opened PyJson
  import opened Extraction
  import opened Lists
  import opened Text

  const Welcome: string := "Welcome to the Cornell AI Assistant. Type 'exit' to quit."
  const InputPrompt: string := "\n> "
  const PleaseEnter: string := "Please enter a question."
  const ThinkingText: string := "Thinking..."
  const SourcesHeader: string := "\nSources:"

  /** One write to standard output, in the order the program makes them. */
  datatype Printed =
    | Banner                                  // ChatBot.py:67
    | Prompt                                  // the prompt of `input`, ChatBot.py:69
    | AskAgain                                // ChatBot.py:74
    | Thinking                                // ChatBot.py:77
    | Answer(text: string)                    // ChatBot.py:80, after the bullet repair
    | SourcesHeading                          // ChatBot.py:83
    | SourceItem(title: string, uri: string)  // ChatBot.py:85

  /** The characters each write puts on standard output: `print` appends a
      newline except after "Thinking..." (`end=""`); `input` writes its prompt
      as it is. It documents the output format only: the contracts here are
      stated over `Printed` events, not over characters. */
  function Written(p: Printed): string {
    match p
    case Banner => Welcome + "\n"
    case Prompt => InputPrompt
    case AskAgain => PleaseEnter + "\n"
    case Thinking => ThinkingText
    case Answer(text) => "\n" + text + "\n"
    case SourcesHeading => SourcesHeader + "\n"
    case SourceItem(title, uri) => "  - " + title + " (" + uri + ")\n"
  }

  /** What one input line asks the loop to do. */
  datatype Command = Exit | Reprompt | Ask

  /** ChatBot.py:70-75: the exit test comes first and is not trimmed; the blank
      test is. */
  function Classify(line: string): Command {
    if IsExit(line) then Exit
    else if Strip(line) == [] then Reprompt
    else Ask
  }

  /** The line is sent to the responder. */
  predicate IsQuestion(line: string) {
    Classify(line) == Ask
  }

  /** `AwaitingInput` is the loop's only live state. `Crashed` is where the loop
      ends when a reply's text is not a str: `replace` then raises
      AttributeError, which nothing catches. */
  datatype Mode = AwaitingInput | Terminated | Crashed

  /** The state of a session: its mode, everything written to standard output
      so far and the prompts passed to the responder, in order. */
  datatype Session = Session(mode: Mode, transcript: seq<Printed>, asked: seq<string>)

  /** A session after the banner of ChatBot.py:67. */
  const Start: Session := Session(AwaitingInput, [Banner], [])

  /** How an f-string shows a JSON value: a str as itself, anything else via
      Python's `str()`, which is the parameter `str`. */
  function Show(v: Json, str: Json -> string): string {
    if v.JStr? then v.s else str(v)
  }

  /** The line printed for one source (ChatBot.py:85). */
  function Item(source: Source, str: Json -> string): Printed {
    SourceItem(Show(source.title, str), Show(source.uri, str))
  }

  /** ChatBot.py:82-85: the header only when there are sources, then one line
      per source in list order. */
  function SourceLines(sources: seq<Source>, str: Json -> string): (lines: seq<Printed>)
    ensures lines == [] <==> sources == []
    ensures sources != [] ==> |lines| == |sources| + 1 && lines[0] == SourcesHeading
    ensures forall k :: 0 <= k < |sources| ==> lines[k + 1] == Item(sources[k], str)
  {
    if sources == [] then []
    else [SourcesHeading] + seq(|sources|, k requires 0 <= k < |sources| => Item(sources[k], str))
  }

  /** What the loop prints for a reply whose text is the str `text`
      (ChatBot.py:80-85). */
  function Render(text: string, sources: seq<Source>, str: Json -> string): seq<Printed> {
    [Answer(FixBullets(text))] + SourceLines(sources, str)
  }

  /** One pass through the loop body for the line `line`. */
  function Step(s: Session, line: string, ask: string -> Reply, str: Json -> string): Session {
    match Classify(line)
    case Exit => s.(mode := Terminated, transcript := s.transcript + [Prompt])
    case Reprompt => s.(transcript := s.transcript + [Prompt, AskAgain])
    case Ask =>
      var reply := ask(line);
      if reply.text.JStr? then
        s.(transcript := s.transcript + [Prompt, Thinking] + Render(reply.text.s, reply.sources, str),
           asked := s.asked + [line])
      else
        s.(mode := Crashed, transcript := s.transcript + [Prompt, Thinking], asked := s.asked + [line])
  }

  /** The session after the loop has been offered `lines`: once it has left
      `AwaitingInput`, no further line is read. */
  function Replay(lines: seq<string>, ask: string -> Reply, str: Json -> string): Session {
    if lines == [] then Start
    else
      var before := Replay(lines[..|lines| - 1], ask, str);
      if before.mode == AwaitingInput then Step(before, lines[|lines| - 1], ask, str) else before
  }

  /** ChatBot.py:80-85: the answer with its bullets repaired, then the
      sources block, built by the source loop. */
  method ShowReply(text: string, sources: seq<Source>, str: Json -> string) returns (shown: seq<Printed>)
    ensures shown == Render(text, sources, str)
  {
    shown := [Answer(FixBullets(text))];
    if sources != [] {
      shown := shown + [SourcesHeading];
      for k := 0 to |sources|
        invariant |shown| == k + 2 && shown[0] == Answer(FixBullets(text)) && shown[1] == SourcesHeading
        invariant forall j :: 0 <= j < k ==> shown[j + 2] == Item(sources[j], str)
      {
        shown := shown + [Item(sources[k], str)];
      }
      ghost var want := Render(text, sources, str);
      forall j | 0 <= j < |shown| ensures shown[j] == want[j] {
        if j > 1 {
          assert want[j] == SourceLines(sources, str)[j - 1] == Item(sources[j - 2], str);
        }
      }
    }
  }

  /** One pass through the body of the `while True` loop (ChatBot.py:69-85)
      on a live session: the prompt, the exit test, the blank test, then the
      responder call and the printing of its answer. It reports whether the
      responder was called. */
  method Turn(transcript: seq<Printed>, ghost asked: seq<string>, line: string, ask: string -> Reply, str: Json -> string)
    returns (mode: Mode, transcript': seq<Printed>, ghost asked': seq<string>, called: bool)
    ensures Session(mode, transcript', asked') == Step(Session(AwaitingInput, transcript, asked), line, ask, str)
    ensures called <==> IsQuestion(line)
    ensures asked' == asked + if called then [line] else []
  {
    StepCases(Session(AwaitingInput, transcript, asked), line, ask, str);
    mode, transcript', asked', called := AwaitingInput, transcript, asked, false;
    if LowerAscii(line) == "exit" {
      mode, transcript' := Terminated, transcript + [Prompt];
      return;
    }
    if Strip(line) == [] {
      transcript' := transcript + [Prompt, AskAgain];
      return;
    }
    var reply := ask(line);
    asked', called := asked + [line], true;
    if !reply.text.JStr? {
      mode, transcript' := Crashed, transcript + [Prompt, Thinking];
      return;
    }
    var shown := ShowReply(reply.text.s, reply.sources, str);
    transcript' := transcript + [Prompt, Thinking] + shown;
  }

  /** The `while True` loop of ChatBot.py:67-85 run over `inputs`: it stops
      when a pass leaves `AwaitingInput` or the input runs out. It returns the
      final mode, everything written and the number of responder calls, which
      are those of `Replay`. */
  method Run(inputs: seq<string>, ask: string -> Reply, str: Json -> string)
    returns (mode: Mode, transcript: seq<Printed>, calls: nat)
    ensures mode == Replay(inputs, ask, str).mode
    ensures transcript == Replay(inputs, ask, str).transcript
    ensures calls == |Replay(inputs, ask, str).asked|
  {
    mode, transcript, calls := AwaitingInput, [Banner], 0;
    ghost var asked: seq<string> := [];
    var i := 0;
    while i < |inputs| && mode == AwaitingInput
      invariant 0 <= i <= |inputs|
      invariant Replay(inputs[..i], ask, str) == Session(mode, transcript, asked)
      invariant calls == |asked|
    {
      ReplayNext(inputs, i, ask, str);
      var called;
      mode, transcript, asked, called := Turn(transcript, asked, inputs[i], ask, str);
      if called {
        calls := calls + 1;
      }
      i := i + 1;
    }
    ReplayFinished(inputs, i, ask, str);
  }

  // ---------------------------------------------------------------------------
  // Properties

  /** `Replay` takes one more line by one more `Step`, while the session is live. */
  lemma ReplayLast(lines: seq<string>, x: string, ask: string -> Reply, str: Json -> string)
    ensures var before := Replay(lines, ask, str);
      Replay(lines + [x], ask, str) == if before.mode == AwaitingInput then Step(before, x, ask, str) else before
  {
    assert (lines + [x])[..|lines|] == lines;
  }

  /** The session after one more line of input. */
  lemma ReplayNext(inputs: seq<string>, i: nat, ask: string -> Reply, str: Json -> string)
    requires i < |inputs|
    ensures var before := Replay(inputs[..i], ask, str);
      Replay(inputs[..i + 1], ask, str) == if before.mode == AwaitingInput then Step(before, inputs[i], ask, str) else before
  {
    TakeOneMore(inputs, i);
    ReplayLast(inputs[..i], inputs[i], ask, str);
  }

  /** Once the session has stopped, or every line has been read, the session
      is that of the whole input. */
  lemma ReplayFinished(inputs: seq<string>, i: nat, ask: string -> Reply, str: Json -> string)
    requires i <= |inputs|
    requires i < |inputs| ==> Replay(inputs[..i], ask, str).mode != AwaitingInput
    ensures Replay(inputs, ask, str) == Replay(inputs[..i], ask, str)
  {
    TakeDrop(inputs, i);
    if i < |inputs| {
      StoppedStaysStopped(inputs[..i], inputs[i..], ask, str);
    } else {
      assert inputs[..i] == inputs;
    }
  }

  /** The four ways a pass through the loop body can end. */
  lemma StepCases(s: Session, x: string, ask: string -> Reply, str: Json -> string)
    ensures Classify(x) == Exit ==>
      Step(s, x, ask, str) == s.(mode := Terminated, transcript := s.transcript + [Prompt])
    ensures Classify(x) == Reprompt ==>
      Step(s, x, ask, str) == s.(transcript := s.transcript + [Prompt, AskAgain])
    ensures Classify(x) == Ask && ask(x).text.JStr? ==>
      Step(s, x, ask, str) == s.(transcript := s.transcript + [Prompt, Thinking] + Render(ask(x).text.s, ask(x).sources, str),
                                 asked := s.asked + [x])
    ensures Classify(x) == Ask && !ask(x).text.JStr? ==>
      Step(s, x, ask, str) == s.(mode := Crashed, transcript := s.transcript + [Prompt, Thinking], asked := s.asked + [x])
  {
    match Classify(x)
    case Exit =>
    case Reprompt =>
    case Ask =>
  }

  /** A pass adds the line to the prompts sent exactly when it is a question. */
  lemma StepAsked(s: Session, x: string, ask: string -> Reply, str: Json -> string)
    ensures Step(s, x, ask, str).asked == s.asked + if IsQuestion(x) then [x] else []
  {
    match Classify(x)
    case Exit =>
    case Reprompt =>
    case Ask =>
  }

  /** A line adds to the prompts sent exactly when the session is live and the
      line is a question. */
  lemma ReplayAsked(lines: seq<string>, ask: string -> Reply, str: Json -> string)
    requires lines != []
    ensures var before := Replay(lines[..|lines| - 1], ask, str);
      before.mode == AwaitingInput ==>
        Replay(lines, ask, str).asked == before.asked + if IsQuestion(lines[|lines| - 1]) then [lines[|lines| - 1]] else []
    ensures var before := Replay(lines[..|lines| - 1], ask, str);
      before.mode != AwaitingInput ==> Replay(lines, ask, str) == before
  {
    StepAsked(Replay(lines[..|lines| - 1], ask, str), lines[|lines| - 1], ask, str);
  }

  /** A line is `exit`, blank (whitespace only) or a question, in that order
      of precedence. */
  lemma ClassifyMeaning(line: string)
    ensures Classify(line) == Exit <==> IsExit(line)
    ensures Classify(line) == Reprompt <==> !IsExit(line) && forall k :: 0 <= k < |line| ==> IsSpace(line[k])
  {
    StripEmptyIff(line);
  }

  /** The exit test is not trimmed: `exit` with a space before or after it is
      sent to the responder as a question. */
  lemma ExitNotTrimmed(w: string)
    requires IsExit(w)
    ensures Classify(" " + w) == Ask && Classify(w + " ") == Ask
  {
    ExitIff(w);
    ExitIff(" " + w);
    ExitIff(w + " ");
    assert (" " + w)[1] == w[0] && (w + " ")[0] == w[0];
    StripEmptyIff(" " + w);
    StripEmptyIff(w + " ");
  }

  /** After `exit` (or a crash) no further line has any effect. */
  lemma {:induction false} StoppedStaysStopped(lines: seq<string>, more: seq<string>, ask: string -> Reply, str: Json -> string)
    requires Replay(lines, ask, str).mode != AwaitingInput
    ensures Replay(lines + more, ask, str) == Replay(lines, ask, str)
  {
    if more == [] {
      assert lines + more == lines;
    } else {
      var init := more[..|more| - 1];
      StoppedStaysStopped(lines, init, ask, str);
      assert lines + more == (lines + init) + [more[|more| - 1]];
      ReplayLast(lines + init, more[|more| - 1], ask, str);
    }
  }

  /** `exit` ends the session after its prompt, without calling the responder
      or printing anything else, and every later line is ignored. */
  lemma ExitEndsSession(lines: seq<string>, x: string, more: seq<string>, ask: string -> Reply, str: Json -> string)
    requires Replay(lines, ask, str).mode == AwaitingInput
    requires IsExit(x)
    ensures var before := Replay(lines, ask, str);
      Replay(lines + [x] + more, ask, str) == before.(mode := Terminated, transcript := before.transcript + [Prompt])
  {
    ReplayLast(lines, x, ask, str);
    StepCases(Replay(lines, ask, str), x, ask, str);
    StoppedStaysStopped(lines + [x], more, ask, str);
  }

  /** A line that is not `exit` and holds only whitespace prints the request
      for a question and calls nothing. */
  lemma BlankReprompts(lines: seq<string>, x: string, ask: string -> Reply, str: Json -> string)
    requires Replay(lines, ask, str).mode == AwaitingInput
    requires !IsExit(x) && forall k :: 0 <= k < |x| ==> IsSpace(x[k])
    ensures var before := Replay(lines, ask, str);
      Replay(lines + [x], ask, str) == before.(transcript := before.transcript + [Prompt, AskAgain])
  {
    StripEmptyIff(x);
    ReplayLast(lines, x, ask, str);
    StepCases(Replay(lines, ask, str), x, ask, str);
  }

  /** A question (not `exit`, not blank) is sent to the responder; when the
      reply's text is a str, the prompt, "Thinking...", the repaired answer and
      its sources are printed and the session stays live. */
  lemma QuestionAnswered(lines: seq<string>, x: string, ask: string -> Reply, str: Json -> string)
    requires Replay(lines, ask, str).mode == AwaitingInput
    requires !IsExit(x) && exists k :: 0 <= k < |x| && !IsSpace(x[k])
    requires ask(x).text.JStr?
    ensures var before := Replay(lines, ask, str);
      Replay(lines + [x], ask, str) ==
        before.(transcript := before.transcript + [Prompt, Thinking] + Render(ask(x).text.s, ask(x).sources, str),
                asked := before.asked + [x])
  {
    ClassifyMeaning(x);
    ReplayLast(lines, x, ask, str);
    StepCases(Replay(lines, ask, str), x, ask, str);
  }

  /** A question whose reply's text is not a str ends the session after
      "Thinking...": the `replace` of ChatBot.py:80 raises and nothing more is
      printed. */
  lemma QuestionCrashes(lines: seq<string>, x: string, ask: string -> Reply, str: Json -> string)
    requires Replay(lines, ask, str).mode == AwaitingInput
    requires !IsExit(x) && exists k :: 0 <= k < |x| && !IsSpace(x[k])
    requires !ask(x).text.JStr?
    ensures var before := Replay(lines, ask, str);
      Replay(lines + [x], ask, str) ==
        before.(mode := Crashed, transcript := before.transcript + [Prompt, Thinking], asked := before.asked + [x])
  {
    ClassifyMeaning(x);
    ReplayLast(lines, x, ask, str);
    StepCases(Replay(lines, ask, str), x, ask, str);
  }

  /** Only questions reach the responder: never `exit`, never blank input. */
  lemma {:induction false} AskedAreQuestions(lines: seq<string>, ask: string -> Reply, str: Json -> string)
    ensures forall k :: 0 <= k < |Replay(lines, ask, str).asked| ==> IsQuestion(Replay(lines, ask, str).asked[k])
  {
    if lines != [] {
      AskedAreQuestions(lines[..|lines| - 1], ask, str);
      ReplayAsked(lines, ask, str);
    }
  }

  /** While the session is live, the responder has been called exactly once
      per question line, in input order. */
  lemma {:induction false} AskedWhileAwaiting(lines: seq<string>, ask: string -> Reply, str: Json -> string)
    requires Replay(lines, ask, str).mode == AwaitingInput
    ensures Replay(lines, ask, str).asked == Filter(IsQuestion, lines)
  {
    if lines != [] {
      var init := lines[..|lines| - 1];
      assert Replay(init, ask, str).mode == AwaitingInput;
      ReplayAsked(lines, ask, str);
      AskedWhileAwaiting(init, ask, str);
      FilterLast(IsQuestion, lines);
    }
  }

  /** There are never more responder calls than input lines. */
  lemma {:induction false} CallsBounded(lines: seq<string>, ask: string -> Reply, str: Json -> string)
    ensures |Replay(lines, ask, str).asked| <= |lines|
  {
    if lines != [] {
      CallsBounded(lines[..|lines| - 1], ask, str);
      ReplayAsked(lines, ask, str);
    }
  }
  /** No answer in `shown` still holds the mis-encoded bullet. */
  ghost predicate Repaired(shown: seq<Printed>) {
    forall k, i :: 0 <= k < |shown| && shown[k].Answer? ==> !GarbledAt(shown[k].text, i)
  }

  /** Writes with no answer in them are trivially repaired, and so is the
      concatenation of two repaired runs of writes. */
  lemma RepairedAppend(a: seq<Printed>, b: seq<Printed>)
    requires Repaired(a) && Repaired(b)
    ensures Repaired(a + b)
  {
    forall k, i | 0 <= k < |a + b| && (a + b)[k].Answer?
      ensures !GarbledAt((a + b)[k].text, i)
    {
      if k >= |a| {
        assert (a + b)[k] == b[k - |a|];
      }
    }
  }

  /** A pass keeps every answer shown so far repaired: the answer it adds has
      been through `FixBullets`. */
  lemma StepRepaired(s: Session, x: string, ask: string -> Reply, str: Json -> string)
    requires Repaired(s.transcript)
    ensures Repaired(Step(s, x, ask, str).transcript)
  {
    StepCases(s, x, ask, str);
    match Classify(x)
    case Exit =>
      RepairedAppend(s.transcript, [Prompt]);
    case Reprompt =>
      RepairedAppend(s.transcript, [Prompt, AskAgain]);
    case Ask =>
      RepairedAppend(s.transcript, [Prompt, Thinking]);
      if ask(x).text.JStr? {
        var text := ask(x).text.s;
        var shown := Render(text, ask(x).sources, str);
        forall k, i | 0 <= k < |shown| && shown[k].Answer?
          ensures !GarbledAt(shown[k].text, i)
        {
          assert k == 0;
          FixBulletsClean(text, i);
        }
        RepairedAppend(s.transcript + [Prompt, Thinking], shown);
      }
  }

  /** No answer is ever shown with the mis-encoded bullet still in it. */
  lemma {:induction false} AnswersRepaired(lines: seq<string>, ask: string -> Reply, str: Json -> string)
    ensures Repaired(Replay(lines, ask, str).transcript)
  {
    if lines != [] {
      var before := Replay(lines[..|lines| - 1], ask, str);
      AnswersRepaired(lines[..|lines| - 1], ask, str);
      if before.mode == AwaitingInput {
        StepRepaired(before, lines[|lines| - 1], ask, str);
      }
    }
  }
}
