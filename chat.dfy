/**
 * The conversation loop (GptClient.run_chat with _user_prompt and _confirm).
 *
 * What the program reads from outside is given as values: the filesystem
 * snapshot, the lines typed on standard input (both input() calls read the
 * same stream), and the fragment stream the remote service returns for each
 * request. The tokenizer, Python's str() of the conversation and json.dumps
 * are functions the client is constructed with.
 */
module Chat {
  import opened Wrappers
  import opened Pricing
  import opened ContextLoader

  datatype Role = System | User | Assistant

  datatype Message = Message(role: Role, content: string)

  /**
   * The shape of every conversation run_chat builds: the system message
   * first, then user and assistant messages taking turns.
   */
  predicate Alternating(conversation: seq<Message>) {
    && |conversation| >= 1
    && conversation[0].role == System
    && forall i :: 1 <= i < |conversation| ==> conversation[i].role == (if i % 2 == 1 then User else Assistant)
  }

  /** The last message is from the assistant or the system, so the loop asks the operator for a line. */
  predicate AwaitsUser(conversation: seq<Message>)
    requires conversation != []
  {
    conversation[|conversation| - 1].role in {Assistant, System}
  }

  /** In an alternating conversation the operator is asked exactly when the length is odd. */
  lemma AwaitsUserOnOddLength(conversation: seq<Message>)
    requires Alternating(conversation)
    ensures AwaitsUser(conversation) <==> |conversation| % 2 == 1
  {
  }

  // ---------------------------------------------------------------------------
  // The streamed answer

  /** The delta contents of one streamed answer, in arrival order; None is a chunk without content. */
  type Stream = seq<Option<string>>

  /** The fragments the loop keeps: the contents that are present and non-empty. */
  function Fragments(stream: Stream): (parts: seq<string>)
    ensures |parts| <= |stream|
    ensures forall k :: 0 <= k < |parts| ==> parts[k] != ""
  {
    if stream == [] then []
    else
      var delta := stream[|stream| - 1];
      Fragments(stream[..|stream| - 1]) + (if delta.Some? && delta.value != "" then [delta.value] else [])
  }

  /** The parts concatenated in order, with nothing between them. */
  function JoinStrings(parts: seq<string>): string {
    if parts == [] then "" else JoinStrings(parts[..|parts| - 1]) + parts[|parts| - 1]
  }

  /** Reference: everything the service delivered, every present content in order. */
  function Delivered(stream: Stream): string {
    if stream == [] then ""
    else
      var delta := stream[|stream| - 1];
      Delivered(stream[..|stream| - 1]) + (if delta.Some? then delta.value else "")
  }

  /** Dropping the empty fragments loses nothing: the joined fragments are all that was delivered. */
  lemma {:induction false} FragmentsJoinToDelivered(stream: Stream)
    ensures JoinStrings(Fragments(stream)) == Delivered(stream)
  {
    if stream != [] {
      var init := stream[..|stream| - 1];
      var delta := stream[|stream| - 1];
      FragmentsJoinToDelivered(init);
      var parts := Fragments(init);
      if delta.Some? && delta.value != "" {
        var more := parts + [delta.value];
        assert more[..|more| - 1] == parts;
      } else {
        assert parts + [] == parts;
      }
    }
  }

  /** The stream ["Hel", "lo!"] gives the answer "Hello!". */
  lemma TwoFragmentAnswer()
    ensures Delivered([Some("Hel"), Some("lo!")]) == "Hello!"
  {
    var s: Stream := [Some("Hel"), Some("lo!")];
    assert s[..1] == [Some("Hel")];
    assert s[..1][..0] == [];
  }

  /**
   * The stream loop of run_chat: every chunk whose delta has content is kept
   * in order, and the answer is their concatenation.
   */
  method CollectAnswer(stream: Stream) returns (fullMessage: string)
    ensures fullMessage == Delivered(stream)
  {
    var messages: seq<string> := [];
    for i := 0 to |stream|
      invariant messages == Fragments(stream[..i])
    {
      assert stream[..i + 1][..i] == stream[..i];
      var delta := stream[i];
      if delta.Some? {
        var message := delta.value;
        if message != "" {
          messages := messages + [message];
        }
      }
    }
    assert stream[..|stream|] == stream;
    FragmentsJoinToDelivered(stream);
    fullMessage := JoinStrings(messages);
  }

  // ---------------------------------------------------------------------------
  // The loop

  /** Why the loop stopped. */
  datatype Stop =
    | Declined          // the operator refused the cost prompt: sys.exit(), status 0
    | EndOfInput        // input() met the end of standard input: EOFError
    | UnknownModel      // the model has no price: KeyError
    | RemoteFailure     // the service returned no stream for a request

  /** The verdict of the cost gate. */
  datatype Gate = Pass | Halt(stop: Stop)

  /** A gate verdict together with the standard input left after it. */
  datatype Checked = Checked(gate: Gate, rest: seq<string>)

  /** A streaming completion request. No token cap is sent: max_tokens is never passed on. */
  datatype Request = Request(model: string, messages: seq<Message>, temperature: real, stream: bool)

  /** One loop pass as a value: how it ended (None when the answer arrived), the conversation after it, the input left. */
  datatype Outcome = Outcome(halt: Option<Stop>, messages: seq<Message>, rest: seq<string>)

  /** A whole run as a value: why it stopped, the final conversation, the input left unread. */
  datatype Ending = Ending(stop: Stop, transcript: seq<Message>, rest: seq<string>)

  /** The lines a run took from input: all but the unread rest. */
  function Consumed(input: seq<string>, rest: seq<string>): nat
    requires |rest| <= |input|
  {
    |input| - |rest|
  }

  lemma SuffixOfSuffix(input: seq<string>, middle: seq<string>, rest: seq<string>)
    requires |middle| <= |input| && middle == input[Consumed(input, middle)..]
    requires |rest| <= |middle| && rest == middle[Consumed(middle, rest)..]
    ensures |rest| <= |input| && rest == input[Consumed(input, rest)..]
  {
    assert middle[Consumed(middle, rest)..] == input[Consumed(input, middle) + Consumed(middle, rest)..];
  }

  /** The list object run_chat grows in place. */
  class Conversation {
    var messages: seq<Message>

    constructor (system: string)
      ensures messages == [Message(System, system)]
    {
      messages := [Message(System, system)];
    }
  }

  /** What the filesystem snapshot holds at a path. */
  function Lookup(fs: map<string, PathTarget>, path: string): PathTarget {
    if path in fs then fs[path] else Absent
  }

  class GptClient {
    const inputPath: Option<string>
    const fileEndings: seq<string>
    const model: string
    const temperature: real
    const maxTokens: Option<int>
    const system: string
    /** tiktoken's cl100k_base encoding */
    const encode: string -> seq<int>
    /** Python's str() of the conversation list */
    const show: seq<Message> -> string
    /** json.dumps of one typed line */
    const jsonDumps: string -> string

    constructor (inputPath: Option<string>, fileEndings: seq<string>, model: string, temperature: real,
                 maxTokens: Option<int>, system: string,
                 encode: string -> seq<int>, show: seq<Message> -> string, jsonDumps: string -> string)
      ensures this.inputPath == inputPath && this.fileEndings == fileEndings && this.model == model
      ensures this.temperature == temperature && this.maxTokens == maxTokens && this.system == system
      ensures this.encode == encode && this.show == show && this.jsonDumps == jsonDumps
    {
      this.inputPath := inputPath;
      this.fileEndings := fileEndings;
      this.model := model;
      this.temperature := temperature;
      this.maxTokens := maxTokens;
      this.system := system;
      this.encode := encode;
      this.show := show;
      this.jsonDumps := jsonDumps;
    }

    /** An input path was given and it is not empty: Python takes both None and "" as false. */
    predicate HasInput() {
      inputPath.Some? && inputPath.value != ""
    }

    /** The first user message: the loader's text for the input path, as it is (not JSON-encoded). */
    function InitialContext(fs: map<string, PathTarget>): string
      requires HasInput()
    {
      Context(inputPath.value, Lookup(fs, inputPath.value), fileEndings)
    }

    /**
     * _user_prompt: reads one line and appends it, JSON-encoded, as a user
     * message; at the end of input nothing is appended.
     */
    method UserPrompt(conversation: Conversation, stdin: seq<string>) returns (typed: bool, rest: seq<string>)
      modifies conversation
      ensures typed <==> stdin != []
      ensures typed ==> (rest == stdin[1..]
        && conversation.messages == old(conversation.messages) + [Message(User, jsonDumps(stdin[0]))])
      ensures !typed ==> rest == stdin && conversation.messages == old(conversation.messages)
    {
      if stdin == [] {
        return false, stdin;
      }
      var userInput := stdin[0];
      conversation.messages := conversation.messages + [Message(User, jsonDumps(userInput))];
      typed, rest := true, stdin[1..];
    }

    /**
     * _confirm: estimates the prompt cost of the whole conversation; over
     * either limit the operator is asked and only "", "y" or "Y" lets the
     * loop go on.
     */
    function Confirm(conversation: seq<Message>, stdin: seq<string>): (r: Checked)
      ensures model !in InputPricing ==> r == Checked(Halt(UnknownModel), stdin)
      ensures model in InputPricing && !MustConfirm(Costs(show(conversation), InputPricing, model, encode).value)
          ==> r == Checked(Pass, stdin)
      ensures model in InputPricing && MustConfirm(Costs(show(conversation), InputPricing, model, encode).value)
          ==> (if stdin == [] then r == Checked(Halt(EndOfInput), stdin)
               else (r.rest == stdin[1..]
                 && (r.gate == Pass <==> stdin[0] == "" || stdin[0] == "y" || stdin[0] == "Y")
                 && (r.gate != Pass ==> r.gate == Halt(Declined))))
    {
      match Costs(show(conversation), InputPricing, model, encode)
      case None => Checked(Halt(UnknownModel), stdin)
      case Some(estimate) =>
        if !MustConfirm(estimate) then Checked(Pass, stdin)
        else if stdin == [] then Checked(Halt(EndOfInput), stdin)
        else
          AcceptedReplies(stdin[0]);
          if Accepts(stdin[0]) then Checked(Pass, stdin[1..]) else Checked(Halt(Declined), stdin[1..])
    }

    /** The cost reported after a turn: the whole conversation as input plus the new answer as output. */
    function ReportedCost(conversation: seq<Message>, answer: string): (total: real)
      requires model in InputPricing
      ensures total * 1000.0
           == |encode(show(conversation))| as real * InputPricing[model] + |encode(answer)| as real * OutputPricing[model]
    {
      PriceTablesAgree();
      Costs(show(conversation), InputPricing, model, encode).value.cost + Costs(answer, OutputPricing, model, encode).value.cost
    }

    /** The k-th request and its answer, as they stand in the transcript. */
    ghost predicate Answered(transcript: seq<Message>, requests: seq<Request>, reports: seq<real>,
                             responses: seq<Stream>, k: nat)
      requires k < |requests| && k < |reports| && k < |responses|
    {
      && 2 * k + 3 <= |transcript|
      && requests[k] == Request("gpt-" + model, transcript[..2 * k + 2], temperature, true)
      && transcript[2 * k + 2] == Message(Assistant, Delivered(responses[k]))
      && model in InputPricing
      && reports[k] == ReportedCost(transcript[..2 * k + 3], Delivered(responses[k]))
    }

    /** Appending to the transcript and to the request and report lists keeps every earlier turn as it was. */
    lemma AnsweredStable(transcript: seq<Message>, more: seq<Message>, requests: seq<Request>, newRequests: seq<Request>,
                         reports: seq<real>, newReports: seq<real>, responses: seq<Stream>)
      requires |requests| <= |responses| && |reports| == |requests|
      requires forall k :: 0 <= k < |requests| ==> Answered(transcript, requests, reports, responses, k)
      ensures forall k :: 0 <= k < |requests| ==> Answered(transcript + more, requests + newRequests, reports + newReports, responses, k)
    {
      forall k | 0 <= k < |requests|
        ensures Answered(transcript + more, requests + newRequests, reports + newReports, responses, k)
      {
        assert Answered(transcript, requests, reports, responses, k);
        assert (transcript + more)[..2 * k + 2] == transcript[..2 * k + 2];
        assert (transcript + more)[..2 * k + 3] == transcript[..2 * k + 3];
        assert (requests + newRequests)[k] == requests[k];
        assert (reports + newReports)[k] == reports[k];
      }
    }

    /** Sending the conversation and appending the answer records one more answered turn. */
    lemma AnswerRecorded(sent: seq<Message>, answer: string, requests: seq<Request>, reports: seq<real>, responses: seq<Stream>)
      requires |requests| < |responses| && |reports| == |requests| && |sent| == 2 * |requests| + 2
      requires model in InputPricing && answer == Delivered(responses[|requests|])
      requires forall k :: 0 <= k < |requests| ==> Answered(sent, requests, reports, responses, k)
      ensures var transcript := sent + [Message(Assistant, answer)];
        forall k :: 0 <= k <= |requests| ==>
          Answered(transcript, requests + [Request("gpt-" + model, sent, temperature, true)],
                   reports + [ReportedCost(transcript, answer)], responses, k)
    {
      var transcript := sent + [Message(Assistant, answer)];
      var request := Request("gpt-" + model, sent, temperature, true);
      var report := ReportedCost(transcript, answer);
      AnsweredStable(sent, [Message(Assistant, answer)], requests, [request], reports, [report], responses);
      var n := |requests|;
      assert transcript[..2 * n + 2] == sent;
      assert transcript[..2 * n + 3] == transcript;
      assert Answered(transcript, requests + [request], reports + [report], responses, n);
    }

    /** What holds of the run between any two steps of run_chat's loop. */
    ghost predicate Progress(fs: map<string, PathTarget>, log: seq<Message>, requests: seq<Request>, reports: seq<real>,
                             responses: seq<Stream>)
    {
      && Alternating(log) && log[0] == Message(System, system)
      && (HasInput() ==> |log| >= 2 && log[1] == Message(User, InitialContext(fs)))
      && |requests| <= |responses| && |reports| == |requests|
      && 2 * |requests| + 1 <= |log| <= 2 * |requests| + 2
      && (forall k :: 0 <= k < |requests| ==> Answered(log, requests, reports, responses, k))
      && (model !in InputPricing ==> requests == [])
    }

    /** At the top of the loop every message has been answered, except the loaded files before the first request. */
    predicate TurnStart(log: seq<Message>, requests: seq<Request>) {
      |log| == 2 * |requests| + 1 || (|log| == 2 && requests == [] && HasInput())
    }

    /** The conversation before the first pass: the system message, then the loaded text when a path was given. */
    function Start(fs: map<string, PathTarget>): (start: seq<Message>)
      ensures start != [] && start[0] == Message(System, system)
    {
      [Message(System, system)] + (if HasInput() then [Message(User, InitialContext(fs))] else [])
    }

    /**
     * One pass of the loop as a function of the conversation, the input and
     * the number of answers already received: a line is read when the last
     * message is from the assistant or the system, then the gate decides,
     * then the next stream is the answer.
     */
    function Step(messages: seq<Message>, input: seq<string>, answered: nat, responses: seq<Stream>): (o: Outcome)
      requires messages != [] && answered <= |responses|
      ensures messages <= o.messages
      ensures |o.rest| <= |input| && o.rest == input[Consumed(input, o.rest)..]
      ensures o.halt == Some(EndOfInput) ==> o.rest == []
      ensures forall i :: |messages| <= i < |o.messages| && o.messages[i].role == User ==>
        input != [] && o.messages[i].content == jsonDumps(input[0])
      ensures o.halt.None? ==> (answered < |responses| && |o.messages| > |messages|
        && o.messages[|o.messages| - 1] == Message(Assistant, Delivered(responses[answered])))
    {
      if AwaitsUser(messages) && input == [] then Outcome(Some(EndOfInput), messages, input)
      else
        var prompted := if AwaitsUser(messages) then messages + [Message(User, jsonDumps(input[0]))] else messages;
        var afterPrompt := if AwaitsUser(messages) then input[1..] else input;
        var checked := Confirm(prompted, afterPrompt);
        if checked.gate.Halt? then Outcome(Some(checked.gate.stop), prompted, checked.rest)
        else if answered == |responses| then Outcome(Some(RemoteFailure), prompted, checked.rest)
        else Outcome(None, prompted + [Message(Assistant, Delivered(responses[answered]))], checked.rest)
    }

    /** A pass is declined only after a reply that is not "", "y" or "Y" was read, and only when a prompt was due. */
    lemma StepDeclined(messages: seq<Message>, input: seq<string>, answered: nat, responses: seq<Stream>)
      requires messages != [] && answered <= |responses|
      ensures var o := Step(messages, input, answered, responses);
        o.halt == Some(Declined) ==>
          var used := Consumed(input, o.rest);
          && 0 < used
          && input[used - 1] != "" && input[used - 1] != "y" && input[used - 1] != "Y"
          && model in InputPricing
          && MustConfirm(Costs(show(o.messages), InputPricing, model, encode).value)
    {
      var o := Step(messages, input, answered, responses);
      if o.halt == Some(Declined) {
        var k := if AwaitsUser(messages) then 1 else 0;
        var afterPrompt := input[k..];
        assert afterPrompt != [] && o.rest == afterPrompt[1..];
        assert Consumed(input, o.rest) == k + 1;
        assert input[k] == afterPrompt[0];
      }
    }

    /** Every user message of transcript from index `from` on is the JSON encoding of some line of input. */
    ghost predicate TypedLines(transcript: seq<Message>, from: nat, input: seq<string>) {
      forall i :: from <= i < |transcript| && transcript[i].role == User ==>
        exists j :: 0 <= j < |input| && transcript[i].content == jsonDumps(input[j])
    }

    lemma TypedLinesOfSuffix(transcript: seq<Message>, from: nat, input: seq<string>, k: nat)
      requires k <= |input| && TypedLines(transcript, from, input[k..])
      ensures TypedLines(transcript, from, input)
    {
      forall i | from <= i < |transcript| && transcript[i].role == User
        ensures exists j :: 0 <= j < |input| && transcript[i].content == jsonDumps(input[j])
      {
        var j :| 0 <= j < |input[k..]| && transcript[i].content == jsonDumps(input[k..][j]);
        assert input[k..][j] == input[k + j];
      }
    }

    lemma TypedLinesJoin(transcript: seq<Message>, from: nat, middle: seq<Message>, input: seq<string>)
      requires middle <= transcript
      requires TypedLines(middle, from, input) && TypedLines(transcript, |middle|, input)
      ensures TypedLines(transcript, from, input)
    {
      forall i | from <= i < |transcript| && transcript[i].role == User
        ensures exists j :: 0 <= j < |input| && transcript[i].content == jsonDumps(input[j])
      {
        if i < |middle| {
          assert transcript[i] == middle[i];
        }
      }
    }

    lemma StepTypedLines(messages: seq<Message>, input: seq<string>, answered: nat, responses: seq<Stream>)
      requires messages != [] && answered <= |responses|
      ensures TypedLines(Step(messages, input, answered, responses).messages, |messages|, input)
    {
      var o := Step(messages, input, answered, responses);
      forall i | |messages| <= i < |o.messages| && o.messages[i].role == User
        ensures exists j :: 0 <= j < |input| && o.messages[i].content == jsonDumps(input[j])
      {
        assert o.messages[i].content == jsonDumps(input[0]);
      }
    }

    lemma TypedLinesCompose(transcript: seq<Message>, from: nat, middle: seq<Message>, input: seq<string>, rest: seq<string>)
      requires middle <= transcript && |rest| <= |input| && rest == input[Consumed(input, rest)..]
      requires TypedLines(middle, from, input) && TypedLines(transcript, |middle|, rest)
      ensures TypedLines(transcript, from, input)
    {
      TypedLinesOfSuffix(transcript, |middle|, input, Consumed(input, rest));
      TypedLinesJoin(transcript, from, middle, input);
    }

    /** The whole loop as a function: passes follow each other until one halts. */
    function Run(messages: seq<Message>, input: seq<string>, answered: nat, responses: seq<Stream>): (e: Ending)
      requires messages != [] && answered <= |responses|
      ensures messages <= e.transcript
      ensures |e.rest| <= |input| && e.rest == input[Consumed(input, e.rest)..]
      ensures e.stop == EndOfInput ==> e.rest == []
      ensures TypedLines(e.transcript, |messages|, input)
      decreases |responses| - answered
    {
      var o := Step(messages, input, answered, responses);
      StepTypedLines(messages, input, answered, responses);
      if o.halt.Some? then Ending(o.halt.value, o.messages, o.rest)
      else
        var e := Run(o.messages, o.rest, answered + 1, responses);
        SuffixOfSuffix(input, o.rest, e.rest);
        TypedLinesCompose(e.transcript, |messages|, o.messages, input, o.rest);
        e
    }

    /** The passes of a run after the first one: what the run is, unfolded once. */
    lemma RunUnfold(messages: seq<Message>, input: seq<string>, answered: nat, responses: seq<Stream>)
      requires messages != [] && answered <= |responses|
      ensures var o := Step(messages, input, answered, responses);
        Run(messages, input, answered, responses)
          == if o.halt.Some? then Ending(o.halt.value, o.messages, o.rest) else Run(o.messages, o.rest, answered + 1, responses)
    {
    }


    /** Without a path the first user message is the first typed line, and there is one exactly when input is not empty. */
    lemma FirstLineTyped(input: seq<string>, responses: seq<Stream>)
      requires !HasInput()
      ensures var e := Run([Message(System, system)], input, 0, responses);
        && (|e.transcript| >= 2 <==> input != [])
        && (input != [] ==> e.transcript[1] == Message(User, jsonDumps(input[0])))
    {
      var start := [Message(System, system)];
      var o := Step(start, input, 0, responses);
      var e := Run(start, input, 0, responses);
      if input != [] {
        var prompted := start + [Message(User, jsonDumps(input[0]))];
        assert prompted <= o.messages;
        assert o.messages <= e.transcript;
        assert e.transcript[1] == prompted[1];
      }
    }

    /** The prompt of a turn whose last message is answered: the typed line joins the conversation as the next user message. */
    method AskUser(conversation: Conversation, input: seq<string>, requests: seq<Request>, reports: seq<real>,
                   responses: seq<Stream>, ghost fs: map<string, PathTarget>)
      returns (typed: bool, input': seq<string>)
      requires Progress(fs, conversation.messages, requests, reports, responses)
      requires |conversation.messages| == 2 * |requests| + 1
      modifies conversation
      ensures typed <==> input != []
      ensures typed ==> (input' == input[1..] && |conversation.messages| == 2 * |requests| + 2
        && conversation.messages == old(conversation.messages) + [Message(User, jsonDumps(input[0]))]
        && Progress(fs, conversation.messages, requests, reports, responses))
      ensures !typed ==> input' == input && conversation.messages == old(conversation.messages)
    {
      ghost var log := conversation.messages;
      ghost var line := if input == [] then "" else input[0];
      typed, input' := UserPrompt(conversation, input);
      if typed {
        AnsweredStable(log, [Message(User, jsonDumps(line))], requests, [], reports, [], responses);
        assert requests + [] == requests && reports + [] == reports;
        assert conversation.messages[..|log|] == log;
      }
    }

    /**
     * One pass of run_chat's loop body: the user prompt when the last message
     * is from the assistant or the system, the cost gate, the request and the
     * streamed answer. A halt leaves the unanswered conversation in place.
     */
    method Turn(conversation: Conversation, input: seq<string>, requests: seq<Request>, reports: seq<real>,
                responses: seq<Stream>, ghost fs: map<string, PathTarget>)
      returns (halt: Option<Stop>, input': seq<string>, requests': seq<Request>, reports': seq<real>)
      requires Progress(fs, conversation.messages, requests, reports, responses)
      requires TurnStart(conversation.messages, requests)
      modifies conversation
      ensures Progress(fs, conversation.messages, requests', reports', responses)
      ensures halt.None? ==> |requests'| == |requests| + 1 && TurnStart(conversation.messages, requests')
      ensures halt.Some? ==> requests' == requests && reports' == reports
      ensures halt.Some? && halt != Some(EndOfInput) ==> |conversation.messages| == 2 * |requests| + 2
      ensures halt == Some(RemoteFailure) ==> |requests| == |responses|
      ensures halt.Some? && halt != Some(EndOfInput) ==> (halt == Some(UnknownModel) <==> model !in InputPricing)
      ensures halt == Some(UnknownModel) ==> |conversation.messages| == 2
      ensures halt == Some(Declined) ==>
        model in InputPricing && MustConfirm(Costs(show(conversation.messages), InputPricing, model, encode).value)
      ensures var o := Step(old(conversation.messages), input, |requests|, responses);
        halt == o.halt && conversation.messages == o.messages && input' == o.rest
    {
      input', requests', reports' := input, requests, reports;
      if AwaitsUser(conversation.messages) {
        var typed;
        typed, input' := AskUser(conversation, input, requests, reports, responses, fs);
        if !typed {
          return Some(EndOfInput), input', requests', reports';
        }
      }
      assert |conversation.messages| == 2 * |requests| + 2;
      var checked := Confirm(conversation.messages, input');
      input' := checked.rest;
      if checked.gate.Halt? {
        return Some(checked.gate.stop), input', requests', reports';
      }
      if |requests| == |responses| {
        return Some(RemoteFailure), input', requests', reports';
      }
      requests', reports' := Exchange(conversation, requests, reports, responses, fs);
      halt := None;
    }

    /** What holds of a conversation that stopped with stop, beyond the run's invariant. */
    predicate Closing(stop: Stop, transcript: seq<Message>, requests: seq<Request>, responses: seq<Stream>) {
      && (stop == RemoteFailure ==> |requests| == |responses| && |transcript| == 2 * |requests| + 2)
      && (stop == UnknownModel ==> model !in InputPricing && |transcript| == 2)
      && (stop != EndOfInput && model !in InputPricing ==> stop == UnknownModel)
      && (stop == Declined ==> (|transcript| == 2 * |requests| + 2
        && model in InputPricing && MustConfirm(Costs(show(transcript), InputPricing, model, encode).value)))
    }

    /**
     * One pass seen from the whole run: the run from the conversation before
     * the pass is the run from the conversation after it, or ends where the
     * pass halted.
     */
    method Advance(conversation: Conversation, input: seq<string>, requests: seq<Request>, reports: seq<real>,
                responses: seq<Stream>, ghost fs: map<string, PathTarget>)
      returns (halt: Option<Stop>, input': seq<string>, requests': seq<Request>, reports': seq<real>)
      requires Progress(fs, conversation.messages, requests, reports, responses)
      requires TurnStart(conversation.messages, requests)
      modifies conversation
      ensures Progress(fs, conversation.messages, requests', reports', responses)
      ensures halt.None? ==> (|requests'| == |requests| + 1 && TurnStart(conversation.messages, requests')
        && Run(old(conversation.messages), input, |requests|, responses)
           == Run(conversation.messages, input', |requests'|, responses))
      ensures halt.Some? ==> (requests' == requests && reports' == reports
        && Run(old(conversation.messages), input, |requests|, responses)
           == Ending(halt.value, conversation.messages, input')
        && Closing(halt.value, conversation.messages, requests, responses))
    {
      ghost var before := conversation.messages;
      halt, input', requests', reports' := Turn(conversation, input, requests, reports, responses, fs);
      RunUnfold(before, input, |requests|, responses);
    }

    /**
     * The request and the streamed answer: the whole conversation is sent,
     * the answer appended as an assistant message and its cost reported.
     */
    method Exchange(conversation: Conversation, requests: seq<Request>, reports: seq<real>,
                    responses: seq<Stream>, ghost fs: map<string, PathTarget>)
      returns (requests': seq<Request>, reports': seq<real>)
      requires Progress(fs, conversation.messages, requests, reports, responses)
      requires |conversation.messages| == 2 * |requests| + 2 && |requests| < |responses| && model in InputPricing
      modifies conversation
      ensures Progress(fs, conversation.messages, requests', reports', responses)
      ensures |requests'| == |requests| + 1 && TurnStart(conversation.messages, requests')
      ensures conversation.messages == old(conversation.messages) + [Message(Assistant, Delivered(responses[|requests|]))]
      ensures requests' == requests + [Request("gpt-" + model, old(conversation.messages), temperature, true)]
    {
      ghost var log := conversation.messages;
      var fullMessage := CollectAnswer(responses[|requests|]);
      AnswerRecorded(log, fullMessage, requests, reports, responses);
      requests' := requests + [Request("gpt-" + model, conversation.messages, temperature, true)];
      conversation.messages := conversation.messages + [Message(Assistant, fullMessage)];
      reports' := reports + [ReportedCost(conversation.messages, fullMessage)];
      assert conversation.messages[..2] == log[..2];
    }

    /**
     * run_chat: the conversation starts with the system message and, when an
     * input path is given, the loaded files as a user message. Each turn
     * reads a line when the last message is from the assistant or the system,
     * passes the cost gate, sends the whole conversation and appends the
     * streamed answer. The run ends at the end of input, at a refused or
     * unpriced gate, or when the service gives no answer.
     */
    method RunChat(fs: map<string, PathTarget>, stdin: seq<string>, responses: seq<Stream>)
      returns (stop: Stop, transcript: seq<Message>, rest: seq<string>, requests: seq<Request>, reports: seq<real>)
      ensures stop == EndOfInput ==> rest == []
      ensures !HasInput() ==> ((|transcript| >= 2 <==> stdin != [])
        && (stdin != [] ==> transcript[1] == Message(User, jsonDumps(stdin[0]))))
      ensures Alternating(transcript) && transcript[0] == Message(System, system)
      ensures HasInput() ==> |transcript| >= 2 && transcript[1] == Message(User, InitialContext(fs))
      ensures |requests| <= |responses| && |reports| == |requests|
      ensures |transcript| == 2 * |requests| + 1 || |transcript| == 2 * |requests| + 2
      ensures forall k :: 0 <= k < |requests| ==> Answered(transcript, requests, reports, responses, k)
      ensures stop == RemoteFailure ==> |requests| == |responses| && |transcript| == 2 * |requests| + 2
      ensures stop == UnknownModel ==> model !in InputPricing && |transcript| == 2
      ensures stop != EndOfInput && model !in InputPricing ==> stop == UnknownModel
      ensures model !in InputPricing ==> requests == []
      ensures stop == Declined ==> (|transcript| == 2 * |requests| + 2
        && model in InputPricing && MustConfirm(Costs(show(transcript), InputPricing, model, encode).value))
      ensures TypedLines(transcript, |Start(fs)|, stdin)
      ensures Ending(stop, transcript, rest) == Run(Start(fs), stdin, 0, responses)
    {
      var conversation := new Conversation(system);
      if HasInput() {
        var fileContents := ConcatenateFiles(inputPath.value, Lookup(fs, inputPath.value), fileEndings);
        conversation.messages := conversation.messages + [Message(User, fileContents)];
      }
      assert Progress(fs, conversation.messages, [], [], responses);
      assert conversation.messages == Start(fs);
      stop, rest, requests, reports := Converse(conversation, stdin, responses, fs);
      transcript := conversation.messages;
      if !HasInput() {
        FirstLineTyped(stdin, responses);
      }
    }

    /**
     * The main loop of run_chat: passes follow each other until one halts;
     * the result is the run of the conversation it was given.
     */
    method Converse(conversation: Conversation, stdin: seq<string>, responses: seq<Stream>, ghost fs: map<string, PathTarget>)
      returns (stop: Stop, rest: seq<string>, requests: seq<Request>, reports: seq<real>)
      requires Progress(fs, conversation.messages, [], [], responses)
      requires TurnStart(conversation.messages, [])
      modifies conversation
      ensures Progress(fs, conversation.messages, requests, reports, responses)
      ensures Closing(stop, conversation.messages, requests, responses)
      ensures Ending(stop, conversation.messages, rest) == Run(old(conversation.messages), stdin, 0, responses)
    {
      var input := stdin;
      requests, reports := [], [];
      ghost var ending := Run(conversation.messages, stdin, 0, responses);
      while true
        invariant Progress(fs, conversation.messages, requests, reports, responses)
        invariant TurnStart(conversation.messages, requests)
        invariant Run(conversation.messages, input, |requests|, responses) == ending
        decreases |responses| - |requests|
      {
        var halt;
        halt, input, requests, reports := Advance(conversation, input, requests, reports, responses, fs);
        if halt.Some? {
          return halt.value, input, requests, reports;
        }
      }
    }
  }
}
