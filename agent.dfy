/** The tool-calling chat loop (agent.py): the registry of callable tools,
    the agent's construction, and the dispatch loop that grows the
    transcript.  The user's lines and the language model's answers are
    given as finite scripts: the n-th `input()` returns the n-th line and
    the n-th content generation returns the n-th response. */
module Agent {
  import opened Wrappers
  import opened Json
  import opened Congress

  const Instruction: string :=
    "You are a helpful chatbot designed to help the user learn about bills in front of congress. \n"
    + "You will use the congressional api to access information about these bills. Call list_bills to get a list of bills.\n"
    + "For any object in a response that contains a url, call call_endpoint to get more information on it"

  const ModelName: string := "gemini-2.0-flash"

  /** The line that ends the session. */
  const QuitCommand: string := "q"

  // ---------------------------------------------------------------------
  // Transcript values

  datatype Role = UserRole | ModelRole

  datatype FunctionCall = FunctionCall(name: string, args: map<string, Json>)

  /** A part of a turn: text, a function call from the model, or a function
      response; `EmptyPart` has neither text nor a call. */
  datatype Part =
    | TextPart(text: string)
    | CallPart(call: FunctionCall)
    | ResponsePart(name: string, response: map<string, Json>)
    | EmptyPart

  datatype Content = Content(role: Role, parts: seq<Part>)

  datatype Candidate = Candidate(parts: seq<Part>)

  /** What one content generation returns. */
  datatype ModelResponse = ModelResponse(candidates: seq<Candidate>)

  /** `gen_content`: the first part of the first candidate; the rest of the
      response is never looked at. */
  function FirstPart(resp: ModelResponse): (r: Result<Part>)
    ensures r.Ok? <==> |resp.candidates| > 0 && |resp.candidates[0].parts| > 0
    ensures r.Ok? ==> r.value == resp.candidates[0].parts[0]
    ensures r.Err? ==> r.error == IndexOutOfRange
  {
    if |resp.candidates| == 0 || |resp.candidates[0].parts| == 0 then Err(IndexOutOfRange)
    else Ok(resp.candidates[0].parts[0])
  }

  function UserText(line: string): Content {
    Content(UserRole, [TextPart(line)])
  }

  function CallTurn(call: FunctionCall): Content {
    Content(ModelRole, [CallPart(call)])
  }

  function ResultTurn(name: string, result: Json): Content {
    Content(UserRole, [ResponsePart(name, map["result" := result])])
  }

  // ---------------------------------------------------------------------
  // The registry

  /** A callable tool: keyword arguments in, a JSON result or an exception out. */
  type Tool = map<string, Json> -> Result<Json>

  /** `FUNCTIONS`: the declared schemas paired with their implementations. */
  function Functions(api: Api): (fs: seq<(Schema, Tool)>)
    ensures |fs| == 1 && fs[0].0 == ListBillsSchema
    ensures forall args :: fs[0].1(args) == ListBillsCall(api, args)
  {
    [(ListBillsSchema, (args: map<string, Json>) => ListBillsCall(api, args))]
  }

  /** The name-to-function dict built from the pairs; a later pair with the
      same name replaces an earlier one. */
  function Registry(fs: seq<(Schema, Tool)>): (m: map<string, Tool>)
    ensures m.Keys == set i | 0 <= i < |fs| :: fs[i].0.name
  {
    if fs == [] then map[]
    else
      var init := fs[..|fs| - 1];
      assert forall i :: 0 <= i < |init| ==> init[i] == fs[i];
      Registry(init)[fs[|fs| - 1].0.name := fs[|fs| - 1].1]
  }

  /** Each name maps to the function of its last pair. */
  lemma {:induction false} RegistryLast(fs: seq<(Schema, Tool)>, i: int)
    requires 0 <= i < |fs|
    requires forall j :: i < j < |fs| ==> fs[j].0.name != fs[i].0.name
    ensures Registry(fs)[fs[i].0.name] == fs[i].1
    decreases |fs|
  {
    if i < |fs| - 1 {
      var init := fs[..|fs| - 1];
      assert init[i] == fs[i];
      RegistryLast(init, i);
    }
  }

  /** Only `list_bills` is callable, and calling it is `list_bills(**args)`. */
  lemma AgentRegistry(api: Api)
    ensures Registry(Functions(api)).Keys == {"list_bills"}
    ensures forall args :: Registry(Functions(api))["list_bills"](args) == ListBillsCall(api, args)
  {
    var fs := Functions(api);
    assert fs[0].0.name == "list_bills";
    RegistryLast(fs, 0);
  }

  function Declarations(fs: seq<(Schema, Tool)>): (ds: seq<Schema>)
    ensures |ds| == |fs| && forall i :: 0 <= i < |fs| ==> ds[i] == fs[i].0
  {
    if fs == [] then [] else Declarations(fs[..|fs| - 1]) + [fs[|fs| - 1].0]
  }

  // ---------------------------------------------------------------------
  // The dispatch loop, as specification functions

  /** What is printed: a call log line, or the model's text answer. */
  datatype Output = CallLog(name: string, args: map<string, Json>) | Answer(text: string)

  /** How the handling of one line ended: with a text answer, with an
      exception, or because the response script ran out. */
  datatype Status = Answered | Failed(error: Error) | NoReply

  datatype Step = Step(contents: seq<Content>, printed: seq<Output>, rest: seq<ModelResponse>, status: Status)

  /** How a session ended: on "q", with an exception (EOF included), or
      because the response script ran out. */
  datatype Outcome = Quit | Crashed(error: Error) | OutOfReplies

  datatype Ended = Ended(contents: seq<Content>, printed: seq<Output>, outcome: Outcome)

  /** The calls the model made, in transcript order. */
  function Dispatched(c: seq<Content>): seq<FunctionCall> {
    if c == [] then [] else
      (if c[0].role == ModelRole && |c[0].parts| > 0 && c[0].parts[0].CallPart? then [c[0].parts[0].call] else [])
      + Dispatched(c[1..])
  }

  /** The calls that were logged, in order. */
  function Logged(out: seq<Output>): seq<FunctionCall> {
    if out == [] then [] else
      (if out[0].CallLog? then [FunctionCall(out[0].name, out[0].args)] else []) + Logged(out[1..])
  }

  /** The inner loop, from the response `part` on: while the response is not
      text, look the function up, log the call, invoke it, append the call
      and its result to the transcript, and ask for the next response. */
  function Dispatch(tools: map<string, Tool>, contents: seq<Content>, printed: seq<Output>,
                    part: Part, replies: seq<ModelResponse>): (s: Step)
    ensures contents <= s.contents && printed <= s.printed
    decreases |replies|
  {
    if part.TextPart? then Step(contents, printed + [Answer(part.text)], replies, Answered)
    else if !part.CallPart? then Step(contents, printed, replies, Failed(AttributeMissing))
    else
      var call := part.call;
      if call.name !in tools then Step(contents, printed, replies, Failed(KeyMissing(call.name)))
      else
        var printed' := printed + [CallLog(call.name, call.args)];
        var result := tools[call.name](call.args);
        if result.Err? then Step(contents, printed', replies, Failed(result.error))
        else
          var contents' := contents + [CallTurn(call), ResultTurn(call.name, result.value)];
          if replies == [] then Step(contents', printed', [], NoReply)
          else
            var next := FirstPart(replies[0]);
            if next.Err? then Step(contents', printed', replies[1..], Failed(next.error))
            else Dispatch(tools, contents', printed', next.value, replies[1..])
  }

  /** One round of the inner loop: a registered call that returns is
      logged, appended with its result, and the loop goes on with the next
      response. */
  lemma DispatchStep(tools: map<string, Tool>, contents: seq<Content>, printed: seq<Output>,
                     call: FunctionCall, v: Json, replies: seq<ModelResponse>)
    requires call.name in tools && tools[call.name](call.args) == Ok(v) && replies != []
    ensures
      var c, p := contents + [CallTurn(call), ResultTurn(call.name, v)], printed + [CallLog(call.name, call.args)];
      Dispatch(tools, contents, printed, CallPart(call), replies) ==
        if FirstPart(replies[0]).Err? then Step(c, p, replies[1..], Failed(FirstPart(replies[0]).error))
        else Dispatch(tools, c, p, FirstPart(replies[0]).value, replies[1..])
  {
  }

  /** The inner loop consumes responses from the front of the script. */
  lemma {:induction false} DispatchConsumes(tools: map<string, Tool>, contents: seq<Content>, printed: seq<Output>,
                                            part: Part, replies: seq<ModelResponse>)
    ensures
      var s := Dispatch(tools, contents, printed, part, replies);
      |s.rest| <= |replies| && s.rest == replies[|replies| - |s.rest|..]
    decreases |replies|
  {
    if part.CallPart? && part.call.name in tools && replies != [] {
      var call := part.call;
      var result := tools[call.name](call.args);
      if result.Ok? && FirstPart(replies[0]).Ok? {
        var contents' := contents + [CallTurn(call), ResultTurn(call.name, result.value)];
        var printed' := printed + [CallLog(call.name, call.args)];
        var s := Dispatch(tools, contents, printed, part, replies);
        assert s == Dispatch(tools, contents', printed', FirstPart(replies[0]).value, replies[1..]);
        DispatchConsumes(tools, contents', printed', FirstPart(replies[0]).value, replies[1..]);
        SuffixOfTail(replies, s.rest);
      }
    }
  }

  /** A suffix of the tail of a sequence is a suffix of the sequence. */
  lemma SuffixOfTail(replies: seq<ModelResponse>, r: seq<ModelResponse>)
    requires |replies| > 0 && |r| <= |replies| - 1 && r == replies[1..][|replies| - 1 - |r|..]
    ensures |r| <= |replies| && r == replies[|replies| - |r|..]
  {
    assert replies[1..][|replies| - 1 - |r|..] == replies[|replies| - |r|..];
  }

  /** Every call the inner loop logs names a registered function. */
  lemma {:induction false} DispatchNames(tools: map<string, Tool>, contents: seq<Content>, printed: seq<Output>,
                                         part: Part, replies: seq<ModelResponse>)
    ensures
      var s := Dispatch(tools, contents, printed, part, replies);
      forall k :: |printed| <= k < |s.printed| && s.printed[k].CallLog? ==> s.printed[k].name in tools
    decreases |replies|
  {
    var s := Dispatch(tools, contents, printed, part, replies);
    if part.CallPart? && part.call.name in tools {
      var call := part.call;
      var result := tools[call.name](call.args);
      var printed' := printed + [CallLog(call.name, call.args)];
      assert printed' <= s.printed;
      if result.Ok? && replies != [] && FirstPart(replies[0]).Ok? {
        var contents' := contents + [CallTurn(call), ResultTurn(call.name, result.value)];
        DispatchNames(tools, contents', printed', FirstPart(replies[0]).value, replies[1..]);
        assert s == Dispatch(tools, contents', printed', FirstPart(replies[0]).value, replies[1..]);
      }
      forall k | |printed| <= k < |s.printed| && s.printed[k].CallLog?
        ensures s.printed[k].name in tools
      {
        if k == |printed| {
          assert s.printed[k] == printed'[k];
        } else {
          assert result.Ok? && replies != [] && FirstPart(replies[0]).Ok?;
        }
      }
    } else if part.TextPart? {
      assert s.printed[|printed|..] == [Answer(part.text)];
    }
  }

  /** The calls in the new turns are the logged calls, in order, except a
      last logged call whose tool raised. */
  lemma {:induction false} DispatchCalls(tools: map<string, Tool>, contents: seq<Content>, printed: seq<Output>,
                                         part: Part, replies: seq<ModelResponse>)
    ensures
      var s := Dispatch(tools, contents, printed, part, replies);
      var calls, logged := Dispatched(s.contents[|contents|..]), Logged(s.printed[|printed|..]);
      && calls <= logged && |logged| <= |calls| + 1
      && (!s.status.Failed? ==> calls == logged)
    decreases |replies|
  {
    var s := Dispatch(tools, contents, printed, part, replies);
    if part.TextPart? {
      assert s.contents[|contents|..] == [];
      assert s.printed[|printed|..] == [Answer(part.text)];
      LoggedAnswer(part.text);
    } else if part.CallPart? && part.call.name in tools {
      var call := part.call;
      var printed' := printed + [CallLog(call.name, call.args)];
      var result := tools[call.name](call.args);
      LoggedOne(call);
      if result.Err? {
        assert s.contents[|contents|..] == [];
        assert s.printed[|printed|..] == [CallLog(call.name, call.args)];
      } else {
        var contents' := contents + [CallTurn(call), ResultTurn(call.name, result.value)];
        DispatchedPair(call, result.value);
        if replies == [] || FirstPart(replies[0]).Err? {
          assert s.contents[|contents|..] == [CallTurn(call), ResultTurn(call.name, result.value)];
          assert s.printed[|printed|..] == [CallLog(call.name, call.args)];
        } else {
          DispatchCalls(tools, contents', printed', FirstPart(replies[0]).value, replies[1..]);
          DispatchTail(contents, contents', s.contents, printed, printed', s.printed, call, result.value);
        }
      }
    } else {
      assert s.contents[|contents|..] == [] && s.printed[|printed|..] == [];
    }
  }

  /** An answered loop made one call per response it consumed, appended two
      turns per call, and printed its answer last. */
  lemma {:induction false} DispatchAnswered(tools: map<string, Tool>, contents: seq<Content>, printed: seq<Output>,
                                            part: Part, replies: seq<ModelResponse>)
    requires Dispatch(tools, contents, printed, part, replies).status.Answered?
    ensures
      var s := Dispatch(tools, contents, printed, part, replies);
      var calls := Dispatched(s.contents[|contents|..]);
      && |s.printed| > |printed| && s.printed[|s.printed| - 1].Answer?
      && |calls| == |replies| - |s.rest|
      && |s.contents| == |contents| + 2 * |calls|
    decreases |replies|
  {
    var s := Dispatch(tools, contents, printed, part, replies);
    if part.TextPart? {
      assert s.contents[|contents|..] == [];
    } else {
      var call := part.call;
      var printed' := printed + [CallLog(call.name, call.args)];
      var result := tools[call.name](call.args);
      var contents' := contents + [CallTurn(call), ResultTurn(call.name, result.value)];
      DispatchedPair(call, result.value);
      DispatchAnswered(tools, contents', printed', FirstPart(replies[0]).value, replies[1..]);
      DispatchTail(contents, contents', s.contents, printed, printed', s.printed, call, result.value);
    }
  }

  lemma LoggedAnswer(t: string)
    ensures Logged([Answer(t)]) == []
  {
  }

  lemma LoggedOne(call: FunctionCall)
    ensures Logged([CallLog(call.name, call.args)]) == [call]
  {
    assert [CallLog(call.name, call.args)][1..] == [];
  }

  lemma DispatchedPair(call: FunctionCall, v: Json)
    ensures Dispatched([CallTurn(call), ResultTurn(call.name, v)]) == [call]
  {
    var c := [CallTurn(call), ResultTurn(call.name, v)];
    assert c[1..] == [ResultTurn(call.name, v)];
    assert c[1..][1..] == [];
    assert Dispatched(c[1..]) == [] + Dispatched(c[1..][1..]);
  }

  /** One more call in front of the calls of the rest of the loop. */
  lemma DispatchTail(c0: seq<Content>, c1: seq<Content>, c2: seq<Content>,
                     p0: seq<Output>, p1: seq<Output>, p2: seq<Output>, call: FunctionCall, v: Json)
    requires c1 == c0 + [CallTurn(call), ResultTurn(call.name, v)] && c1 <= c2
    requires p1 == p0 + [CallLog(call.name, call.args)] && p1 <= p2
    ensures Dispatched(c2[|c0|..]) == [call] + Dispatched(c2[|c1|..])
    ensures Logged(p2[|p0|..]) == [call] + Logged(p2[|p1|..])
  {
    var d := c2[|c0|..];
    assert d[0] == CallTurn(call) && d[1] == ResultTurn(call.name, v);
    assert d[1..][0] == ResultTurn(call.name, v);
    assert d[1..][1..] == c2[|c1|..];
    var l := p2[|p0|..];
    assert l[0] == CallLog(call.name, call.args);
    assert l[1..] == p2[|p1|..];
  }

  /** One line: the user turn is appended, the first response is asked for,
      and the inner loop runs. */
  function Line(tools: map<string, Tool>, line: string, replies: seq<ModelResponse>,
                contents: seq<Content>, printed: seq<Output>): (s: Step)
    ensures contents + [UserText(line)] <= s.contents && printed <= s.printed
  {
    var c := contents + [UserText(line)];
    if replies == [] then Step(c, printed, [], NoReply)
    else
      var first := FirstPart(replies[0]);
      if first.Err? then Step(c, printed, replies[1..], Failed(first.error))
      else Dispatch(tools, c, printed, first.value, replies[1..])
  }

  /** A line consumes responses from the front of the script, at least one
      when it is answered. */
  lemma LineConsumes(tools: map<string, Tool>, line: string, replies: seq<ModelResponse>,
                     contents: seq<Content>, printed: seq<Output>)
    ensures
      var s := Line(tools, line, replies, contents, printed);
      && |s.rest| <= |replies| && s.rest == replies[|replies| - |s.rest|..]
      && (s.status.Answered? ==> |s.rest| < |replies|)
  {
    if replies != [] && FirstPart(replies[0]).Ok? {
      var c := contents + [UserText(line)];
      DispatchConsumes(tools, c, printed, FirstPart(replies[0]).value, replies[1..]);
      var r := Dispatch(tools, c, printed, FirstPart(replies[0]).value, replies[1..]).rest;
      assert replies[1..][|replies| - 1 - |r|..] == replies[|replies| - |r|..];
    }
  }

  /** The outer loop, from the next unread line on. */
  function Session(tools: map<string, Tool>, inputs: seq<string>, replies: seq<ModelResponse>,
                   contents: seq<Content>, printed: seq<Output>): (r: Ended)
    ensures contents <= r.contents && printed <= r.printed
    decreases |inputs|, 0
  {
    if inputs == [] then Ended(contents, printed, Crashed(EndOfInput))
    else if inputs[0] == QuitCommand then Ended(contents, printed, Quit)
    else Continue(tools, inputs[1..], Line(tools, inputs[0], replies, contents, printed))
  }

  /** After a line: read the next one if it was answered, stop otherwise. */
  function Continue(tools: map<string, Tool>, inputs: seq<string>, s: Step): (r: Ended)
    ensures s.contents <= r.contents && s.printed <= r.printed
    decreases |inputs|, 1
  {
    match s.status
    case Answered => Session(tools, inputs, s.rest, s.contents, s.printed)
    case Failed(e) => Ended(s.contents, s.printed, Crashed(e))
    case NoReply => Ended(s.contents, s.printed, OutOfReplies)
  }

  // ---------------------------------------------------------------------
  // The transcript's shape

  /** A turn is user text, a model turn carrying exactly one call, or a user
      turn carrying exactly one function response wrapped under "result". */
  predicate TurnShape(t: Content) {
    |t.parts| == 1 &&
    match t.role
    case ModelRole => t.parts[0].CallPart?
    case UserRole =>
      t.parts[0].TextPart? || (t.parts[0].ResponsePart? && t.parts[0].response.Keys == {"result"})
  }

  /** Every turn has its shape, every call is immediately answered by a
      response under the same name, and every response follows a call. */
  predicate WellFormed(c: seq<Content>) {
    && (forall i :: 0 <= i < |c| ==> TurnShape(c[i]))
    && (forall i :: 0 <= i < |c| - 1 && c[i].role == ModelRole && TurnShape(c[i]) ==>
          c[i + 1].parts[0].ResponsePart? && c[i + 1].parts[0].name == c[i].parts[0].call.name)
    && (forall i :: 0 < i < |c| && c[i].role == UserRole && TurnShape(c[i]) && c[i].parts[0].ResponsePart? ==>
          c[i - 1].role == ModelRole)
    && (|c| > 0 ==> c[0].role == UserRole && TurnShape(c[0]) && c[0].parts[0].TextPart?)
    && (|c| > 0 ==> c[|c| - 1].role == UserRole)
  }

  lemma WellFormedUserText(c: seq<Content>, line: string)
    requires WellFormed(c)
    ensures WellFormed(c + [UserText(line)])
  {
    var c' := c + [UserText(line)];
    assert forall i :: 0 <= i < |c| ==> c'[i] == c[i];
  }

  lemma WellFormedPair(c: seq<Content>, call: FunctionCall, v: Json)
    requires WellFormed(c) && |c| > 0
    ensures WellFormed(c + [CallTurn(call), ResultTurn(call.name, v)])
  {
    var c' := c + [CallTurn(call), ResultTurn(call.name, v)];
    assert forall i :: 0 <= i < |c| ==> c'[i] == c[i];
    assert c'[|c|] == CallTurn(call) && c'[|c| + 1] == ResultTurn(call.name, v);
  }

  /** The inner loop keeps the transcript well formed. */
  lemma {:induction false} DispatchWellFormed(tools: map<string, Tool>, contents: seq<Content>, printed: seq<Output>,
                                              part: Part, replies: seq<ModelResponse>)
    requires WellFormed(contents) && |contents| > 0
    ensures WellFormed(Dispatch(tools, contents, printed, part, replies).contents)
    decreases |replies|
  {
    if part.CallPart? && part.call.name in tools {
      var call := part.call;
      var printed' := printed + [CallLog(call.name, call.args)];
      var result := tools[call.name](call.args);
      if result.Ok? {
        var contents' := contents + [CallTurn(call), ResultTurn(call.name, result.value)];
        WellFormedPair(contents, call, result.value);
        if replies != [] && FirstPart(replies[0]).Ok? {
          DispatchWellFormed(tools, contents', printed', FirstPart(replies[0]).value, replies[1..]);
        }
      }
    }
  }

  /** One line keeps the transcript well formed. */
  lemma LineWellFormed(tools: map<string, Tool>, line: string, replies: seq<ModelResponse>,
                       contents: seq<Content>, printed: seq<Output>)
    requires WellFormed(contents)
    ensures WellFormed(Line(tools, line, replies, contents, printed).contents)
  {
    var c := contents + [UserText(line)];
    WellFormedUserText(contents, line);
    if replies != [] && FirstPart(replies[0]).Ok? {
      DispatchWellFormed(tools, c, printed, FirstPart(replies[0]).value, replies[1..]);
    }
  }

  /** Every session keeps the transcript well formed; in particular no model
      turn ever carries text (answers are printed, never appended). */
  lemma {:induction false} SessionWellFormed(tools: map<string, Tool>, inputs: seq<string>, replies: seq<ModelResponse>,
                                             contents: seq<Content>, printed: seq<Output>)
    requires WellFormed(contents)
    ensures WellFormed(Session(tools, inputs, replies, contents, printed).contents)
    decreases |inputs|
  {
    if inputs != [] && inputs[0] != QuitCommand {
      var s := Line(tools, inputs[0], replies, contents, printed);
      LineWellFormed(tools, inputs[0], replies, contents, printed);
      assert Session(tools, inputs, replies, contents, printed) == Continue(tools, inputs[1..], s);
      if s.status.Answered? {
        SessionWellFormed(tools, inputs[1..], s.rest, s.contents, s.printed);
      } else {
        assert Continue(tools, inputs[1..], s).contents == s.contents;
      }
    }
  }

  // ---------------------------------------------------------------------
  // Facts about one session

  /** "q" ends the session with the transcript and the output unchanged. */
  lemma QuitUnchanged(tools: map<string, Tool>, rest: seq<string>, replies: seq<ModelResponse>,
                      contents: seq<Content>, printed: seq<Output>)
    ensures Session(tools, [QuitCommand] + rest, replies, contents, printed) == Ended(contents, printed, Quit)
  {
    assert ([QuitCommand] + rest)[0] == QuitCommand;
  }

  /** Round `i` of an inner loop that began at `contents` and `printed` and
      ended in step `s`: the call in `p` is registered and its tool returns;
      the call is the i-th new output, and the call and its result are the
      new turns 2i and 2i + 1. */
  predicate Round(tools: map<string, Tool>, contents: seq<Content>, printed: seq<Output>, s: Step, i: nat, p: Part) {
    && p.CallPart? && p.call.name in tools && tools[p.call.name](p.call.args).Ok?
    && |contents| + 2 * i + 1 < |s.contents| && |printed| + i < |s.printed|
    && s.contents[|contents| + 2 * i] == CallTurn(p.call)
    && s.contents[|contents| + 2 * i + 1] == ResultTurn(p.call.name, tools[p.call.name](p.call.args).value)
    && s.printed[|printed| + i] == CallLog(p.call.name, p.call.args)
  }

  /** The part the inner loop acts on in round `i`: the given part first,
      then the first part of each response it reads. */
  function PartAt(part: Part, replies: seq<ModelResponse>, i: nat): Part
    requires i <= |replies|
  {
    if i == 0 then part
    else
      var r := FirstPart(replies[i - 1]);
      if r.Ok? then r.value else EmptyPart
  }

  /** An answered inner loop that consumed k responses ran k rounds, one per
      part it acted on before the text: each logged its call and appended the
      call and the tool's result, and the text of part k was printed once,
      last. */
  lemma {:induction false} DispatchTrace(tools: map<string, Tool>, contents: seq<Content>, printed: seq<Output>,
                                         part: Part, replies: seq<ModelResponse>)
    requires Dispatch(tools, contents, printed, part, replies).status.Answered?
    ensures
      var s := Dispatch(tools, contents, printed, part, replies);
      var k := |replies| - |s.rest|;
      && 0 <= k <= |replies|
      && |s.contents| == |contents| + 2 * k && |s.printed| == |printed| + k + 1
      && (forall i :: 0 <= i < k ==> FirstPart(replies[i]).Ok?)
      && (forall i :: 0 <= i < k ==> Round(tools, contents, printed, s, i, PartAt(part, replies, i)))
      && PartAt(part, replies, k).TextPart?
      && s.printed[|printed| + k] == Answer(PartAt(part, replies, k).text)
    decreases |replies|
  {
    var s := Dispatch(tools, contents, printed, part, replies);
    if part.TextPart? {
      assert s == Step(contents, printed + [Answer(part.text)], replies, Answered);
    } else {
      var call := part.call;
      var v := tools[call.name](call.args).value;
      var c' := contents + [CallTurn(call), ResultTurn(call.name, v)];
      var p' := printed + [CallLog(call.name, call.args)];
      var next := FirstPart(replies[0]).value;
      assert s == Dispatch(tools, c', p', next, replies[1..]);
      DispatchTrace(tools, c', p', next, replies[1..]);
      var k := |replies| - |s.rest|;
      assert 1 <= k;
      forall i | 1 <= i <= k
        ensures PartAt(part, replies, i) == PartAt(next, replies[1..], i - 1)
      {
        if i > 1 {
          assert replies[1..][i - 2] == replies[i - 1];
        }
      }
      forall i | 0 <= i < k
        ensures FirstPart(replies[i]).Ok?
      {
        if i > 0 {
          assert replies[1..][i - 1] == replies[i];
        }
      }
      RoundFirst(tools, contents, printed, s, call, v);
      forall i | 1 <= i < k
        ensures Round(tools, contents, printed, s, i, PartAt(part, replies, i))
      {
        RoundShift(tools, contents, printed, c', p', s, i, PartAt(next, replies[1..], i - 1));
      }
    }
  }

  /** The first round of a loop whose step begins with the call and its result. */
  lemma RoundFirst(tools: map<string, Tool>, contents: seq<Content>, printed: seq<Output>, s: Step,
                   call: FunctionCall, v: Json)
    requires call.name in tools && tools[call.name](call.args) == Ok(v)
    requires contents + [CallTurn(call), ResultTurn(call.name, v)] <= s.contents
    requires printed + [CallLog(call.name, call.args)] <= s.printed
    ensures Round(tools, contents, printed, s, 0, CallPart(call))
  {
    var c' := contents + [CallTurn(call), ResultTurn(call.name, v)];
    var p' := printed + [CallLog(call.name, call.args)];
    assert s.contents[|contents|] == c'[|contents|];
    assert s.contents[|contents| + 1] == c'[|contents| + 1];
    assert s.printed[|printed|] == p'[|printed|];
  }

  /** A round counted from after the first call is the next round counted
      from before it. */
  lemma RoundShift(tools: map<string, Tool>, contents: seq<Content>, printed: seq<Output>,
                   c': seq<Content>, p': seq<Output>, s: Step, i: nat, p: Part)
    requires 1 <= i && |c'| == |contents| + 2 && |p'| == |printed| + 1
    requires Round(tools, c', p', s, i - 1, p)
    ensures Round(tools, contents, printed, s, i, p)
  {
  }

  /** An answered line ran k rounds on the first parts of its first k
      responses, in order, and printed the text of response k once, last. */
  lemma LineTrace(tools: map<string, Tool>, line: string, replies: seq<ModelResponse>,
                  contents: seq<Content>, printed: seq<Output>)
    requires Line(tools, line, replies, contents, printed).status.Answered?
    ensures
      var s := Line(tools, line, replies, contents, printed);
      var k := |replies| - 1 - |s.rest|;
      && 0 <= k < |replies|
      && |s.contents| == |contents| + 1 + 2 * k && |s.printed| == |printed| + k + 1
      && (forall i :: 0 <= i <= k ==> FirstPart(replies[i]).Ok?)
      && (forall i :: 0 <= i < k ==> Round(tools, contents + [UserText(line)], printed, s, i, FirstPart(replies[i]).value))
      && FirstPart(replies[k]).value.TextPart?
      && s.printed[|s.printed| - 1] == Answer(FirstPart(replies[k]).value.text)
  {
    var s := Line(tools, line, replies, contents, printed);
    var c := contents + [UserText(line)];
    var part := FirstPart(replies[0]).value;
    assert s == Dispatch(tools, c, printed, part, replies[1..]);
    DispatchTrace(tools, c, printed, part, replies[1..]);
    var k := |replies| - 1 - |s.rest|;
    forall i | 0 <= i <= k
      ensures FirstPart(replies[i]).Ok? && PartAt(part, replies[1..], i) == FirstPart(replies[i]).value
    {
      if i > 0 {
        assert replies[1..][i - 1] == replies[i];
      }
    }
  }

  /** Any other answered line appends its user turn and exactly two turns
      per tool call, 1 + 2k in all; the calls logged are exactly the calls in
      the new turns, in order; one response is consumed per call after the
      first; every logged name is registered; and the output grows by the k
      call logs and one answer, the text of response k. */
  lemma LineGrowth(tools: map<string, Tool>, line: string, replies: seq<ModelResponse>,
                   contents: seq<Content>, printed: seq<Output>)
    requires Line(tools, line, replies, contents, printed).status.Answered?
    ensures
      var s := Line(tools, line, replies, contents, printed);
      var k := |Dispatched(s.contents[|contents| + 1..])|;
      && s.contents[..|contents| + 1] == contents + [UserText(line)]
      && |s.contents| == |contents| + 1 + 2 * k
      && k == |replies| - 1 - |s.rest|
      && Dispatched(s.contents[|contents| + 1..]) == Logged(s.printed[|printed|..])
      && (forall i :: |printed| <= i < |s.printed| && s.printed[i].CallLog? ==> s.printed[i].name in tools)
      && |s.printed| == |printed| + k + 1
      && FirstPart(replies[k]).Ok? && FirstPart(replies[k]).value.TextPart?
      && s.printed[|s.printed| - 1] == Answer(FirstPart(replies[k]).value.text)
  {
    var s := Line(tools, line, replies, contents, printed);
    var c := contents + [UserText(line)];
    assert s.contents[..|contents| + 1] == c;
    var part := FirstPart(replies[0]).value;
    assert s == Dispatch(tools, c, printed, part, replies[1..]);
    DispatchNames(tools, c, printed, part, replies[1..]);
    DispatchCalls(tools, c, printed, part, replies[1..]);
    DispatchAnswered(tools, c, printed, part, replies[1..]);
    LineTrace(tools, line, replies, contents, printed);
  }

  /** A call of an unregistered function is a KeyError raised before
      anything is logged or appended. */
  lemma UnknownTool(tools: map<string, Tool>, line: string, call: FunctionCall, rest: seq<ModelResponse>,
                    contents: seq<Content>, printed: seq<Output>)
    requires call.name !in tools
    ensures
      var s := Line(tools, line, [ModelResponse([Candidate([CallPart(call)])])] + rest, contents, printed);
      s == Step(contents + [UserText(line)], printed, rest, Failed(KeyMissing(call.name)))
  {
    var replies := [ModelResponse([Candidate([CallPart(call)])])] + rest;
    assert FirstPart(replies[0]) == Ok(CallPart(call));
    assert replies[1..] == rest;
  }

  /** A failing tool is logged before it raises: the log holds its call,
      and the transcript does not. */
  lemma FailingToolLogged(tools: map<string, Tool>, contents: seq<Content>, printed: seq<Output>,
                          call: FunctionCall, replies: seq<ModelResponse>)
    requires call.name in tools && tools[call.name](call.args).Err?
    ensures
      var s := Dispatch(tools, contents, printed, CallPart(call), replies);
      && s.status == Failed(tools[call.name](call.args).error)
      && s.printed == printed + [CallLog(call.name, call.args)]
      && s.contents == contents
  {
  }

  /** Only the first part of the first candidate matters: scripts whose
      responses agree on it lead to the same step. */
  lemma {:induction false} OnlyFirstPart(tools: map<string, Tool>, contents: seq<Content>, printed: seq<Output>,
                                         part: Part, r1: seq<ModelResponse>, r2: seq<ModelResponse>)
    requires |r1| == |r2| && forall i :: 0 <= i < |r1| ==> FirstPart(r1[i]) == FirstPart(r2[i])
    ensures
      var s1, s2 := Dispatch(tools, contents, printed, part, r1), Dispatch(tools, contents, printed, part, r2);
      s1.contents == s2.contents && s1.printed == s2.printed && s1.status == s2.status && |s1.rest| == |s2.rest|
    decreases |r1|
  {
    if part.CallPart? && part.call.name in tools {
      var call := part.call;
      var printed' := printed + [CallLog(call.name, call.args)];
      var result := tools[call.name](call.args);
      if result.Ok? && r1 != [] {
        assert FirstPart(r1[0]) == FirstPart(r2[0]);
        if FirstPart(r1[0]).Ok? {
          var contents' := contents + [CallTurn(call), ResultTurn(call.name, result.value)];
          assert forall i :: 0 <= i < |r1| - 1 ==> r1[1..][i] == r1[i + 1] && r2[1..][i] == r2[i + 1];
          OnlyFirstPart(tools, contents', printed', FirstPart(r1[0]).value, r1[1..], r2[1..]);
        }
      }
    }
  }

  /** A question answered after one `list_bills` call: one invocation, one
      answer, and the transcript holds the question, the call and its result. */
  lemma CallThenText(tools: map<string, Tool>, question: string, args: map<string, Json>, result: Json, answer: string)
    requires question != QuitCommand
    requires "list_bills" in tools && tools["list_bills"](args) == Ok(result)
    ensures
      var call := FunctionCall("list_bills", args);
      var replies := [ModelResponse([Candidate([CallPart(call)])]), ModelResponse([Candidate([TextPart(answer)])])];
      Session(tools, [question, QuitCommand], replies, [], []) ==
        Ended([UserText(question), CallTurn(call), ResultTurn("list_bills", result)],
              [CallLog("list_bills", args), Answer(answer)], Quit)
  {
    var call := FunctionCall("list_bills", args);
    var replies := [ModelResponse([Candidate([CallPart(call)])]), ModelResponse([Candidate([TextPart(answer)])])];
    var c1 := [UserText(question)];
    var c2 := c1 + [CallTurn(call), ResultTurn("list_bills", result)];
    var p1 := [CallLog("list_bills", args)];
    assert FirstPart(replies[0]) == Ok(CallPart(call));
    assert replies[1..] == [replies[1]] && replies[1..][1..] == [];
    assert FirstPart(replies[1..][0]) == Ok(TextPart(answer));
    var last := Dispatch(tools, c2, p1, TextPart(answer), []);
    assert last == Step(c2, p1 + [Answer(answer)], [], Answered);
    assert [] + p1 == p1;
    assert call.name in tools && tools[call.name](call.args) == Ok(result);
    var s := Dispatch(tools, c1, [], CallPart(call), replies[1..]);
    assert s == last;
    assert [] + [UserText(question)] == c1;
    assert Line(tools, question, replies, [], []) == s;
    var inputs := [question, QuitCommand];
    assert inputs[1..] == [QuitCommand];
    assert Session(tools, inputs, replies, [], []) == Continue(tools, [QuitCommand], s);
    assert Continue(tools, [QuitCommand], s) == Session(tools, [QuitCommand], [], s.contents, s.printed);
  }

  // ---------------------------------------------------------------------
  // The agent

  class CongressAgent {
    const functions: map<string, Tool>
    const declarations: seq<Schema>
    const instruction: string
    const model: string

    /** `__init__`: the tool declarations and the name-to-function dict are
        built from `FUNCTIONS`. */
    constructor (api: Api, instruction: string := Instruction, model: string := ModelName)
      ensures functions == Registry(Functions(api))
      ensures declarations == Declarations(Functions(api))
      ensures this.instruction == instruction && this.model == model
    {
      var fs := Functions(api);
      var ds: seq<Schema> := [];
      var m: map<string, Tool> := map[];
      var i := 0;
      while i < |fs|
        invariant 0 <= i <= |fs|
        invariant ds == Declarations(fs[..i]) && m == Registry(fs[..i])
      {
        assert fs[..i + 1][..i] == fs[..i];
        ds := ds + [fs[i].0];
        m := m[fs[i].0.name := fs[i].1];
        i := i + 1;
      }
      assert fs[..i] == fs;
      this.functions := m;
      this.declarations := ds;
      this.instruction := instruction;
      this.model := model;
    }

    /** `run`: reads lines until "q", answering each through the inner loop. */
    method Run(inputs: seq<string>, replies: seq<ModelResponse>)
      returns (contents: seq<Content>, printed: seq<Output>, outcome: Outcome)
      ensures Ended(contents, printed, outcome) == Session(functions, inputs, replies, [], [])
    {
      ghost var ended := Session(functions, inputs, replies, [], []);
      contents, printed := [], [];
      var i, j := 0, 0;
      while true
        invariant 0 <= i <= |inputs| && 0 <= j <= |replies|
        invariant ended == Session(functions, inputs[i..], replies[j..], contents, printed)
        decreases |inputs| - i
      {
        if i == |inputs| {
          return contents, printed, Crashed(EndOfInput);
        }
        var s := inputs[i];
        if s == QuitCommand {
          return contents, printed, Quit;
        }
        ghost var line := Line(functions, s, replies[j..], contents, printed);
        assert inputs[i..][1..] == inputs[i + 1..];
        assert ended == Continue(functions, inputs[i + 1..], line);
        i := i + 1;
        var status;
        contents, printed, j, status := HandleLine(s, contents, printed, replies, j);
        match status {
          case Answered =>
          case Failed(e) => return contents, printed, Crashed(e);
          case NoReply => return contents, printed, OutOfReplies;
        }
      }
    }

    /** The body of `run` for one line: the user turn is appended, the
        first response is read from position `j` of the script, and the
        inner loop runs. */
    method HandleLine(line: string, contents: seq<Content>, printed: seq<Output>, replies: seq<ModelResponse>, j: nat)
      returns (contents': seq<Content>, printed': seq<Output>, j': nat, status: Status)
      requires j <= |replies|
      ensures j <= j' <= |replies|
      ensures Step(contents', printed', replies[j'..], status) == Line(functions, line, replies[j..], contents, printed)
    {
      contents', printed', j' := contents + [UserText(line)], printed, j;
      if j' == |replies| {
        return contents', printed', j', NoReply;
      }
      var first := FirstPart(replies[j']);
      assert replies[j'..][1..] == replies[j' + 1..];
      j' := j' + 1;
      if first.Err? {
        return contents', printed', j', Failed(first.error);
      }
      contents', printed', j', status := Respond(first.value, contents', printed', replies, j');
    }

    /** The inner loop of `run`: while the response is not text, the call
        it names is looked up, logged, invoked and appended with its result,
        and the next response is read from position `j` of the script. */
    method Respond(part: Part, contents: seq<Content>, printed: seq<Output>, replies: seq<ModelResponse>, j: nat)
      returns (contents': seq<Content>, printed': seq<Output>, j': nat, status: Status)
      requires j <= |replies|
      ensures j <= j' <= |replies|
      ensures Step(contents', printed', replies[j'..], status) == Dispatch(functions, contents, printed, part, replies[j..])
    {
      contents', printed', j' := contents, printed, j;
      var resp := part;
      ghost var loop := Dispatch(functions, contents, printed, part, replies[j..]);
      while !resp.TextPart?
        invariant j <= j' <= |replies|
        invariant loop == Dispatch(functions, contents', printed', resp, replies[j'..])
        decreases |replies| - j'
      {
        if !resp.CallPart? {
          return contents', printed', j', Failed(AttributeMissing);
        }
        var call := resp.call;
        if call.name !in functions {
          return contents', printed', j', Failed(KeyMissing(call.name));
        }
        var tool := functions[call.name];
        ghost var c0, p0 := contents', printed';
        printed' := printed' + [CallLog(call.name, call.args)];
        var result := tool(call.args);
        if result.Err? {
          return contents', printed', j', Failed(result.error);
        }
        contents' := contents' + [CallTurn(call), ResultTurn(call.name, result.value)];
        if j' == |replies| {
          return contents', printed', j', NoReply;
        }
        var next := FirstPart(replies[j']);
        DispatchStep(functions, c0, p0, call, result.value, replies[j'..]);
        assert replies[j'..][1..] == replies[j' + 1..];
        j' := j' + 1;
        if next.Err? {
          return contents', printed', j', Failed(next.error);
        }
        resp := next.value;
      }
      printed' := printed' + [Answer(resp.text)];
      return contents', printed', j', Answered;
    }
  }
}
