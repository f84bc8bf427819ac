/**
 * The agent's step machine (main.go): the `Brain` holds the conversation
 * history, which only ever grows by appending, and the tool registry. At
 * each step it inspects the latest message and either runs the requested
 * tool calls, asks the model backend, or (in the outer loop only) asks the
 * operator for the next prompt.
 *
 * The model backend, the operator's prompt form and the JSON serialiser are
 * oracles passed as parameters; each tool's `Run` is part of the registry.
 */
module Agent {
  import opened Wrappers
  import opened Errors
  import Api
  import Registry

  // ---------------------------------------------------------------------
  // printMessage
  // ---------------------------------------------------------------------

  /** `json.MarshalIndent` of a tool-call function: the text, or None when marshalling fails. */
  type Marshal = Api.ToolCallFunction -> Option<string>

  function Fence(body: string): string {
    "```json\n" + body + "\n```"
  }

  /** The fenced blocks of the tool calls whose marshalling succeeds, in order. */
  function Blocks(calls: seq<Api.ToolCall>, marshal: Marshal): seq<string>
    decreases |calls|
  {
    if calls == [] then []
    else
      var earlier := Blocks(calls[..|calls| - 1], marshal);
      match marshal(calls[|calls| - 1].fn)
      case Some(b) => earlier + [Fence(b)]
      case None => earlier
  }

  /** `strings.Join`. */
  function Join(parts: seq<string>, sep: string): string
    decreases |parts|
  {
    if |parts| == 0 then ""
    else if |parts| == 1 then parts[0]
    else Join(parts[..|parts| - 1], sep) + sep + parts[|parts| - 1]
  }

  /** When every call marshals, there is one fenced block per call, in call order. */
  lemma {:induction false} BlocksOnePerCall(calls: seq<Api.ToolCall>, marshal: Marshal)
    requires forall i :: 0 <= i < |calls| ==> marshal(calls[i].fn).Some?
    ensures |Blocks(calls, marshal)| == |calls|
    ensures forall i :: 0 <= i < |calls| ==> Blocks(calls, marshal)[i] == Fence(marshal(calls[i].fn).value)
    decreases |calls|
  {
    if calls != [] {
      var init := calls[..|calls| - 1];
      assert forall i :: 0 <= i < |init| ==> init[i] == calls[i];
      BlocksOnePerCall(init, marshal);
    }
  }

  /**
   * `printMessage`: the message's content when no tool-call block is
   * produced; otherwise the fenced blocks joined by blank lines, and the
   * content is dropped.
   */
  method PrintMessage(m: Api.Message, marshal: Marshal) returns (text: string)
    ensures |m.toolCalls| == 0 ==> text == m.content
    ensures Blocks(m.toolCalls, marshal) == [] ==> text == m.content
    ensures Blocks(m.toolCalls, marshal) != [] ==> text == Join(Blocks(m.toolCalls, marshal), "\n\n")
  {
    text := m.content;
    var calls: seq<string> := [];
    var i := 0;
    while i < |m.toolCalls|
      invariant 0 <= i <= |m.toolCalls|
      invariant calls == Blocks(m.toolCalls[..i], marshal)
    {
      assert m.toolCalls[..i + 1][..i] == m.toolCalls[..i];
      match marshal(m.toolCalls[i].fn) {
        case Some(b) => calls := calls + [Fence(b)];
        case None =>
      }
      i := i + 1;
    }
    assert m.toolCalls[..i] == m.toolCalls;
    if |calls| != 0 {
      text := Join(calls, "\n\n");
    }
  }

  // ---------------------------------------------------------------------
  // The step functions
  // ---------------------------------------------------------------------

  /** The model backend (`api.Client.Chat`): the responses it hands to the callback, in order, or an error. */
  type Backend = Api.ChatRequest -> Result<seq<Api.ChatResponse>, Error>

  /** The operator's prompt form, shown the history: the submitted text, or an error. */
  type Operator = seq<Api.Message> -> Result<string, Error>

  function Last(h: seq<Api.Message>): Api.Message
    requires |h| > 0
  {
    h[|h| - 1]
  }

  /** `strings.ToLower`, for ASCII letters. */
  function Lower(s: string): string {
    seq(|s|, i requires 0 <= i < |s| => if 'A' <= s[i] <= 'Z' then (s[i] as int + 32) as char else s[i])
  }

  /** The outer loop asks the operator exactly when the latest message is an assistant turn without tool calls. */
  predicate AwaitingUser(m: Api.Message) {
    |m.toolCalls| == 0 && Lower(m.role) == "assistant"
  }

  /** `request`: the whole history, one descriptor per registered tool, reasoning on, streaming off. */
  ghost predicate IsRequestFor(req: Api.ChatRequest, model: string, h: seq<Api.Message>, tools: Registry.Tools) {
    && req.model == model
    && req.messages == h
    && req.think
    && !req.stream
    && |req.tools| == |tools|
    && exists names :: Registry.Enumerates(tools, names, req.tools)
  }

  /** `callTools` before the append: results of all calls in order, or the first failure. */
  function RunCalls(tools: Registry.Tools, calls: seq<Api.ToolCall>): Result<seq<Api.Message>, Error>
    decreases |calls|
  {
    if calls == [] then Success([])
    else
      match RunCalls(tools, calls[..|calls| - 1])
      case Failure(e) => Failure(e)
      case Success(done) =>
        match Registry.Invoke(tools, calls[|calls| - 1].fn)
        case Failure(e) => Failure(e)
        case Success(m) => Success(done + [m])
  }

  /** The batch succeeds exactly when every call does; then the i-th result is the i-th call's. */
  lemma {:induction false} RunCallsSucceeds(tools: Registry.Tools, calls: seq<Api.ToolCall>)
    ensures RunCalls(tools, calls).Success? <==>
      forall i :: 0 <= i < |calls| ==> Registry.Invoke(tools, calls[i].fn).Success?
    ensures RunCalls(tools, calls).Success? ==>
      && |RunCalls(tools, calls).value| == |calls|
      && forall i :: 0 <= i < |calls| ==> RunCalls(tools, calls).value[i] == Registry.Invoke(tools, calls[i].fn).value
    decreases |calls|
  {
    if calls != [] {
      var init := calls[..|calls| - 1];
      assert forall i :: 0 <= i < |init| ==> init[i] == calls[i];
      RunCallsSucceeds(tools, init);
    }
  }

  /**
   * The first failing call decides the batch: its error is returned and the
   * calls after it do not matter (they are never run).
   */
  lemma {:induction false} RunCallsFirstFailure(tools: Registry.Tools, calls: seq<Api.ToolCall>, i: nat)
    requires i < |calls|
    requires forall j :: 0 <= j < i ==> Registry.Invoke(tools, calls[j].fn).Success?
    requires Registry.Invoke(tools, calls[i].fn).Failure?
    ensures RunCalls(tools, calls) == Failure(Registry.Invoke(tools, calls[i].fn).error)
    decreases |calls|
  {
    var init := calls[..|calls| - 1];
    assert forall j :: 0 <= j < |init| ==> init[j] == calls[j];
    if i < |calls| - 1 {
      RunCallsFirstFailure(tools, init, i);
    } else {
      RunCallsSucceeds(tools, init);
    }
  }

  /** A call to an unregistered tool after successful calls fails the batch with an unknown-tool error. */
  lemma UnknownToolFails(tools: Registry.Tools, calls: seq<Api.ToolCall>, i: nat)
    requires i < |calls| && calls[i].fn.name !in tools
    requires forall j :: 0 <= j < i ==> Registry.Invoke(tools, calls[j].fn).Success?
    ensures RunCalls(tools, calls) == Failure(NoSuchTool(calls[i].fn.name))
  {
    RunCallsFirstFailure(tools, calls, i);
  }

  /** The message `chat` appends: the last response the callback received (the zero message if none). */
  function Reply(responses: seq<Api.ChatResponse>): Api.Message {
    if |responses| == 0 then Api.EmptyMessage else responses[|responses| - 1].message
  }

  /** `chat` before the append. */
  function ChatStep(answer: Result<seq<Api.ChatResponse>, Error>): Result<seq<Api.Message>, Error> {
    match answer
    case Failure(e) => Failure(e)
    case Success(responses) => Success([Reply(responses)])
  }

  /** `prompt` before the append: an empty submission is rejected. */
  function PromptStep(answer: Result<string, Error>): Result<seq<Api.Message>, Error> {
    match answer
    case Failure(e) => Failure(e)
    case Success(content) =>
      if |content| == 0 then Failure(EmptyPrompt) else Success([Api.Message("user", content, [])])
  }

  /** `loop`: tool calls on the latest message are run; otherwise the model is asked. */
  function StepResult(h: seq<Api.Message>, tools: Registry.Tools, answer: Result<seq<Api.ChatResponse>, Error>)
    : Result<seq<Api.Message>, Error>
    requires |h| > 0
  {
    if |Last(h).toolCalls| != 0 then RunCalls(tools, Last(h).toolCalls) else ChatStep(answer)
  }

  /** One iteration of `start`: prompt the operator when awaiting user input, otherwise `loop`. */
  function TickResult(h: seq<Api.Message>, tools: Registry.Tools,
                      answer: Result<seq<Api.ChatResponse>, Error>, input: Result<string, Error>)
    : Result<seq<Api.Message>, Error>
    requires |h| > 0
  {
    if AwaitingUser(Last(h)) then PromptStep(input) else StepResult(h, tools, answer)
  }

  /**
   * A successful `loop` step appends one result per tool call of the latest
   * message, or exactly the model's one reply; it never appends an operator
   * prompt (it has no access to the operator).
   */
  lemma StepAppends(h: seq<Api.Message>, tools: Registry.Tools, answer: Result<seq<Api.ChatResponse>, Error>)
    requires |h| > 0 && StepResult(h, tools, answer).Success?
    ensures var added := StepResult(h, tools, answer).value;
      && (|Last(h).toolCalls| != 0 ==>
            && |added| == |Last(h).toolCalls|
            && forall i :: 0 <= i < |added| ==> Registry.Invoke(tools, Last(h).toolCalls[i].fn) == Success(added[i]))
      && (|Last(h).toolCalls| == 0 ==> answer.Success? && added == [Reply(answer.value)])
  {
    if |Last(h).toolCalls| != 0 {
      RunCallsSucceeds(tools, Last(h).toolCalls);
    }
  }

  /** Every successful iteration of `start` appends at least one message. */
  lemma TickGrows(h: seq<Api.Message>, tools: Registry.Tools,
                  answer: Result<seq<Api.ChatResponse>, Error>, input: Result<string, Error>)
    requires |h| > 0 && TickResult(h, tools, answer, input).Success?
    ensures |TickResult(h, tools, answer, input).value| > 0
  {
    if !AwaitingUser(Last(h)) {
      StepAppends(h, tools, answer);
    }
  }

  /**
   * The operator's answer matters only when awaiting user input, and the
   * model's only otherwise; a successful prompt appends one non-empty "user"
   * message.
   */
  lemma TickPrompts(h: seq<Api.Message>, tools: Registry.Tools,
                    answer: Result<seq<Api.ChatResponse>, Error>, input: Result<string, Error>)
    requires |h| > 0
    ensures AwaitingUser(Last(h)) ==>
      forall answer' :: TickResult(h, tools, answer', input) == TickResult(h, tools, answer, input)
    ensures !AwaitingUser(Last(h)) ==>
      forall input' :: TickResult(h, tools, answer, input') == TickResult(h, tools, answer, input)
    ensures AwaitingUser(Last(h)) && TickResult(h, tools, answer, input).Success? ==>
      exists c :: c != "" && TickResult(h, tools, answer, input).value == [Api.Message("user", c, [])]
  {
    if AwaitingUser(Last(h)) && TickResult(h, tools, answer, input).Success? {
      var c := input.value;
      assert c != "" && TickResult(h, tools, answer, input).value == [Api.Message("user", c, [])];
    }
  }

  /** A history ending in a single call to an unregistered tool fails the step and appends nothing. */
  lemma UnknownToolStep(h: seq<Api.Message>, tools: Registry.Tools, answer: Result<seq<Api.ChatResponse>, Error>)
    requires |h| > 0 && |Last(h).toolCalls| == 1 && Last(h).toolCalls[0].fn.name !in tools
    ensures StepResult(h, tools, answer) == Failure(NoSuchTool(Last(h).toolCalls[0].fn.name))
  {
    UnknownToolFails(tools, Last(h).toolCalls, 0);
  }

  /** A history [system, user] and a plain assistant reply give three messages, the third the reply. */
  lemma FirstReply(system: string, prompt: string, tools: Registry.Tools, reply: string)
    ensures var h := [Api.Message("system", system, []), Api.Message("user", prompt, [])];
      var added := StepResult(h, tools, Success([Api.ChatResponse(Api.Message("assistant", reply, []))]));
      && added.Success?
      && |h + added.value| == 3
      && (h + added.value)[2].role == "assistant"
  {
  }

  /** How an operation's outcome `r` and the new history `h` follow from its step result. */
  ghost predicate Applied(h0: seq<Api.Message>, h: seq<Api.Message>, r: Outcome<Error>,
                          step: Result<seq<Api.Message>, Error>) {
    match step
    case Success(added) => r == Pass && h == h0 + added
    case Failure(e) => r == Fail(e) && h == h0
  }

  /** How `start` ends. `Interrupted` stands for the external termination of an unbounded session. */
  datatype RunOutcome = Finished | Interrupted | Failed(error: Error)

  // ---------------------------------------------------------------------
  // Traces of `start`
  // ---------------------------------------------------------------------

  /** The messages appended by a sequence of steps, in order. */
  function Flatten(steps: seq<seq<Api.Message>>): seq<Api.Message>
    decreases |steps|
  {
    if steps == [] then [] else Flatten(steps[..|steps| - 1]) + steps[|steps| - 1]
  }

  /** `req` is the request a step on `h` sends, whenever that step asks the model. */
  ghost predicate Sent(model: string, tools: Registry.Tools, h: seq<Api.Message>, req: Api.ChatRequest)
    requires |h| > 0
  {
    !AwaitingUser(Last(h)) && |Last(h).toolCalls| == 0 ==> IsRequestFor(req, model, h, tools)
  }

  /**
   * One iteration of `start` on history `h`: the loop condition held, and the
   * step appended `added`, as `TickResult` says for the request `req` sent
   * and the operator's answer to `h`.
   */
  ghost predicate TickStep(model: string, limit: int, tools: Registry.Tools, backend: Backend, operator: Operator,
                           h: seq<Api.Message>, added: seq<Api.Message>, req: Api.ChatRequest) {
    && |h| > 0
    && (|h| <= limit || limit == 0)
    && Sent(model, tools, h, req)
    && TickResult(h, tools, backend(req), operator(h)) == Success(added)
  }

  /**
   * `steps` are the successive successful iterations of `start` from `h0`,
   * with the requests `reqs` sent: each step is a `TickStep` on the history
   * the earlier steps built.
   */
  ghost predicate Trace(model: string, limit: int, tools: Registry.Tools, backend: Backend, operator: Operator,
                        h0: seq<Api.Message>, steps: seq<seq<Api.Message>>, reqs: seq<Api.ChatRequest>)
    decreases |steps|
  {
    && |h0| > 0
    && |reqs| == |steps|
    && (steps != [] ==>
         var n := |steps| - 1;
         && Trace(model, limit, tools, backend, operator, h0, steps[..n], reqs[..n])
         && TickStep(model, limit, tools, backend, operator, h0 + Flatten(steps[..n]), steps[n], reqs[n]))
  }

  /**
   * A whole run of `start` from `h0` ending in history `h` with outcome `r`:
   * `h` is `h0` followed by the messages of the trace's steps, and nothing
   * else. `Finished` is the loop condition failing, `Interrupted` the end of
   * `fuel` iterations with limit 0, and `Failed` the error of one more
   * iteration, which appended nothing.
   */
  ghost predicate Ran(model: string, limit: int, tools: Registry.Tools, backend: Backend, operator: Operator,
                      fuel: nat, h0: seq<Api.Message>, h: seq<Api.Message>, r: RunOutcome,
                      steps: seq<seq<Api.Message>>, reqs: seq<Api.ChatRequest>) {
    && Trace(model, limit, tools, backend, operator, h0, steps, reqs)
    && h == h0 + Flatten(steps)
    && match r
       case Finished => limit != 0 && |h| > limit
       case Interrupted => limit == 0 && |steps| == fuel
       case Failed(e) =>
         && (|h| <= limit || (limit == 0 && |steps| < fuel))
         && exists req :: Sent(model, tools, h, req) && TickResult(h, tools, backend(req), operator(h)) == Failure(e)
  }

  /** A trace extends by one more successful iteration on the history it has built. */
  lemma TraceExtend(model: string, limit: int, tools: Registry.Tools, backend: Backend, operator: Operator,
                    h0: seq<Api.Message>, steps: seq<seq<Api.Message>>, reqs: seq<Api.ChatRequest>,
                    added: seq<Api.Message>, req: Api.ChatRequest)
    requires Trace(model, limit, tools, backend, operator, h0, steps, reqs)
    requires TickStep(model, limit, tools, backend, operator, h0 + Flatten(steps), added, req)
    ensures Trace(model, limit, tools, backend, operator, h0, steps + [added], reqs + [req])
    ensures h0 + Flatten(steps + [added]) == h0 + Flatten(steps) + added
  {
    assert (steps + [added])[..|steps|] == steps;
    assert (reqs + [req])[..|reqs|] == reqs;
  }

  /**
   * A successful iteration of `start` on the history a trace has built,
   * sending `req` and leaving history `h`, extends the trace by what it
   * appended.
   */
  lemma IterationExtends(model: string, limit: int, tools: Registry.Tools, backend: Backend, operator: Operator,
                         h0: seq<Api.Message>, steps: seq<seq<Api.Message>>, reqs: seq<Api.ChatRequest>,
                         h: seq<Api.Message>, req: Api.ChatRequest)
    requires Trace(model, limit, tools, backend, operator, h0, steps, reqs)
    requires var before := h0 + Flatten(steps);
      && (|before| <= limit || limit == 0)
      && Sent(model, tools, before, req)
      && Applied(before, h, Pass, TickResult(before, tools, backend(req), operator(before)))
    ensures |h| > |h0 + Flatten(steps)|
    ensures var added := h[|h0 + Flatten(steps)|..];
      && Trace(model, limit, tools, backend, operator, h0, steps + [added], reqs + [req])
      && h == h0 + Flatten(steps + [added])
  {
    var before := h0 + Flatten(steps);
    var added := h[|before|..];
    assert h == before + added;
    TickGrows(before, tools, backend(req), operator(before));
    assert TickStep(model, limit, tools, backend, operator, before, added, req);
    TraceExtend(model, limit, tools, backend, operator, h0, steps, reqs, added, req);
  }

  /** Every iteration of a trace appends at least one message. */
  lemma {:induction false} TraceGrows(model: string, limit: int, tools: Registry.Tools, backend: Backend,
                                      operator: Operator, h0: seq<Api.Message>, steps: seq<seq<Api.Message>>,
                                      reqs: seq<Api.ChatRequest>)
    requires Trace(model, limit, tools, backend, operator, h0, steps, reqs)
    ensures |Flatten(steps)| >= |steps|
    decreases |steps|
  {
    if steps != [] {
      var n := |steps| - 1;
      TraceGrows(model, limit, tools, backend, operator, h0, steps[..n], reqs[..n]);
      var h := h0 + Flatten(steps[..n]);
      TickGrows(h, tools, backend(reqs[n]), operator(h));
    }
  }

  /**
   * With a non-zero limit, `start` iterates at most `limit + 1 - len(h0)`
   * times: every iteration appends a message and runs only while the
   * history is no longer than `limit`.
   */
  lemma TraceBounded(model: string, limit: int, tools: Registry.Tools, backend: Backend, operator: Operator,
                     h0: seq<Api.Message>, steps: seq<seq<Api.Message>>, reqs: seq<Api.ChatRequest>)
    requires Trace(model, limit, tools, backend, operator, h0, steps, reqs)
    requires limit != 0 && steps != []
    ensures |h0| + |steps| <= limit + 1
  {
    var n := |steps| - 1;
    TraceGrows(model, limit, tools, backend, operator, h0, steps[..n], reqs[..n]);
  }

  // ---------------------------------------------------------------------
  // Brain
  // ---------------------------------------------------------------------

  class Brain {
    var model: string
    var limit: int
    var history: seq<Api.Message>
    var tools: Registry.Tools

    /** `NewBrain`, without the backend client (an oracle here). */
    constructor (model: string, limit: int, tools: Registry.Tools)
      ensures this.model == model && this.limit == limit && this.tools == tools && history == []
    {
      this.model := model;
      this.limit := limit;
      this.tools := tools;
      history := [];
    }

    /** `request`: the chat request for the current history and registry. */
    method Request() returns (req: Api.ChatRequest)
      ensures IsRequestFor(req, model, history, tools)
    {
      var ts, names := Registry.Describe(tools);
      req := Api.ChatRequest(model, history, ts, true, false);
    }

    /**
     * `prompt`: asks the operator and appends the answer as a "user" turn;
     * an empty answer is rejected.
     */
    method Prompt(operator: Operator) returns (r: Outcome<Error>)
      modifies this`history
      ensures Applied(old(history), history, r, PromptStep(operator(old(history))))
    {
      var answer := operator(history);
      if answer.Failure? {
        return Fail(answer.error);
      }
      if |answer.value| == 0 {
        return Fail(EmptyPrompt);
      }
      history := history + [Api.Message("user", answer.value, [])];
      r := Pass;
    }

    /**
     * `callTools`: resolves and runs each call in order into a buffer, and
     * appends the buffer only when every call succeeded.
     */
    method CallTools(calls: seq<Api.ToolCall>) returns (r: Outcome<Error>)
      modifies this`history
      ensures Applied(old(history), history, r, RunCalls(tools, calls))
    {
      var responses := new Api.Message[|calls|];
      var i := 0;
      while i < |calls|
        invariant 0 <= i <= |calls|
        invariant RunCalls(tools, calls[..i]) == Success(responses[..i])
        invariant history == old(history)
      {
        assert calls[..i + 1][..i] == calls[..i];
        var c := calls[i];
        RunCallsSucceeds(tools, calls[..i]);
        assert forall j :: 0 <= j < i ==> calls[..i][j] == calls[j];
        if c.fn.name !in tools {
          RunCallsFirstFailure(tools, calls, i);
          return Fail(NoSuchTool(c.fn.name));
        }
        var res := tools[c.fn.name].Run(c.fn);
        if res.Failure? {
          RunCallsFirstFailure(tools, calls, i);
          return Fail(res.error);
        }
        responses[i] := res.value;
        assert responses[..i + 1] == responses[..i] + [res.value];
        i := i + 1;
      }
      assert calls[..i] == calls;
      history := history + responses[..];
      r := Pass;
    }

    /**
     * `chat`: sends the request and appends the last response the callback
     * received; on error the history is unchanged. `req` is the request sent.
     */
    method Chat(backend: Backend) returns (r: Outcome<Error>, ghost req: Api.ChatRequest)
      modifies this`history
      ensures IsRequestFor(req, model, old(history), tools)
      ensures Applied(old(history), history, r, ChatStep(backend(req)))
    {
      var request := Request();
      req := request;
      var answer := backend(request);
      if answer.Failure? {
        return Fail(answer.error), req;
      }
      history := history + [Reply(answer.value)];
      r := Pass;
    }

    /** `loop`: one automated step on the latest message. */
    method Loop(backend: Backend) returns (r: Outcome<Error>, ghost req: Api.ChatRequest)
      requires |history| > 0
      modifies this`history
      ensures |Last(old(history)).toolCalls| == 0 ==> IsRequestFor(req, model, old(history), tools)
      ensures Applied(old(history), history, r, StepResult(old(history), tools, backend(req)))
    {
      var latest := history[|history| - 1];
      if |latest.toolCalls| != 0 {
        req := Api.ChatRequest(model, [], [], false, false);
        r := CallTools(latest.toolCalls);
      } else {
        r, req := Chat(backend);
      }
    }

    /** The body of `start`'s loop. */
    method Tick(backend: Backend, operator: Operator) returns (r: Outcome<Error>, ghost req: Api.ChatRequest)
      requires |history| > 0
      modifies this`history
      ensures !AwaitingUser(Last(old(history))) && |Last(old(history)).toolCalls| == 0 ==>
        IsRequestFor(req, model, old(history), tools)
      ensures Applied(old(history), history, r,
        TickResult(old(history), tools, backend(req), operator(old(history))))
    {
      var latest := history[|history| - 1];
      if |latest.toolCalls| == 0 && Lower(latest.role) == "assistant" {
        req := Api.ChatRequest(model, [], [], false, false);
        r := Prompt(operator);
      } else {
        r, req := Loop(backend);
      }
    }

    /**
     * `start`: iterates while `len(history) <= limit || limit == 0`. With
     * limit 0 the source runs until an error; here `fuel` bounds the number
     * of iterations of that mode and its exhaustion reads as `Interrupted`.
     * `steps` are the messages each iteration appended and `reqs` the
     * requests sent.
     */
    method Run(backend: Backend, operator: Operator, fuel: nat)
      returns (r: RunOutcome, ghost steps: seq<seq<Api.Message>>, ghost reqs: seq<Api.ChatRequest>)
      requires |history| > 0
      modifies this`history
      ensures Ran(model, limit, tools, backend, operator, fuel, old(history), history, r, steps, reqs)
    {
      var remaining := fuel;
      steps, reqs := [], [];
      ghost var h0 := history;
      while (|history| <= limit || limit == 0) && (limit != 0 || remaining > 0)
        invariant Trace(model, limit, tools, backend, operator, h0, steps, reqs)
        invariant history == h0 + Flatten(steps)
        invariant 0 <= remaining && (limit == 0 ==> |steps| + remaining == fuel)
        decreases if limit == 0 then remaining else limit + 1 - |history|
      {
        ghost var before := history;
        var res;
        ghost var req;
        res, req := Tick(backend, operator);
        if res.Fail? {
          assert Sent(model, tools, before, req);
          return Failed(res.error), steps, reqs;
        }
        assert Sent(model, tools, before, req);
        IterationExtends(model, limit, tools, backend, operator, h0, steps, reqs, history, req);
        steps, reqs := steps + [history[|before|..]], reqs + [req];
        if limit == 0 {
          remaining := remaining - 1;
        }
      }
      if limit == 0 {
        return Interrupted, steps, reqs;
      }
      r := Finished;
    }

    /**
     * `Start`: seeds the history with the system message and the operator's
     * first prompt (which must not be empty), then runs `start`.
     */
    method Start(system: string, prompt: string, backend: Backend, operator: Operator, fuel: nat)
      returns (r: RunOutcome, ghost steps: seq<seq<Api.Message>>, ghost reqs: seq<Api.ChatRequest>)
      modifies this`history
      ensures prompt == "" ==> r == Failed(EmptyPrompt) && history == old(history) && steps == []
      ensures prompt != "" ==>
        var seeded := old(history) + [Api.Message("system", system, []), Api.Message("user", prompt, [])];
        Ran(model, limit, tools, backend, operator, fuel, seeded, history, r, steps, reqs)
    {
      if |prompt| == 0 {
        return Failed(EmptyPrompt), [], [];
      }
      history := history + [Api.Message("system", system, []), Api.Message("user", prompt, [])];
      r, steps, reqs := Run(backend, operator, fuel);
    }
  }
}
