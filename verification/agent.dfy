/**
 * The conversation loop (internal/agent/agent.go): history, streaming display, and tool
 * dispatch with its permission gate.
 *
 * What lies outside the agent is given to it: the LLM endpoint is a script of replies, one
 * per request; the context is the iteration from which it reports cancellation; the
 * permission handler, tool previews and tool execution are functions of the tool name and
 * the argument text. Output streams are the sequence of writes made to them.
 */
module AgentLoop {
  import opened Wrappers
  import opened Text
  import opened LlmTypes
  import opened ToolTypes
  import opened ToolRegistry
  import opened Stream

  const SpecialTokens: seq<string> :=
    ["<|tool_call_end|>", "<|tool_call_start|>", "<|function|>", "<|tool_sep|>", "<|im_end|>"]

  /** truncateArgs: at most `maxLen` bytes of `s`, marked with "..." when cut. */
  function TruncateArgs(s: string, maxLen: nat): (r: string)
    ensures |s| <= maxLen ==> r == s
    ensures |s| > maxLen ==> |r| == maxLen + 3 && r[..maxLen] == s[..maxLen] && HasSuffix(r, "...")
  {
    if |s| <= maxLen then s else s[..maxLen] + "..."
  }

  /** stripSpecialTokens: each token, in list order, removed wherever it occurs. */
  method StripSpecialTokens(s: string) returns (r: string)
    ensures r == RemoveEach(s, SpecialTokens)
  {
    r := s;
    var i := 0;
    while i < |SpecialTokens|
      invariant 0 <= i <= |SpecialTokens|
      invariant RemoveEach(r, SpecialTokens[i..]) == RemoveEach(s, SpecialTokens)
    {
      assert SpecialTokens[i..][0] == SpecialTokens[i] && SpecialTokens[i..][1..] == SpecialTokens[i + 1..];
      r := RemoveAll(r, SpecialTokens[i]);
      i := i + 1;
    }
  }

  /** Text free of every special token passes through unchanged; no text is ever lengthened. */
  lemma StripLeavesCleanText(s: string)
    requires forall i :: 0 <= i < |SpecialTokens| ==> !Contains(s, SpecialTokens[i])
    ensures RemoveEach(s, SpecialTokens) == s
  {
    RemoveEachAbsent(s, SpecialTokens);
  }

  // ---------------------------------------------------------------------------------------
  // The display callback

  /** What one choice prints: nothing beside tool-call fragments, else its cleaned non-empty content. */
  function ShownOf(c: ChunkChoice): seq<string> {
    if |c.delta.toolCalls| > 0 || c.delta.content == "" then []
    else
      var text := RemoveEach(c.delta.content, SpecialTokens);
      if text == "" then [] else [text]
  }

  function Shown(choices: seq<ChunkChoice>): seq<string>
    decreases |choices|
  {
    if choices == [] then [] else Shown(choices[..|choices| - 1]) + ShownOf(choices[|choices| - 1])
  }

  lemma ShownStep(choices: seq<ChunkChoice>, i: nat)
    requires i < |choices|
    ensures Shown(choices[..i + 1]) == Shown(choices[..i]) + ShownOf(choices[i])
  {
    assert choices[..i + 1][..i] == choices[..i];
  }

  /** The display callback for one chunk: the writes it makes to stdout. */
  method DisplayChunk(chunk: ChatCompletionChunk) returns (printed: seq<string>)
    ensures printed == Shown(chunk.choices)
  {
    printed := [];
    var i := 0;
    while i < |chunk.choices|
      invariant 0 <= i <= |chunk.choices|
      invariant printed == Shown(chunk.choices[..i])
    {
      ShownStep(chunk.choices, i);
      var choice := chunk.choices[i];
      if |choice.delta.toolCalls| > 0 {
        i := i + 1;
        continue;
      }
      var content := choice.delta.content;
      if content == "" {
        i := i + 1;
        continue;
      }
      content := StripSpecialTokens(content);
      if content != "" {
        printed := printed + [content];
      }
      i := i + 1;
    }
    assert chunk.choices[..i] == chunk.choices;
  }

  /**
   * Every write is non-empty and is the token-stripped content of a choice that carries no
   * tool-call fragment.
   */
  lemma {:induction false} ShownSpec(choices: seq<ChunkChoice>)
    ensures forall p :: p in Shown(choices) ==>
      p != "" && exists c :: c in choices && c.delta.toolCalls == [] && p == RemoveEach(c.delta.content, SpecialTokens)
    decreases |choices|
  {
    if choices != [] {
      var pre := choices[..|choices| - 1];
      ShownSpec(pre);
      forall p | p in Shown(choices)
        ensures p != "" && exists c :: c in choices && c.delta.toolCalls == [] && p == RemoveEach(c.delta.content, SpecialTokens)
      {
        if p in Shown(pre) {
          var c :| c in pre && c.delta.toolCalls == [] && p == RemoveEach(c.delta.content, SpecialTokens);
          assert c in choices;
        } else {
          assert choices[|choices| - 1] in choices;
        }
      }
    }
  }

  /** All display writes made while a stream is delivered. */
  function ShownAll(chunks: seq<ChatCompletionChunk>): seq<string>
    decreases |chunks|
  {
    if chunks == [] then [] else ShownAll(chunks[..|chunks| - 1]) + Shown(chunks[|chunks| - 1].choices)
  }

  lemma ShownAllStep(chunks: seq<ChatCompletionChunk>, i: nat)
    requires i < |chunks|
    ensures chunks[..i + 1] == chunks[..i] + [chunks[i]]
    ensures ShownAll(chunks[..i + 1]) == ShownAll(chunks[..i]) + Shown(chunks[i].choices)
  {
    assert chunks[..i + 1][..i] == chunks[..i];
  }

  // ---------------------------------------------------------------------------------------
  // One request to the LLM

  /** What the endpoint does with one request: fail before streaming, or stream these lines. */
  datatype Reply = HttpFailed(err: string) | Streamed(lines: seq<string>, readErr: Option<string>)

  /** The streamed request: the assembled message or the error, and the display writes made. */
  datatype Requested = Requested(res: Result<Message>, shown: seq<string>)

  ghost function StreamResult(reply: Reply, decode: Decoder): Requested {
    match reply
    case HttpFailed(e) => Requested(Err(e), [])
    case Streamed(lines, readErr) =>
      var o := Parse(lines, readErr, decode);
      if o.err.Some? then Requested(Err("stream error: " + o.err.value), ShownAll(o.delivered))
      else Requested(Ok(MessageOf(Accumulated(o.delivered))), ShownAll(o.delivered))
  }

  /**
   * ChatCompletionStream with the agent's display callback: every decoded chunk is first
   * added to the accumulator and then displayed.
   */
  method ChatCompletionStream(reply: Reply, decode: Decoder) returns (res: Result<Message>, shown: seq<string>)
    ensures Requested(res, shown) == StreamResult(reply, decode)
  {
    if reply.HttpFailed? {
      return Err(reply.err), [];
    }
    var delivered, err := ParseSSEStream(reply.lines, reply.readErr, decode);
    var acc := new DeltaAccumulator();
    shown := [];
    var i := 0;
    while i < |delivered|
      invariant 0 <= i <= |delivered|
      invariant fresh(acc) && acc.Valid() && acc.added == delivered[..i]
      invariant shown == ShownAll(delivered[..i])
    {
      ShownAllStep(delivered, i);
      acc.Add(delivered[i]);
      var printed := DisplayChunk(delivered[i]);
      shown := shown + printed;
      i := i + 1;
    }
    assert delivered[..i] == delivered;
    if err.Some? {
      return Err("stream error: " + err.value), shown;
    }
    var msg := acc.Message();
    res := Ok(msg);
  }

  // ---------------------------------------------------------------------------------------
  // Tool dispatch

  /** The outside world of a conversation. */
  datatype Env = Env(
    decode: Decoder,
    approve: (string, string) -> bool,
    preview: (string, string) -> string,
    execute: (string, string) -> Result<string>)

  /** The preview shown in a permission prompt. */
  function PermissionPreview(t: Tool, tc: ToolCall, env: Env): (p: string)
    ensures !t.hasPreview ==> HasPrefix(p, tc.func.name + "(") && HasSuffix(p, ")")
  {
    if t.hasPreview then env.preview(t.name, tc.func.arguments)
    else tc.func.name + "(" + TruncateArgs(tc.func.arguments, 200) + ")"
  }

  /** The result text, the stderr markers written, and whether the tool's Execute ran. */
  datatype Dispatched = Dispatched(result: string, markers: seq<string>, executed: bool)

  predicate NeedsApproval(tools: map<string, Tool>, tc: ToolCall) {
    tc.func.name in tools && tools[tc.func.name].permission == PermissionPrompt
  }

  predicate Denied(tools: map<string, Tool>, tc: ToolCall, env: Env) {
    NeedsApproval(tools, tc)
    && !env.approve(tc.func.name, PermissionPreview(tools[tc.func.name], tc, env))
  }

  /** executeTool as a decision: unknown tool, permission denied, tool error, or the tool's result. */
  function Dispatch(tools: map<string, Tool>, tc: ToolCall, env: Env): (d: Dispatched)
    ensures d.executed <==> tc.func.name in tools && !Denied(tools, tc, env)
    ensures tc.func.name !in tools ==> d.result == "Unknown tool: " + tc.func.name
    ensures Denied(tools, tc, env) ==> d.result == "Permission denied by user"
    ensures d.executed ==> d.result == match env.execute(tc.func.name, tc.func.arguments)
                                      case Ok(out) => out
                                      case Err(e) => "Tool error: " + e
    ensures d.executed <==> "[tool] " + tc.func.name + "\n" in d.markers
  {
    var name := tc.func.name;
    if name !in tools then
      Dispatched("Unknown tool: " + name, ["[tool] Unknown tool: " + name + "\n"], false)
    else if Denied(tools, tc, env) then
      assert "[tool] " + name + ": permission denied\n" != "[tool] " + name + "\n" by {
        assert |"[tool] " + name + ": permission denied\n"| != |"[tool] " + name + "\n"|;
      }
      Dispatched("Permission denied by user", ["[tool] " + name + ": permission denied\n"], false)
    else
      match env.execute(name, tc.func.arguments)
      case Err(e) => Dispatched("Tool error: " + e, ["[tool] " + name + "\n", "[tool:error] " + name + "\n"], true)
      case Ok(out) => Dispatched(out, ["[tool] " + name + "\n", "[tool:done] " + name + "\n"], true)
  }

  /** The tool messages and markers of one round of calls, in call order. */
  function DispatchAll(tools: map<string, Tool>, calls: seq<ToolCall>, env: Env): (r: (seq<Message>, seq<string>))
    ensures |r.0| == |calls|
    decreases |calls|
  {
    if calls == [] then ([], [])
    else
      var pre := DispatchAll(tools, calls[..|calls| - 1], env);
      var tc := calls[|calls| - 1];
      var d := Dispatch(tools, tc, env);
      (pre.0 + [ToolMessage(tc.id, tc.func.name, d.result)], pre.1 + d.markers)
  }

  lemma DispatchAllStep(tools: map<string, Tool>, calls: seq<ToolCall>, j: nat, env: Env)
    requires j < |calls|
    ensures var pre, d := DispatchAll(tools, calls[..j], env), Dispatch(tools, calls[j], env);
      DispatchAll(tools, calls[..j + 1], env) == (pre.0 + [ToolMessage(calls[j].id, calls[j].func.name, d.result)], pre.1 + d.markers)
  {
    assert calls[..j + 1][..j] == calls[..j];
  }

  /** Each call gets one tool message carrying its id, its function name and its dispatch result. */
  lemma {:induction false} DispatchAllAnswers(tools: map<string, Tool>, calls: seq<ToolCall>, env: Env)
    ensures forall i :: 0 <= i < |calls| ==>
      DispatchAll(tools, calls, env).0[i] == ToolMessage(calls[i].id, calls[i].func.name, Dispatch(tools, calls[i], env).result)
    decreases |calls|
  {
    if calls != [] {
      DispatchAllAnswers(tools, calls[..|calls| - 1], env);
    }
  }

  // ---------------------------------------------------------------------------------------
  // The loop

  /** A context that reports cancellation from iteration `cancelAt` of the loop on, if ever. */
  datatype Context = Context(cancelAt: Option<nat>)

  predicate CancelledAt(ctx: Context, iter: nat) {
    ctx.cancelAt.Some? && ctx.cancelAt.value <= iter
  }

  const CancelledError: string := "agent cancelled: context canceled"
  const OutOfReplies: string := "no reply scripted"

  /** What a run of the loop appends to history, writes to stdout and stderr, and returns. */
  datatype TurnResult = TurnResult(
    appended: seq<Message>,
    out: seq<string>,
    errOut: seq<string>,
    err: Option<string>,
    requests: nat)

  /**
   * One round of the loop after the cancellation check: what it appends, writes, and
   * whether it returns (`stop == Some(err)`) or goes round again (`stop == None`).
   */
  datatype StepResult = StepResult(appended: seq<Message>, out: seq<string>, errOut: seq<string>, stop: Option<Option<string>>)

  /** A round, given the outcome of its request. */
  function StepFrom(tools: map<string, Tool>, req: Requested, env: Env): StepResult {
    if req.res.Err? then StepResult([], req.shown, [], Some(Some("LLM request failed: " + req.res.error)))
    else
      var msg := req.res.value;
      if msg.toolCalls == [] then StepResult([msg], req.shown + ["\n"], [], Some(None))
      else
        var dispatched := DispatchAll(tools, msg.toolCalls, env);
        StepResult([msg] + dispatched.0, req.shown, dispatched.1, None)
  }

  ghost function Step(tools: map<string, Tool>, reply: Reply, env: Env): StepResult {
    StepFrom(tools, StreamResult(reply, env.decode), env)
  }

  /** Reference definition of the loop from iteration `iter`, which consumes `replies[iter]`. */
  ghost function Turn(tools: map<string, Tool>, ctx: Context, replies: seq<Reply>, iter: nat, env: Env): TurnResult
    decreases |replies| - iter
  {
    if CancelledAt(ctx, iter) then TurnResult([], [], [], Some(CancelledError), 0)
    else if iter >= |replies| then TurnResult([], [], [], Some(OutOfReplies), 0)
    else
      var st := Step(tools, replies[iter], env);
      if st.stop.Some? then TurnResult(st.appended, st.out, st.errOut, st.stop.value, 1)
      else
        var rest := Turn(tools, ctx, replies, iter + 1, env);
        TurnResult(st.appended + rest.appended, st.out + rest.out, st.errOut + rest.errOut, rest.err, 1 + rest.requests)
  }

  /** `full` is what has been done so far followed by `t`, the rest of the loop. */
  ghost predicate Remaining(full: TurnResult, app: seq<Message>, outs: seq<string>, errs: seq<string>, t: TurnResult) {
    full.appended == app + t.appended && full.out == outs + t.out && full.errOut == errs + t.errOut && full.err == t.err
  }

  /** One more round either ends the loop with what it did or leaves the rest of the loop to run. */
  lemma TurnAdvance(tools: map<string, Tool>, ctx: Context, replies: seq<Reply>, iter: nat, env: Env,
                    full: TurnResult, app: seq<Message>, outs: seq<string>, errs: seq<string>)
    requires !CancelledAt(ctx, iter) && iter < |replies|
    requires Remaining(full, app, outs, errs, Turn(tools, ctx, replies, iter, env))
    ensures var st := Step(tools, replies[iter], env);
      && (st.stop.Some? ==> Remaining(full, app + st.appended, outs + st.out, errs + st.errOut, TurnResult([], [], [], st.stop.value, 0)))
      && (st.stop.None? ==> Remaining(full, app + st.appended, outs + st.out, errs + st.errOut, Turn(tools, ctx, replies, iter + 1, env)))
  {
    var st := Step(tools, replies[iter], env);
    if st.stop.None? {
      var rest := Turn(tools, ctx, replies, iter + 1, env);
      Assoc(app, st.appended, rest.appended);
      Assoc(outs, st.out, rest.out);
      Assoc(errs, st.errOut, rest.errOut);
    }
  }

  /**
   * The shape of what a loop appends: rounds of an assistant message with tool calls followed
   * by one answering tool message per call, ending, on success only, with an assistant
   * message that has no tool calls.
   */
  ghost predicate Rounds(tools: map<string, Tool>, env: Env, ms: seq<Message>, finished: bool)
    decreases |ms|
  {
    if ms == [] then !finished
    else if ms[0].toolCalls == [] then finished && |ms| == 1
    else
      var calls := ms[0].toolCalls;
      && |calls| < |ms|
      && (forall i :: 0 <= i < |calls| ==>
            ms[1 + i] == ToolMessage(calls[i].id, calls[i].func.name, Dispatch(tools, calls[i], env).result))
      && Rounds(tools, env, ms[1 + |calls|..], finished)
  }

  /** A round followed by well-formed rounds is well formed. */
  lemma RoundsCons(tools: map<string, Tool>, env: Env, msg: Message, rest: seq<Message>, finished: bool)
    requires msg.toolCalls != []
    requires Rounds(tools, env, rest, finished)
    ensures Rounds(tools, env, [msg] + DispatchAll(tools, msg.toolCalls, env).0 + rest, finished)
  {
    var toolMsgs := DispatchAll(tools, msg.toolCalls, env).0;
    DispatchAllAnswers(tools, msg.toolCalls, env);
    var calls, ms := msg.toolCalls, [msg] + toolMsgs + rest;
    assert ms[0] == msg;
    assert ms[1 + |calls|..] == rest;
    forall i | 0 <= i < |calls|
      ensures ms[1 + i] == ToolMessage(calls[i].id, calls[i].func.name, Dispatch(tools, calls[i], env).result)
    {
      assert ms[1 + i] == toolMsgs[i];
    }
    RoundsUnfold(tools, env, ms, finished);
  }

  /** A round of tool calls answered in order, followed by further rounds. */
  lemma RoundsUnfold(tools: map<string, Tool>, env: Env, ms: seq<Message>, finished: bool)
    requires ms != [] && ms[0].toolCalls != [] && |ms[0].toolCalls| < |ms|
    requires forall i :: 0 <= i < |ms[0].toolCalls| ==>
      ms[1 + i] == ToolMessage(ms[0].toolCalls[i].id, ms[0].toolCalls[i].func.name, Dispatch(tools, ms[0].toolCalls[i], env).result)
    requires Rounds(tools, env, ms[1 + |ms[0].toolCalls|..], finished)
    ensures Rounds(tools, env, ms, finished)
  {
  }

  lemma {:induction false} TurnRounds(tools: map<string, Tool>, ctx: Context, replies: seq<Reply>, iter: nat, env: Env)
    ensures var t := Turn(tools, ctx, replies, iter, env); Rounds(tools, env, t.appended, t.err.None?)
    decreases |replies| - iter
  {
    if !CancelledAt(ctx, iter) && iter < |replies| {
      var res := StreamResult(replies[iter], env.decode).res;
      if res.Ok? && res.value.toolCalls != [] {
        TurnRounds(tools, ctx, replies, iter + 1, env);
        var rest := Turn(tools, ctx, replies, iter + 1, env);
        RoundsCons(tools, env, res.value, rest.appended, rest.err.None?);
      }
    }
  }

  /** A loop fails only by cancellation, a failed request, or running out of scripted replies. */
  lemma {:induction false} TurnErrors(tools: map<string, Tool>, ctx: Context, replies: seq<Reply>, iter: nat, env: Env)
    ensures var t := Turn(tools, ctx, replies, iter, env);
      t.err.Some? ==> t.err.value == CancelledError || t.err.value == OutOfReplies
                      || HasPrefix(t.err.value, "LLM request failed: ")
    decreases |replies| - iter
  {
    if !CancelledAt(ctx, iter) && iter < |replies| {
      TurnErrors(tools, ctx, replies, iter + 1, env);
    }
  }

  /**
   * Each request consumes one scripted reply, and none is made exactly when the context is
   * already cancelled or no reply is left.
   */
  lemma {:induction false} TurnRequests(tools: map<string, Tool>, ctx: Context, replies: seq<Reply>, iter: nat, env: Env)
    ensures var t := Turn(tools, ctx, replies, iter, env);
      && (iter <= |replies| ==> t.requests <= |replies| - iter)
      && (t.requests == 0 <==> CancelledAt(ctx, iter) || iter >= |replies|)
    decreases |replies| - iter
  {
    if !CancelledAt(ctx, iter) && iter < |replies| {
      var st := Step(tools, replies[iter], env);
      var t := Turn(tools, ctx, replies, iter, env);
      if st.stop.Some? {
        assert t.requests == 1;
      } else {
        TurnRequests(tools, ctx, replies, iter + 1, env);
        assert t.requests == 1 + Turn(tools, ctx, replies, iter + 1, env).requests;
      }
    }
  }

  class Agent {
    const registry: Registry
    var model: string
    var history: seq<Message>
    var stdout: seq<string>
    var stderr: seq<string>

    ghost predicate Valid()
      reads this, registry
    {
      registry.Valid()
    }

    /** New: the history starts with the system prompt, if there is one. */
    constructor (registry: Registry, model: string, systemPrompt: string)
      requires registry.Valid()
      ensures Valid() && this.registry == registry && this.model == model
      ensures history == if systemPrompt != "" then [SystemMessage(systemPrompt)] else []
      ensures stdout == [] && stderr == []
    {
      this.registry := registry;
      this.model := model;
      history := if systemPrompt != "" then [SystemMessage(systemPrompt)] else [];
      stdout, stderr := [], [];
    }

    /** executeTool: look the tool up, ask for permission if it needs it, then run it. */
    method ExecuteTool(tc: ToolCall, env: Env) returns (result: string)
      requires Valid()
      modifies this`stderr
      ensures result == Dispatch(registry.tools, tc, env).result
      ensures stderr == old(stderr) + Dispatch(registry.tools, tc, env).markers
    {
      var name := tc.func.name;
      var found := registry.Get(name);
      if found.None? {
        stderr := stderr + ["[tool] Unknown tool: " + name + "\n"];
        return "Unknown tool: " + name;
      }
      var t := found.value;
      if t.permission == PermissionPrompt {
        var preview: string;
        if t.hasPreview {
          preview := env.preview(t.name, tc.func.arguments);
        } else {
          preview := name + "(" + TruncateArgs(tc.func.arguments, 200) + ")";
        }
        if !env.approve(name, preview) {
          stderr := stderr + ["[tool] " + name + ": permission denied\n"];
          return "Permission denied by user";
        }
      }
      stderr := stderr + ["[tool] " + name + "\n"];
      var outcome := env.execute(name, tc.func.arguments);
      if outcome.Err? {
        stderr := stderr + ["[tool:error] " + name + "\n"];
        return "Tool error: " + outcome.error;
      }
      stderr := stderr + ["[tool:done] " + name + "\n"];
      result := outcome.value;
    }

    /** The tool calls of one assistant message, in order: one tool message each. */
    method RunToolCalls(calls: seq<ToolCall>, env: Env)
      requires Valid()
      modifies this`history, this`stderr
      ensures history == old(history) + DispatchAll(registry.tools, calls, env).0
      ensures stderr == old(stderr) + DispatchAll(registry.tools, calls, env).1
    {
      var j := 0;
      while j < |calls|
        invariant 0 <= j <= |calls|
        invariant history == old(history) + DispatchAll(registry.tools, calls[..j], env).0
        invariant stderr == old(stderr) + DispatchAll(registry.tools, calls[..j], env).1
      {
        DispatchAllStep(registry.tools, calls, j, env);
        var tc := calls[j];
        var result := ExecuteTool(tc, env);
        history := history + [ToolMessage(tc.id, tc.func.name, result)];
        j := j + 1;
      }
      assert calls[..j] == calls;
    }

    /** What a round does once its request has answered: display, append, and run the tool calls. */
    method Absorb(res: Result<Message>, shown: seq<string>, env: Env) returns (stop: Option<Option<string>>)
      requires Valid()
      modifies this`history, this`stdout, this`stderr
      ensures var st := StepFrom(registry.tools, Requested(res, shown), env);
        && history == old(history) + st.appended
        && stdout == old(stdout) + st.out
        && stderr == old(stderr) + st.errOut
        && stop == st.stop
    {
      stdout := stdout + shown;
      if res.Err? {
        return Some(Some("LLM request failed: " + res.error));
      }
      var msg := res.value;
      history := history + [msg];
      if |msg.toolCalls| == 0 {
        stdout := stdout + ["\n"];
        return Some(None);
      }
      RunToolCalls(msg.toolCalls, env);
      stop := None;
    }

    /** One round: request and display, append the answer, and run its tool calls. */
    method Round(reply: Reply, env: Env) returns (stop: Option<Option<string>>)
      requires Valid()
      modifies this`history, this`stdout, this`stderr
      ensures var st := Step(registry.tools, reply, env);
        && history == old(history) + st.appended
        && stdout == old(stdout) + st.out
        && stderr == old(stderr) + st.errOut
        && stop == st.stop
    {
      var res, shown := ChatCompletionStream(reply, env.decode);
      stop := Absorb(res, shown, env);
    }

    /** loop: until cancelled, failed or answered without tool calls, run another round. */
    method Loop(ctx: Context, replies: seq<Reply>, env: Env) returns (err: Option<string>)
      requires Valid()
      modifies this`history, this`stdout, this`stderr
      ensures var t := Turn(registry.tools, ctx, replies, 0, env);
        && history == old(history) + t.appended
        && stdout == old(stdout) + t.out
        && stderr == old(stderr) + t.errOut
        && err == t.err
    {
      ghost var full := Turn(registry.tools, ctx, replies, 0, env);
      ghost var app: seq<Message>, outs: seq<string>, errs: seq<string> := [], [], [];
      var iter := 0;
      while true
        invariant 0 <= iter <= |replies|
        invariant history == old(history) + app && stdout == old(stdout) + outs && stderr == old(stderr) + errs
        invariant Remaining(full, app, outs, errs, Turn(registry.tools, ctx, replies, iter, env))
        decreases |replies| - iter
      {
        if ctx.cancelAt.Some? && ctx.cancelAt.value <= iter {
          return Some(CancelledError);
        }
        if iter == |replies| {
          return Some(OutOfReplies);
        }
        ghost var st := Step(registry.tools, replies[iter], env);
        TurnAdvance(registry.tools, ctx, replies, iter, env, full, app, outs, errs);
        var stop := Round(replies[iter], env);
        Assoc(old(history), app, st.appended);
        Assoc(old(stdout), outs, st.out);
        Assoc(old(stderr), errs, st.errOut);
        if stop.Some? {
          return stop.value;
        }
        app, outs, errs := app + st.appended, outs + st.out, errs + st.errOut;
        iter := iter + 1;
      }
    }

    /** Send: append the user's message, then run the loop. */
    method Send(ctx: Context, userMessage: string, replies: seq<Reply>, env: Env) returns (err: Option<string>)
      requires Valid()
      modifies this`history, this`stdout, this`stderr
      ensures var t := Turn(registry.tools, ctx, replies, 0, env);
        && history == old(history) + [UserMessage(userMessage)] + t.appended
        && stdout == old(stdout) + t.out
        && stderr == old(stderr) + t.errOut
        && err == t.err
    {
      history := history + [UserMessage(userMessage)];
      err := Loop(ctx, replies, env);
    }
  }
}
