/**
 * The spawn_agent tool (internal/agent/spawn.go): argument checks, the child agent's
 * configuration, and how the child's outcome becomes the tool's result text.
 *
 * The JSON decoding of the parameters is an oracle. The goroutine that runs the child and
 * the `select` that waits for it are replaced by their possible outcomes: the child may panic
 * (which code panics is not part of this model, so the panic value is a parameter) and, when
 * the context is cancelled, the scheduler may let the cancellation win the race.
 */
module Spawn {
  import opened Wrappers
  import opened Text
  import opened LlmTypes
  import opened ToolRegistry
  import opened AgentLoop

  datatype SpawnParams = SpawnParams(task: string, model: string)

  const PreviewLimit: nat := 80
  const SubAgentIntro: string := "You are a sub-agent. Complete the following task:\n\n"
  const SubAgentOutro: string := "\n\nWhen done, provide a concise summary of what you did and the results."
  const CancelledResult: string := "Sub-agent cancelled: context canceled"

  /** The permission-prompt preview: the task, cut to 80 bytes. */
  function Preview(params: string, decode: string -> Result<SpawnParams>): (r: string)
    ensures decode(params).Err? ==> r == "Spawn sub-agent (invalid params)"
    ensures decode(params).Ok? ==> HasPrefix(r, "Spawn sub-agent: ")
    ensures |r| <= |"Spawn sub-agent: "| + PreviewLimit + 3
  {
    match decode(params)
    case Err(_) => "Spawn sub-agent (invalid params)"
    case Ok(p) => "Spawn sub-agent: " + TruncateArgs(p.task, PreviewLimit)
  }

  /** The child's system prompt: the fixed introduction, the whole task, and the fixed closing line. */
  function ChildSystemPrompt(task: string): (r: string)
    ensures HasPrefix(r, SubAgentIntro) && HasSuffix(r, SubAgentOutro)
    ensures |r| == |SubAgentIntro| + |task| + |SubAgentOutro|
    ensures r[|SubAgentIntro|..|r| - |SubAgentOutro|] == task
  {
    SubAgentIntro + task + SubAgentOutro
  }

  /** Different tasks give different child prompts. */
  lemma ChildSystemPromptInjective(a: string, b: string)
    requires ChildSystemPrompt(a) == ChildSystemPrompt(b)
    ensures a == b
  {
    var pa, pb := ChildSystemPrompt(a), ChildSystemPrompt(b);
    assert a == pa[|SubAgentIntro|..|pa| - |SubAgentOutro|];
    assert b == pb[|SubAgentIntro|..|pb| - |SubAgentOutro|];
  }

  /** The model the child talks to: the requested one, or the parent's. */
  function ChildModel(requested: string, parentModel: string): (m: string)
    ensures m == requested || m == parentModel
    ensures m == "" ==> requested == "" && parentModel == ""
    ensures requested != "" ==> m == requested
  {
    if requested != "" then requested else parentModel
  }

  /** What the `select` receives: the child's output and error, or the context's cancellation. */
  datatype Outcome = Finished(output: string, err: Option<string>) | CtxDone

  /** Which channel the `select` takes when both are ready. */
  datatype Race = ChildFirst | CancelFirst

  /** The tool result for each outcome; the tool never reports a Go error and never returns empty text. */
  function ResultText(o: Outcome): (r: string)
    ensures r != ""
    ensures o.CtxDone? ==> r == CancelledResult
    ensures o.Finished? && o.err.Some? ==> r == "Sub-agent error: " + o.err.value
    ensures o.Finished? && o.err.None? && o.output == "" ==> r == "Sub-agent completed with no output"
    ensures o.Finished? && o.err.None? && o.output != "" ==> r == o.output
  {
    match o
    case CtxDone => CancelledResult
    case Finished(output, err) =>
      if err.Some? then "Sub-agent error: " + err.value
      else if output == "" then "Sub-agent completed with no output"
      else output
  }

  /** The child's outcome: a panic is turned into an error, otherwise the run's output and error. */
  function ChildOutcome(run: TurnResult, panic: Option<string>): (o: Outcome)
    ensures o.Finished?
    ensures panic.Some? ==> o.err == Some("sub-agent panic: " + panic.value)
    ensures panic.None? ==> o.err == run.err && o.output == Concat(run.out)
  {
    if panic.Some? then Finished("", Some("sub-agent panic: " + panic.value))
    else Finished(Concat(run.out), run.err)
  }

  /** Whether the parent stops waiting for the child because the context was cancelled. */
  predicate CancelWins(ctx: Context, race: Race) {
    ctx.cancelAt.Some? && race == CancelFirst
  }

  /** A child created by the tool: its model and system prompt. */
  datatype Spawned = Spawned(model: string, systemPrompt: string)

  class SpawnAgentTool {
    const registry: Registry
    const model: string
    /** The process's stderr, which the tool and its children write to. */
    var stderr: seq<string>
    ghost var spawned: seq<Spawned>

    ghost predicate Valid()
      reads registry
    {
      registry.Valid()
    }

    constructor (registry: Registry, defaultModel: string)
      requires registry.Valid()
      ensures Valid() && this.registry == registry && model == defaultModel
      ensures stderr == [] && spawned == []
    {
      this.registry := registry;
      model := defaultModel;
      stderr := [];
      spawned := [];
    }

    /** Runs a child agent on the task and reports what it printed and how it ended. */
    method RunChild(task: string, childModel: string, ctx: Context, replies: seq<Reply>, env: Env)
      returns (output: string, err: Option<string>)
      requires Valid()
      modifies this`stderr, this`spawned
      ensures var run := Turn(registry.tools, ctx, replies, 0, env);
        && output == Concat(run.out) && err == run.err
        && stderr == old(stderr) + run.errOut
      ensures spawned == old(spawned) + [Spawned(childModel, ChildSystemPrompt(task))]
    {
      var child := new Agent(registry, childModel, ChildSystemPrompt(task));
      spawned := spawned + [Spawned(childModel, ChildSystemPrompt(task))];
      ghost var run := Turn(registry.tools, ctx, replies, 0, env);
      err := child.Send(ctx, task, replies, env);
      assert child.stdout == run.out && child.stderr == run.errOut;
      output := Concat(child.stdout);
      stderr := stderr + child.stderr;
    }

    /** Execute: validate the parameters, run the child, and map its outcome to the result text. */
    method Execute(ctx: Context, params: string, decode: string -> Result<SpawnParams>,
                   replies: seq<Reply>, env: Env, panic: Option<string>, race: Race)
      returns (result: string)
      requires Valid()
      modifies this`stderr, this`spawned
      ensures decode(params).Err? ==>
        result == "Error: invalid parameters: " + decode(params).error && stderr == old(stderr) && spawned == old(spawned)
      ensures decode(params).Ok? && decode(params).value.task == "" ==>
        result == "Error: task is required" && stderr == old(stderr) && spawned == old(spawned)
      ensures decode(params).Ok? && decode(params).value.task != "" ==>
        var p := decode(params).value;
        var run := Turn(registry.tools, ctx, replies, 0, env);
        && spawned == old(spawned) + [Spawned(ChildModel(p.model, model), ChildSystemPrompt(p.task))]
        && result == ResultText(if CancelWins(ctx, race) then CtxDone else ChildOutcome(run, panic))
        && stderr == old(stderr) + ["[agent] Spawning sub-agent: " + TruncateArgs(p.task, PreviewLimit) + "\n"]
                     + run.errOut
                     + (if CancelWins(ctx, race) then [] else ["[agent] Sub-agent completed\n"])
    {
      var decoded := decode(params);
      if decoded.Err? {
        return "Error: invalid parameters: " + decoded.error;
      }
      var p := decoded.value;
      if p.task == "" {
        return "Error: task is required";
      }
      var childModel := model;
      if p.model != "" {
        childModel := p.model;
      }
      stderr := stderr + ["[agent] Spawning sub-agent: " + TruncateArgs(p.task, PreviewLimit) + "\n"];
      var output, err := RunChild(p.task, childModel, ctx, replies, env);
      if panic.Some? {
        output, err := "", Some("sub-agent panic: " + panic.value);
      }
      if ctx.cancelAt.Some? && race == CancelFirst {
        return CancelledResult;
      }
      stderr := stderr + ["[agent] Sub-agent completed\n"];
      result := ResultText(Finished(output, err));
    }
  }

  /** prefixWriter: each write goes to the underlying writer with the prefix in front. */
  class PrefixWriter {
    const prefix: string
    /** The writes the underlying writer accepted. */
    var written: seq<string>

    constructor (prefix: string)
      ensures this.prefix == prefix && written == []
    {
      this.prefix := prefix;
      written := [];
    }

    /** `failure` is the underlying writer's error, if it fails this write. */
    method Write(p: string, failure: Option<string>) returns (n: nat, err: Option<string>)
      modifies this
      ensures failure.None? ==> n == |p| && err.None? && written == old(written) + [prefix + p]
      ensures failure.Some? ==> n == 0 && err == failure && written == old(written)
    {
      if failure.Some? {
        return 0, failure;
      }
      written := written + [prefix + p];
      n, err := |p|, None;
    }
  }
}
