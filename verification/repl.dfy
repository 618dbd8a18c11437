/**
 * The line-mode front end's loop (internal/repl/repl.go): a banner, then read, skip, stop or
 * send, until the user leaves, the input ends or the context is cancelled, then "Goodbye!".
 *
 * The context is the number of times its Err has been asked and the ask from which on it
 * reports cancellation (none when it is never cancelled). The agent is a parameter, `send`,
 * that gives None when a message was handled and Some(message) when Send failed. The
 * output is the list of writes made to it.
 */
module Repl {
  import opened Wrappers
  import opened ReplInput

  const Goodbye: string := "Goodbye!\n"

  /** The three writes Run starts with. */
  function Banner(version: string): (b: seq<string>)
    ensures |b| == 3
  {
    ["Stormtrooper v" + version + " \U{2014} AI coding assistant\n", "Type /exit or Ctrl+C to quit.\n", "\n"]
  }

  /** Whether the `k`-th call of ctx.Err (counting from 0) reports cancellation. */
  predicate Cancelled(cancelAt: Option<nat>, k: nat) {
    cancelAt.Some? && k >= cancelAt.value
  }

  /** A cancellable context: once cancelled it stays cancelled. */
  class Context {
    const cancelAt: Option<nat>
    var checks: nat

    constructor (cancelAt: Option<nat>)
      ensures this.cancelAt == cancelAt && checks == 0
    {
      this.cancelAt, checks := cancelAt, 0;
    }

    method Err() returns (cancelled: bool)
      modifies this
      ensures cancelled == Cancelled(cancelAt, old(checks)) && checks == old(checks) + 1
    {
      cancelled := Cancelled(cancelAt, checks);
      checks := checks + 1;
    }
  }

  /**
   * One round of the loop from line `pos` and context check `checks`: its writes, the
   * message it hands to the agent, the prompts the reader writes, where the reader and the
   * context stand afterwards, and whether the loop goes on. `asWritten` selects what a read
   * failure does: as written the loop goes on, corrected it stops.
   */
  datatype Round = Round(out: seq<string>, sent: seq<string>, prompts: seq<string>, next: nat, checks: nat, goOn: bool)

  function Prompts(r: Reading): seq<string> {
    [PrimaryPrompt] + Dots(r.dots)
  }

  function Step(src: Source, pos: nat, checks: nat, cancelAt: Option<nat>, send: string -> Option<string>, asWritten: bool): (d: Round)
    requires pos <= |src.lines|
    ensures pos <= d.next <= |src.lines| && d.checks > checks
    ensures |d.out| <= 1 && |d.sent| <= 1
    ensures forall m :: m in d.sent ==> m != "" && m != "/exit"
    ensures d.goOn && d.next == pos ==> asWritten && src.failure.Some?
    ensures d.sent != [] ==> d.next > pos
    ensures Cancelled(cancelAt, checks) ==> d == Round([], [], [], pos, checks + 1, false)
  {
    if Cancelled(cancelAt, checks) then Round([], [], [], pos, checks + 1, false)
    else
      var r := Read(src, pos);
      if r.err == Some(EOF) then Round([], [], Prompts(r), r.next, checks + 1, false)
      else if r.err.Some? then Round(["Input error: " + r.err.value.msg + "\n"], [], Prompts(r), r.next, checks + 1, asWritten)
      else if r.input == "" then Round([], [], Prompts(r), r.next, checks + 1, true)
      else if r.input == "/exit" then Round([], [], Prompts(r), r.next, checks + 1, false)
      else
        var failure := send(r.input);
        if failure.None? then Round(["\n"], [r.input], Prompts(r), r.next, checks + 1, true)
        else if Cancelled(cancelAt, checks + 1) then Round([], [r.input], Prompts(r), r.next, checks + 2, false)
        else Round(["Error: " + failure.value + "\n"], [r.input], Prompts(r), r.next, checks + 2, true)
  }

  /** What the loop does from line `pos` and context check `checks` on, until it stops. */
  datatype Transcript = Transcript(out: seq<string>, sent: seq<string>, prompts: seq<string>, next: nat, checks: nat)

  /** The corrected loop: every round that goes on has read a line, so the loop ends. */
  function Session(src: Source, pos: nat, checks: nat, cancelAt: Option<nat>, send: string -> Option<string>): (t: Transcript)
    requires pos <= |src.lines|
    ensures pos <= t.next <= |src.lines| && t.checks > checks
    decreases |src.lines| - pos
  {
    var d := Step(src, pos, checks, cancelAt, send, false);
    if !d.goOn then Transcript(d.out, d.sent, d.prompts, d.next, d.checks)
    else
      var t := Session(src, d.next, d.checks, cancelAt, send);
      Transcript(d.out + t.out, d.sent + t.sent, d.prompts + t.prompts, t.next, t.checks)
  }

  /**
   * The loop as written. `fuel` bounds the number of rounds; None means the rounds ran out
   * before the loop stopped.
   */
  function SessionAsWritten(src: Source, pos: nat, checks: nat, cancelAt: Option<nat>, send: string -> Option<string>, fuel: nat): (t: Option<Transcript>)
    requires pos <= |src.lines|
    decreases fuel
  {
    if fuel == 0 then None
    else
      var d := Step(src, pos, checks, cancelAt, send, true);
      if !d.goOn then Some(Transcript(d.out, d.sent, d.prompts, d.next, d.checks))
      else
        var t := SessionAsWritten(src, d.next, d.checks, cancelAt, send, fuel - 1);
        if t.None? then None
        else Some(Transcript(d.out + t.value.out, d.sent + t.value.sent, d.prompts + t.value.prompts, t.value.next, t.value.checks))
  }

  class REPL {
    const input: InputReader
    const version: string
    var out: seq<string>
    /** The messages handed to the agent's Send, in order. */
    ghost var sent: seq<string>

    constructor (input: InputReader, version: string)
      ensures this.input == input && this.version == version && out == [] && sent == []
    {
      this.input, this.version, out, sent := input, version, [], [];
    }

    /** One pass of Run's loop body; false where the loop breaks. */
    method Round(ctx: Context, send: string -> Option<string>) returns (goOn: bool)
      requires input.scanner.Valid()
      modifies this, input, input.scanner, ctx
      ensures input.scanner.Valid()
      ensures var d := Step(input.scanner.src, old(input.scanner.pos), old(ctx.checks), ctx.cancelAt, send, false);
        && out == old(out) + d.out
        && sent == old(sent) + d.sent
        && input.prompts == old(input.prompts) + d.prompts
        && input.scanner.pos == d.next
        && ctx.checks == d.checks
        && goOn == d.goOn
    {
      goOn := false;
      var cancelled := ctx.Err();
      if cancelled {
        return;
      }
      var line, readErr := input.ReadInput();
      if readErr == Some(EOF) {
        return;
      }
      if readErr.Some? {
        out := out + ["Input error: " + readErr.value.msg + "\n"];
        return;
      }
      if line == "" {
        goOn := true;
        return;
      }
      if line == "/exit" {
        return;
      }
      var failure := send(line);
      sent := sent + [line];
      if failure.Some? {
        cancelled := ctx.Err();
        if cancelled {
          return;
        }
        out := out + ["Error: " + failure.value + "\n"];
      } else {
        out := out + ["\n"];
      }
      goOn := true;
    }

    /** Run: the banner, the loop, "Goodbye!"; it always returns nil. */
    method Run(ctx: Context, send: string -> Option<string>) returns (err: Option<string>)
      requires input.scanner.Valid()
      modifies this, input, input.scanner, ctx
      ensures input.scanner.Valid()
      ensures err.None?
      ensures var t := Session(input.scanner.src, old(input.scanner.pos), old(ctx.checks), ctx.cancelAt, send);
        && out == old(out) + Banner(version) + t.out + [Goodbye]
        && sent == old(sent) + t.sent
        && input.prompts == old(input.prompts) + t.prompts
        && input.scanner.pos == t.next
        && ctx.checks == t.checks
    {
      var src := input.scanner.src;
      ghost var goal := Session(src, input.scanner.pos, ctx.checks, ctx.cancelAt, send);
      out := out + Banner(version);
      ghost var out0, sent0, prompts0 := out, sent, input.prompts;
      while true
        invariant input.scanner.Valid() && input.scanner.src == src
        invariant var t := Session(src, input.scanner.pos, ctx.checks, ctx.cancelAt, send);
          && out + t.out == out0 + goal.out
          && sent + t.sent == sent0 + goal.sent
          && input.prompts + t.prompts == prompts0 + goal.prompts
          && t.next == goal.next && t.checks == goal.checks
        decreases |src.lines| - input.scanner.pos
      {
        ghost var pos, checks := input.scanner.pos, ctx.checks;
        ghost var d := Step(src, pos, checks, ctx.cancelAt, send, false);
        ghost var outTop, sentTop, promptsTop := out, sent, input.prompts;
        var goOn := Round(ctx, send);
        if !goOn {
          Stopped(src, pos, checks, ctx.cancelAt, send);
          break;
        }
        WentOn(src, pos, checks, ctx.cancelAt, send);
        ghost var t' := Session(src, d.next, d.checks, ctx.cancelAt, send);
        ReadOn(outTop, d.out, t'.out);
        ReadOn(sentTop, d.sent, t'.sent);
        ReadOn(promptsTop, d.prompts, t'.prompts);
      }
      out := out + [Goodbye];
      err := None;
    }
  }

  /** A round that stops is the whole of the rest of the loop. */
  lemma Stopped(src: Source, pos: nat, checks: nat, cancelAt: Option<nat>, send: string -> Option<string>)
    requires pos <= |src.lines| && !Step(src, pos, checks, cancelAt, send, false).goOn
    ensures var d := Step(src, pos, checks, cancelAt, send, false);
      Session(src, pos, checks, cancelAt, send) == Transcript(d.out, d.sent, d.prompts, d.next, d.checks)
  {
  }

  /** A round that goes on is followed by the loop from where it left the reader and the context. */
  lemma WentOn(src: Source, pos: nat, checks: nat, cancelAt: Option<nat>, send: string -> Option<string>)
    requires pos <= |src.lines| && Step(src, pos, checks, cancelAt, send, false).goOn
    ensures var d := Step(src, pos, checks, cancelAt, send, false);
      var t := Session(src, d.next, d.checks, cancelAt, send);
      Session(src, pos, checks, cancelAt, send) == Transcript(d.out + t.out, d.sent + t.sent, d.prompts + t.prompts, t.next, t.checks)
  {
  }

  /** Regrouping a three-part concatenation, used when one round's writes are peeled off. */
  lemma ReadOn<T>(a: seq<T>, b: seq<T>, c: seq<T>)
    ensures a + b + c == a + (b + c)
  {
  }

  // ---------------------------------------------------------------------------------------
  // What the loop promises

  /** A context cancelled before the first read ends the loop with no read, no send and no write. */
  lemma CancelledFirst(src: Source, pos: nat, checks: nat, cancelAt: Option<nat>, send: string -> Option<string>)
    requires pos <= |src.lines| && Cancelled(cancelAt, checks)
    ensures Session(src, pos, checks, cancelAt, send) == Transcript([], [], [], pos, checks + 1)
  {
  }

  /** Neither an empty input nor "/exit" is ever handed to the agent. */
  lemma {:induction false} NeverSendsExitOrEmpty(src: Source, pos: nat, checks: nat, cancelAt: Option<nat>, send: string -> Option<string>)
    requires pos <= |src.lines|
    ensures forall m :: m in Session(src, pos, checks, cancelAt, send).sent ==> m != "" && m != "/exit"
    decreases |src.lines| - pos
  {
    var d := Step(src, pos, checks, cancelAt, send, false);
    if d.goOn {
      NeverSendsExitOrEmpty(src, d.next, d.checks, cancelAt, send);
    }
  }

  /** "/exit" ends the loop at once: nothing is sent and nothing more is read. */
  lemma ExitStops(src: Source, pos: nat, checks: nat, cancelAt: Option<nat>, send: string -> Option<string>)
    requires pos <= |src.lines| && !Cancelled(cancelAt, checks)
    requires Read(src, pos).err.None? && Read(src, pos).input == "/exit"
    ensures var t := Session(src, pos, checks, cancelAt, send);
      t.out == [] && t.sent == [] && t.next == Read(src, pos).next
  {
  }

  /** A failed send while the context is cancelled ends the loop with no "Error:" line. */
  lemma CancelledSendIsSilent(src: Source, pos: nat, checks: nat, cancelAt: Option<nat>, send: string -> Option<string>)
    requires pos <= |src.lines| && !Cancelled(cancelAt, checks) && Cancelled(cancelAt, checks + 1)
    requires var r := Read(src, pos); r.err.None? && r.input != "" && r.input != "/exit" && send(r.input).Some?
    ensures var t := Session(src, pos, checks, cancelAt, send);
      t.out == [] && t.sent == [Read(src, pos).input]
  {
  }

  /** A failed send otherwise prints "Error: ..." and the loop goes on with the next read. */
  lemma FailedSendGoesOn(src: Source, pos: nat, checks: nat, cancelAt: Option<nat>, send: string -> Option<string>)
    requires pos <= |src.lines| && !Cancelled(cancelAt, checks + 1)
    requires var r := Read(src, pos); r.err.None? && r.input != "" && r.input != "/exit" && send(r.input).Some?
    ensures var r := Read(src, pos);
      var t := Session(src, pos, checks, cancelAt, send);
      var rest := Session(src, r.next, checks + 2, cancelAt, send);
      t.out == ["Error: " + send(r.input).value + "\n"] + rest.out && t.sent == [r.input] + rest.sent
  {
  }

  /** A read failure prints one "Input error" line and ends the loop. */
  lemma ReadFailureEnds(src: Source, checks: nat, cancelAt: Option<nat>, send: string -> Option<string>)
    requires src.failure.Some? && !Cancelled(cancelAt, checks)
    ensures Session(src, |src.lines|, checks, cancelAt, send)
      == Transcript(["Input error: " + src.failure.value + "\n"], [], [PrimaryPrompt], |src.lines|, checks + 1)
  {
    ReadSticky(src);
  }

  /** Every round but the last reads at least one line and writes at most one: the output is bounded by the input. */
  lemma {:induction false} OutputBounded(src: Source, pos: nat, checks: nat, cancelAt: Option<nat>, send: string -> Option<string>)
    requires pos <= |src.lines|
    ensures |Session(src, pos, checks, cancelAt, send).out| <= |src.lines| - pos + 1
    ensures |Session(src, pos, checks, cancelAt, send).sent| <= |src.lines| - pos
    decreases |src.lines| - pos
  {
    var d := Step(src, pos, checks, cancelAt, send, false);
    if d.goOn {
      OutputBounded(src, d.next, d.checks, cancelAt, send);
    }
  }

  // ---------------------------------------------------------------------------------------
  // The loop as written

  /**
   * As written, a read failure that the scanner keeps reporting, with a context that is
   * never cancelled, keeps the loop going for ever: no number of rounds reaches its end.
   */
  lemma {:induction false} SpinsOnReadFailure(src: Source, checks: nat, send: string -> Option<string>, fuel: nat)
    requires src.failure.Some?
    ensures SessionAsWritten(src, |src.lines|, checks, None, send, fuel) == None
    decreases fuel
  {
    if fuel > 0 {
      ReadSticky(src);
      SpinsOnReadFailure(src, checks + 1, send, fuel - 1);
    }
  }

  /** Without a read failure a round is the same as written and corrected. */
  lemma StepAgrees(src: Source, pos: nat, checks: nat, cancelAt: Option<nat>, send: string -> Option<string>)
    requires pos <= |src.lines| && src.failure.None?
    ensures Step(src, pos, checks, cancelAt, send, true) == Step(src, pos, checks, cancelAt, send, false)
  {
  }

  /** Without a read failure the loop as written and the corrected loop agree, given enough rounds. */
  lemma {:induction false} AgreesWithoutFailure(src: Source, pos: nat, checks: nat, cancelAt: Option<nat>, send: string -> Option<string>, fuel: nat)
    requires pos <= |src.lines| && src.failure.None?
    requires fuel > |src.lines| - pos
    ensures SessionAsWritten(src, pos, checks, cancelAt, send, fuel) == Some(Session(src, pos, checks, cancelAt, send))
    decreases |src.lines| - pos
  {
    var d := Step(src, pos, checks, cancelAt, send, false);
    StepAgrees(src, pos, checks, cancelAt, send);
    if d.goOn {
      var p, c, f := d.next, d.checks, fuel - 1;
      AgreesWithoutFailure(src, p, c, cancelAt, send, f);
      AsWrittenGoesOn(src, pos, checks, cancelAt, send, fuel, d, Session(src, p, c, cancelAt, send));
      WentOn(src, pos, checks, cancelAt, send);
    } else {
      AsWrittenStops(src, pos, checks, cancelAt, send, fuel, d);
      Stopped(src, pos, checks, cancelAt, send);
    }
  }

  /** The loop as written, when its round `d` stops. */
  lemma AsWrittenStops(src: Source, pos: nat, checks: nat, cancelAt: Option<nat>, send: string -> Option<string>, fuel: nat, d: Round)
    requires pos <= |src.lines| && fuel > 0
    requires d == Step(src, pos, checks, cancelAt, send, true) && !d.goOn
    ensures SessionAsWritten(src, pos, checks, cancelAt, send, fuel) == Some(Transcript(d.out, d.sent, d.prompts, d.next, d.checks))
  {
  }


  /** Unfolding the loop as written by a round `d` that goes on into a rest `t`. */
  lemma AsWrittenGoesOn(src: Source, pos: nat, checks: nat, cancelAt: Option<nat>, send: string -> Option<string>, fuel: nat, d: Round, t: Transcript)
    requires pos <= |src.lines| && fuel > 0
    requires d == Step(src, pos, checks, cancelAt, send, true) && d.goOn
    requires SessionAsWritten(src, d.next, d.checks, cancelAt, send, fuel - 1) == Some(t)
    ensures SessionAsWritten(src, pos, checks, cancelAt, send, fuel) == Some(Transcript(d.out + t.out, d.sent + t.sent, d.prompts + t.prompts, t.next, t.checks))
  {
  }

}
