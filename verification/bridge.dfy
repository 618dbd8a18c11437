/**
 * The bridge between the agent and the terminal front end (internal/tui/bridge.go): the
 * agent's stdout becomes token events, its stderr is cut into lines that are classified
 * into tool and sub-agent events, and permission questions become request events.
 *
 * The buffered Go channel is an `EventChannel` whose queue the writers append to; the
 * reader side (WaitForEvent) is accounted for in the App model as a listener count.
 */
module Bridge {
  import opened Wrappers
  import opened Text
  import opened TuiEvents
  import opened LlmTypes
  import opened ToolTypes
  import AgentLoop

  /** The events channel, shared by every writer of one bridge. */
  class EventChannel {
    var queue: seq<AgentEvent>

    constructor ()
      ensures queue == []
    {
      queue := [];
    }
  }

  /** The agent's stdout: each write is one token event. */
  class EventWriter {
    const events: EventChannel

    constructor (events: EventChannel)
      ensures this.events == events
    {
      this.events := events;
    }

    method Write(p: string) returns (n: nat, err: Option<string>)
      modifies events
      ensures events.queue == old(events.queue) + [TokenMsg(p)]
      ensures n == |p| && err.None?
    {
      events.queue := events.queue + [TokenMsg(p)];
      n, err := |p|, None;
    }
  }

  // ---------------------------------------------------------------------------------------
  // Cutting stderr into lines

  /** The complete lines of a text, and what follows the last newline. */
  datatype Cut = Cut(lines: seq<string>, rest: string)

  /** The lines, each given back its newline. */
  function Unsplit(lines: seq<string>): string
    decreases |lines|
  {
    if lines == [] then "" else lines[0] + "\n" + Unsplit(lines[1..])
  }

  function Split(s: string): (c: Cut)
    ensures '\n' !in c.rest
    ensures forall i :: 0 <= i < |c.lines| ==> '\n' !in c.lines[i]
    decreases |s|
  {
    var i := IndexByte(s, '\n');
    if i == -1 then Cut([], s)
    else
      var tail := Split(s[i + 1..]);
      Cut([s[..i]] + tail.lines, tail.rest)
  }

  /** One step of the cut: the text up to the first newline is the first line. */
  lemma SplitStep(s: string, i: int)
    requires i == IndexByte(s, '\n') && i != -1
    ensures Split(s) == Cut([s[..i]] + Split(s[i + 1..]).lines, Split(s[i + 1..]).rest)
  {
  }

  lemma UnsplitCons(h: string, t: seq<string>)
    ensures Unsplit([h] + t) == h + "\n" + Unsplit(t)
  {
    assert ([h] + t)[1..] == t;
  }

  lemma Recompose(s: string, i: int, u: string, r: string)
    requires 0 <= i < |s| && s[i] == '\n' && u + r == s[i + 1..]
    ensures s[..i] + "\n" + u + r == s
  {
    assert s == s[..i] + [s[i]] + s[i + 1..];
  }

  /** Cutting loses nothing: the lines with their newlines, then the rest, give the text back. */
  lemma {:induction false} SplitUnsplit(s: string)
    ensures Unsplit(Split(s).lines) + Split(s).rest == s
    decreases |s|
  {
    var i := IndexByte(s, '\n');
    if i != -1 {
      var tail := Split(s[i + 1..]);
      SplitUnsplit(s[i + 1..]);
      SplitStep(s, i);
      UnsplitCons(s[..i], tail.lines);
      Recompose(s, i, Unsplit(tail.lines), tail.rest);
    }
  }

  /** The first newline of `s + t` is that of `s` when `s` has one. */
  lemma IndexByteAppend(s: string, t: string, i: int)
    requires i == IndexByte(s, '\n') && i != -1
    ensures IndexByte(s + t, '\n') == i && (s + t)[..i] == s[..i] && (s + t)[i + 1..] == s[i + 1..] + t
  {
    assert (s + t)[..i] == s[..i];
    assert (s + t)[i] == '\n';
  }

  /** Cutting `s + t` starts like cutting `s`, when `s` has a newline. */
  lemma StepOfAppend(s: string, t: string, i: int)
    requires i == IndexByte(s, '\n') && i != -1
    ensures Split(s + t) == Cut([s[..i]] + Split(s[i + 1..] + t).lines, Split(s[i + 1..] + t).rest)
  {
    IndexByteAppend(s, t, i);
    SplitStep(s + t, i);
  }

  lemma SplitAppendStep(s: string, t: string, i: int, a: string, A: Cut, u: Cut)
    requires i == IndexByte(s, '\n') && i != -1
    requires a == s[i + 1..] && A == Split(a) && u == Split(A.rest + t)
    requires Split(a + t) == Cut(A.lines + u.lines, u.rest)
    ensures Split(s + t) == Cut(Split(s).lines + u.lines, u.rest)
    ensures Split(s).rest == A.rest
  {
    var h := s[..i];
    SplitStep(s, i);
    assert Split(s) == Cut([h] + A.lines, A.rest);
    StepOfAppend(s, t, i);
    assert Split(s + t) == Cut([h] + (A.lines + u.lines), u.rest);
    Assoc([h], A.lines, u.lines);
  }

  /** Cutting is independent of how the text was divided into writes. */
  lemma {:induction false} SplitAppend(s: string, t: string)
    ensures Split(s + t) == Cut(Split(s).lines + Split(Split(s).rest + t).lines, Split(Split(s).rest + t).rest)
    decreases |s|
  {
    var i := IndexByte(s, '\n');
    if i == -1 {
      assert Split(s) == Cut([], s);
      assert [] + Split(s + t).lines == Split(s + t).lines;
    } else {
      var a := s[i + 1..];
      SplitAppend(a, t);
      SplitAppendStep(s, t, i, a, Split(a), Split(Split(a).rest + t));
    }
  }

  /** A write that brings no newline to a buffer without one completes no line. */
  lemma SplitWithoutNewline(s: string)
    requires '\n' !in s
    ensures Split(s) == Cut([], s)
  {
  }

  // ---------------------------------------------------------------------------------------
  // Classifying one line

  const ToolMarker: string := "[tool] "
  const SpawnMarker: string := "[agent] Spawning sub-agent: "
  const DoneLine: string := "[agent] Sub-agent completed"

  /** parseLine: the event a stderr line stands for, if any. */
  function ParseLine(line: string): (r: Option<AgentEvent>)
    ensures r.Some? ==> r.value.ToolStartMsg? || r.value.SubAgentSpawnMsg? || r.value.SubAgentDoneMsg?
    ensures TrimSpace(line) == "" ==> r.None?
  {
    var t := TrimSpace(line);
    if t == "" then None
    else if HasPrefix(t, ToolMarker) then
      var rest := TrimPrefix(t, ToolMarker);
      if Contains(rest, ": permission denied") then None
      else if HasPrefix(rest, "Unknown tool:") then None
      else Some(ToolStartMsg("", rest, ""))
    else if HasPrefix(t, SpawnMarker) then Some(SubAgentSpawnMsg(TrimPrefix(t, SpawnMarker)))
    else if t == DoneLine then Some(SubAgentDoneMsg)
    else None
  }

  /**
   * A tool-start event comes exactly from a "[tool] " line whose name is neither a denial nor
   * an unknown tool, and carries that name.
   */
  lemma ToolStartLines(line: string)
    ensures var r, t := ParseLine(line), TrimSpace(line);
      && (r.Some? && r.value.ToolStartMsg? <==>
            HasPrefix(t, ToolMarker) && !Contains(t[|ToolMarker|..], ": permission denied")
            && !HasPrefix(t[|ToolMarker|..], "Unknown tool:"))
      && (r.Some? && r.value.ToolStartMsg? ==> r.value == ToolStartMsg("", t[|ToolMarker|..], ""))
  {
  }

  /** A spawn event comes exactly from a line with the spawn marker and not the tool marker, and carries the task. */
  lemma SpawnLines(line: string)
    ensures var r, t := ParseLine(line), TrimSpace(line);
      && (r.Some? && r.value.SubAgentSpawnMsg? <==> !HasPrefix(t, ToolMarker) && HasPrefix(t, SpawnMarker))
      && (r.Some? && r.value.SubAgentSpawnMsg? ==> r.value.task == t[|SpawnMarker|..])
  {
  }

  /** The done event comes from exactly the "[agent] Sub-agent completed" line. */
  lemma DoneLines(line: string)
    ensures ParseLine(line) == Some(SubAgentDoneMsg) <==> TrimSpace(line) == DoneLine
  {
    var t := TrimSpace(line);
    if HasPrefix(t, ToolMarker) {
      assert t != DoneLine by { assert t[1] == 't'; }
    }
  }

  /** The events of a sequence of lines, in line order. */
  function ParseAll(lines: seq<string>): seq<AgentEvent>
    decreases |lines|
  {
    if lines == [] then []
    else
      var pre := ParseAll(lines[..|lines| - 1]);
      match ParseLine(lines[|lines| - 1])
      case Some(e) => pre + [e]
      case None => pre
  }

  /** No line of stderr ever becomes a tool-result event. */
  lemma {:induction false} ParseAllNoToolResult(lines: seq<string>)
    ensures forall e :: e in ParseAll(lines) ==> !e.ToolResultMsg?
    decreases |lines|
  {
    if lines != [] {
      ParseAllNoToolResult(lines[..|lines| - 1]);
    }
  }

  lemma {:induction false} ParseAllAppend(a: seq<string>, b: seq<string>)
    ensures ParseAll(a + b) == ParseAll(a) + ParseAll(b)
    decreases |b|
  {
    if b == [] {
      assert a + b == a;
    } else {
      var b' := b[..|b| - 1];
      assert (a + b)[..|a + b| - 1] == a + b';
      ParseAllAppend(a, b');
    }
  }

  /** The agent's stderr: a line buffer whose complete lines are classified into events. */
  class ToolEventWriter {
    const events: EventChannel
    var buf: string

    ghost predicate Valid()
      reads this
    {
      '\n' !in buf
    }

    constructor (events: EventChannel)
      ensures Valid() && this.events == events && buf == ""
    {
      this.events := events;
      buf := "";
    }

    method Write(p: string) returns (n: nat, err: Option<string>)
      requires Valid()
      modifies this, events
      ensures Valid()
      ensures var c := Split(old(buf) + p);
        && buf == c.rest
        && events.queue == old(events.queue) + ParseAll(c.lines)
      ensures n == |p| && err.None?
    {
      buf := buf + p;
      ghost var whole := buf;
      ghost var done: seq<string> := [];
      while true
        invariant Split(whole).lines == done + Split(buf).lines
        invariant Split(whole).rest == Split(buf).rest
        invariant events.queue == old(events.queue) + ParseAll(done)
        modifies this`buf, events`queue
        decreases |buf|
      {
        var idx := IndexByte(buf, '\n');
        if idx < 0 {
          assert Split(buf) == Cut([], buf);
          assert done + [] == done;
          break;
        }
        var line := buf[..idx];
        CutStep(whole, buf, done, idx);
        buf := buf[idx + 1..];
        var e := ParseLine(line);
        if e.Some? {
          events.queue := events.queue + [e.value];
        }
        Assoc(old(events.queue), ParseAll(done), LineEvents(line));
        done := done + [line];
      }
      n, err := |p|, None;
    }
  }

  /** Taking the first line off the buffer keeps the cut of the whole text. */
  lemma CutStep(whole: string, buf: string, done: seq<string>, idx: int)
    requires idx == IndexByte(buf, '\n') && idx != -1
    requires Split(whole).lines == done + Split(buf).lines && Split(whole).rest == Split(buf).rest
    ensures Split(whole).lines == (done + [buf[..idx]]) + Split(buf[idx + 1..]).lines
    ensures Split(whole).rest == Split(buf[idx + 1..]).rest
    ensures ParseAll(done + [buf[..idx]]) == ParseAll(done) + LineEvents(buf[..idx])
  {
    var line := buf[..idx];
    SplitStep(buf, idx);
    Assoc(done, [line], Split(buf[idx + 1..]).lines);
    ParseAllAppend(done, [line]);
    ParseOne(line);
  }

  /** The events a sequence of writes to a fresh stderr writer produces. */
  function StderrEvents(writes: seq<string>): seq<AgentEvent> {
    ParseAll(Split(Concat(writes)).lines)
  }

  /** A single newline-free line followed by its newline cuts into exactly that line. */
  lemma LineAlone(line: string)
    requires '\n' !in line
    ensures Split(line + "\n") == Cut([line], "")
  {
    var s := line + "\n";
    assert s[|line|] == '\n' && s[..|line|] == line;
    assert IndexByte(s, '\n') == |line|;
    assert s[|line| + 1..] == "";
    SplitStep(s, |line|);
  }

  /** The events of one line: the one it stands for, if any. */
  function LineEvents(line: string): seq<AgentEvent> {
    match ParseLine(line)
    case Some(e) => [e]
    case None => []
  }

  lemma ParseOne(line: string)
    ensures ParseAll([line]) == LineEvents(line)
  {
    assert [line][..0] == [];
  }

  lemma OneLineEvents(line: string)
    requires '\n' !in line
    ensures StderrEvents([line + "\n"]) == LineEvents(line)
  {
    assert Concat([line + "\n"]) == line + "\n" by {
      assert [line + "\n"][..0] == [];
    }
    LineAlone(line);
    ParseOne(line);
  }

  lemma TwoLineEvents(first: string, second: string)
    requires '\n' !in first && '\n' !in second
    ensures StderrEvents([first + "\n", second + "\n"]) == LineEvents(first) + LineEvents(second)
  {
    var w := [first + "\n", second + "\n"];
    var s := first + "\n" + (second + "\n");
    assert Concat(w) == s by {
      assert w[..1] == [first + "\n"];
      assert [first + "\n"][..0] == [];
      assert Concat(w[..1]) == first + "\n";
      Assoc(first, "\n", second + "\n");
    }
    Appended(first + "\n", second + "\n");
    assert s[|first|] == '\n' && s[..|first|] == first by {
      Appended(first, "\n");
    }
    assert IndexByte(s, '\n') == |first|;
    assert s[|first| + 1..] == second + "\n";
    SplitStep(s, |first|);
    LineAlone(second);
    assert Split(s).lines == [first] + [second];
    ParseAllAppend([first], [second]);
    ParseOne(first);
    ParseOne(second);
  }

  /** What the two halves of a concatenation are. */
  lemma Appended(p: string, t: string)
    ensures HasPrefix(p + t, p) && (p + t)[..|p|] == p && (p + t)[|p|..] == t
  {
  }

  /** A tool name as the agent writes it after "[tool] ": no newline, no white space at its ends. */
  predicate PlainName(name: string) {
    name != [] && !IsSpace(name[0]) && !IsSpace(name[|name| - 1]) && '\n' !in name
  }

  /** A marker line "[tool] " + rest, already trimmed, is classified by `rest` alone. */
  lemma ToolLine(rest: string, last: char)
    requires rest != [] && rest[|rest| - 1] == last && !IsSpace(last)
    ensures ParseLine(ToolMarker + rest) ==
      if Contains(rest, ": permission denied") || HasPrefix(rest, "Unknown tool:") then None
      else Some(ToolStartMsg("", rest, ""))
  {
    var line := ToolMarker + rest;
    assert line[0] == '[' && line[|line| - 1] == last;
    TrimSpaceFixed(line);
    Appended(ToolMarker, rest);
  }

  lemma UnknownToolLine(name: string)
    requires PlainName(name)
    ensures ParseLine("[tool] Unknown tool: " + name) == None
  {
    var rest := "Unknown tool: " + name;
    assert "[tool] Unknown tool: " + name == ToolMarker + rest by {
      assert "[tool] Unknown tool: " == ToolMarker + "Unknown tool: ";
    }
    assert rest == "Unknown tool:" + (" " + name) by {
      assert "Unknown tool: " == "Unknown tool:" + " ";
    }
    Appended("Unknown tool:", " " + name);
    ToolLine(rest, name[|name| - 1]);
  }

  lemma DeniedLine(name: string)
    requires PlainName(name)
    ensures ParseLine("[tool] " + name + ": permission denied") == None
  {
    var rest := name + ": permission denied";
    Assoc(ToolMarker, name, ": permission denied");
    Appended(name, ": permission denied");
    assert OccursAt(rest, ": permission denied", |name|);
    ContainsAt(rest, ": permission denied", |name|);
    ToolLine(rest, 'd');
  }

  lemma StartLine(name: string)
    requires PlainName(name)
    requires !Contains(name, ": permission denied") && !HasPrefix(name, "Unknown tool:")
    ensures ParseLine("[tool] " + name) == Some(ToolStartMsg("", name, ""))
  {
    ToolLine(name, name[|name| - 1]);
  }

  lemma DiffersAt(s: string, p: string, i: nat)
    requires i < |s| && i < |p| && s[i] != p[i]
    ensures !HasPrefix(s, p) && s != p
  {
  }

  /** A line that starts like "[t...:" and does not end in white space stands for no event. */
  lemma TaggedLine(tag: string, name: string)
    requires |tag| > 5 && tag[0] == '[' && tag[1] == 't' && tag[5] == ':'
    requires PlainName(name)
    ensures ParseLine(tag + name) == None
  {
    TaggedLineTrimmed(tag, name);
    TaggedLineUnmarked(tag, name);
    Unmarked(tag + name);
  }

  lemma TaggedLineTrimmed(tag: string, name: string)
    requires |tag| > 0 && tag[0] == '['
    requires PlainName(name)
    ensures TrimSpace(tag + name) == tag + name
  {
    var line := tag + name;
    Appended(tag, name);
    assert line[0] == '[' && line[|line| - 1] == name[|name| - 1];
    TrimSpaceFixed(line);
  }

  lemma TaggedLineUnmarked(tag: string, name: string)
    requires |tag| > 5 && tag[0] == '[' && tag[1] == 't' && tag[5] == ':'
    requires PlainName(name)
    ensures var line := tag + name;
      !HasPrefix(line, ToolMarker) && !HasPrefix(line, SpawnMarker) && line != DoneLine
  {
    var line := tag + name;
    assert line[1] == 't' && line[5] == ':';
    NoMarker(line);
  }

  lemma NoMarker(line: string)
    requires |line| > 5 && line[1] == 't' && line[5] == ':'
    ensures !HasPrefix(line, ToolMarker) && !HasPrefix(line, SpawnMarker) && line != DoneLine
  {
    DiffersAt(line, ToolMarker, 5);
    DiffersAt(line, SpawnMarker, 1);
    DiffersAt(line, DoneLine, 1);
  }

  /** The "[tool:done]" and "[tool:error]" markers stand for no event. */
  lemma FinishLine(name: string, tag: string)
    requires PlainName(name)
    requires tag == "[tool:done] " || tag == "[tool:error] "
    ensures ParseLine(tag + name) == None
  {
    assert tag[0] == '[' && tag[1] == 't' && tag[5] == ':';
    TaggedLine(tag, name);
  }

  /** A trimmed line that carries none of the markers stands for no event. */
  lemma Unmarked(line: string)
    requires TrimSpace(line) == line
    requires !HasPrefix(line, ToolMarker) && !HasPrefix(line, SpawnMarker) && line != DoneLine
    ensures ParseLine(line) == None
  {
  }

  /**
   * What the bridge makes of the markers one tool dispatch writes: a tool-start event
   * exactly when the tool ran, and never a tool-result event.
   */
  lemma DispatchEvents(tools: map<string, Tool>, tc: ToolCall, env: AgentLoop.Env)
    requires PlainName(tc.func.name)
    requires !Contains(tc.func.name, ": permission denied") && !HasPrefix(tc.func.name, "Unknown tool:")
    ensures var d := AgentLoop.Dispatch(tools, tc, env);
      StderrEvents(d.markers) == if d.executed then [ToolStartMsg("", tc.func.name, "")] else []
  {
    var name := tc.func.name;
    var d := AgentLoop.Dispatch(tools, tc, env);
    if name !in tools {
      var line := "[tool] Unknown tool: " + name;
      assert d.markers == [line + "\n"];
      assert '\n' !in line;
      OneLineEvents(line);
      UnknownToolLine(name);
    } else if AgentLoop.Denied(tools, tc, env) {
      var line := "[tool] " + name + ": permission denied";
      Assoc("[tool] " + name, ": permission denied", "\n");
      assert ": permission denied" + "\n" == ": permission denied\n";
      assert d.markers == [line + "\n"];
      assert '\n' !in line;
      OneLineEvents(line);
      DeniedLine(name);
    } else {
      var tag := if env.execute(name, tc.func.arguments).Ok? then "[tool:done] " else "[tool:error] ";
      var first, second := "[tool] " + name, tag + name;
      assert d.markers == [first + "\n", second + "\n"];
      assert '\n' !in first && '\n' !in second;
      TwoLineEvents(first, second);
      StartLine(name);
      FinishLine(name, tag);
    }
  }

  // ---------------------------------------------------------------------------------------
  // Permission requests

  /** generateID: "perm-" and a counter that only goes up. */
  class IdGenerator {
    var counter: nat
    ghost var issued: seq<string>

    ghost predicate Valid()
      reads this
    {
      |issued| == counter && forall i :: 0 <= i < |issued| ==> issued[i] == "perm-" + NatToString(i + 1)
    }

    constructor ()
      ensures Valid() && counter == 0 && issued == []
    {
      counter := 0;
      issued := [];
    }

    method Generate() returns (id: string)
      requires Valid()
      modifies this
      ensures Valid()
      ensures counter == old(counter) + 1 && id == "perm-" + NatToString(counter)
      ensures issued == old(issued) + [id]
      ensures id !in old(issued)
    {
      counter := counter + 1;
      id := "perm-" + NatToString(counter);
      forall i | 0 <= i < |issued| ensures issued[i] != id {
        if issued[i] == id {
          assert NatToString(i + 1) == issued[i][5..] == id[5..] == NatToString(counter);
          NatToStringInjective(i + 1, counter);
        }
      }
      issued := issued + [id];
    }
  }

  /** Every two identifiers the generator has handed out differ. */
  lemma IdsDistinct(g: IdGenerator, i: nat, j: nat)
    requires g.Valid() && i < j < |g.issued|
    ensures g.issued[i] != g.issued[j]
  {
    if g.issued[i] == g.issued[j] {
      assert g.issued[i][5..] == NatToString(i + 1) && g.issued[j][5..] == NatToString(j + 1);
      NatToStringInjective(i + 1, j + 1);
    }
  }

  /** PermissionInterceptor: a permission question becomes a request event; the user's answer comes back. */
  class PermissionInterceptor {
    const events: EventChannel
    const ids: IdGenerator

    constructor (events: EventChannel, ids: IdGenerator)
      ensures this.events == events && this.ids == ids
    {
      this.events := events;
      this.ids := ids;
    }

    /** `answer` is what the front end sends back on the request's reply channel. */
    method Check(toolName: string, preview: string, answer: bool) returns (allowed: bool)
      requires ids.Valid()
      modifies events, ids
      ensures ids.Valid() && ids.counter == old(ids.counter) + 1
      ensures events.queue == old(events.queue)
        + [PermissionRequestMsg("perm-" + NatToString(ids.counter), toolName, preview, ids.counter)]
      ensures allowed == answer
    {
      var id := ids.Generate();
      events.queue := events.queue + [PermissionRequestMsg(id, toolName, preview, ids.counter)];
      allowed := answer;
    }
  }

  /** NewBridge: one channel behind the stdout writer, the stderr writer and the permission handler. */
  class Bridge {
    const events: EventChannel
    const stdout: EventWriter
    const stderr: ToolEventWriter
    const perm: PermissionInterceptor

    constructor (ids: IdGenerator)
      ensures fresh(events) && events.queue == []
      ensures stdout.events == events && stderr.events == events && perm.events == events
      ensures stderr.Valid() && stderr.buf == "" && perm.ids == ids
    {
      var ch := new EventChannel();
      events := ch;
      stdout := new EventWriter(ch);
      stderr := new ToolEventWriter(ch);
      perm := new PermissionInterceptor(ch, ids);
    }
  }
}
