/**
 * The project context (internal/context/project.go): the instruction file and memory a
 * session starts from, and the system prompt built from them. filepath.Abs, reading a file,
 * memory.Load, runtime.GOOS and the date are parameters.
 */
module Project {
  import opened Wrappers
  import opened Text
  import opened FilePath

  datatype ProjectContext = ProjectContext(workingDir: string, instructions: string, memory: string, platform: string, date: string)

  /** What os.ReadFile gave. */
  datatype FileRead = Contents(data: string) | NotExist | ReadFailed(msg: string)

  /** The instruction files, in priority order. */
  const InstructionFiles: seq<string> := [Preferred, Fallback]
  const Preferred: string := "STORMTROOPER.md"
  const Fallback: string := "CLAUDE.md"

  const Identity: string := "You are Stormtrooper, an AI coding assistant. You help developers by reading, editing, and searching code, running commands, and managing project context. Use the available tools to interact with the codebase."
  const InstructionsHeading: string := "\n\n# Project Instructions\n\n"
  const MemoryHeading: string := "\n\n# Memory\n\n"

  /** The contents of the first of `names` that exists in `dir`, "" when none does; any other read error stops the search. */
  function FirstInstructions(dir: string, names: seq<string>, read: string -> FileRead): Result<string> {
    if names == [] then Ok("")
    else
      match read(Join2(dir, names[0]))
      case NotExist => FirstInstructions(dir, names[1..], read)
      case ReadFailed(e) => Err("read " + names[0] + ": " + e)
      case Contents(data) => Ok(data)
  }

  /** What Load returns; `abs` is what filepath.Abs gave for the directory and `memory` what memory.Load gave. */
  function Loaded(abs: Result<string>, read: string -> FileRead, memory: Result<string>, platform: string, date: string): Result<ProjectContext> {
    if abs.Err? then Err("resolve directory: " + abs.error)
    else
      match FirstInstructions(abs.value, InstructionFiles, read)
      case Err(e) => Err(e)
      case Ok(instructions) =>
        if memory.Err? then Err("load memory: " + memory.error)
        else Ok(ProjectContext(abs.value, instructions, memory.value, platform, date))
  }

  method Load(abs: Result<string>, read: string -> FileRead, memory: Result<string>, platform: string, date: string) returns (pc: Result<ProjectContext>)
    ensures pc == Loaded(abs, read, memory, platform, date)
  {
    if abs.Err? {
      return Err("resolve directory: " + abs.error);
    }
    var absDir := abs.value;
    var instructions := "";
    var i := 0;
    while i < |InstructionFiles|
      invariant i <= |InstructionFiles|
      invariant FirstInstructions(absDir, InstructionFiles, read) == FirstInstructions(absDir, InstructionFiles[i..], read)
    {
      var name := InstructionFiles[i];
      var data := read(Join2(absDir, name));
      if data.NotExist? {
        i := i + 1;
        continue;
      }
      if data.ReadFailed? {
        return Err("read " + name + ": " + data.msg);
      }
      instructions := data.data;
      break;
    }
    if memory.Err? {
      return Err("load memory: " + memory.error);
    }
    return Ok(ProjectContext(absDir, instructions, memory.value, platform, date));
  }

  /** The environment section, always the last. */
  function Environment(pc: ProjectContext): string {
    "\n\n# Environment\n" + "- Working directory: " + pc.workingDir + "\n" + "- Platform: " + pc.platform + "\n" + "- Date: " + pc.date + "\n"
  }

  /** A heading and its text, or nothing when the text is empty. */
  function Section(heading: string, body: string): string {
    if body == "" then "" else heading + body
  }

  /** BuildSystemPrompt: identity, instructions, memory, environment. */
  function SystemPrompt(pc: ProjectContext): (s: string)
    ensures HasPrefix(s, Identity) && HasSuffix(s, Environment(pc))
  {
    var head := Identity + Section(InstructionsHeading, pc.instructions);
    assert (head + Section(MemoryHeading, pc.memory))[..|Identity|] == Identity;
    head + Section(MemoryHeading, pc.memory) + Environment(pc)
  }

  // ---------------------------------------------------------------------------------------
  // What the context promises

  /** STORMTROOPER.md wins over CLAUDE.md; CLAUDE.md is used only when STORMTROOPER.md does not exist. */
  lemma InstructionPriority(dir: string, read: string -> FileRead)
    ensures var first, second := read(Join2(dir, Preferred)), read(Join2(dir, Fallback));
      FirstInstructions(dir, InstructionFiles, read) ==
        if first.Contents? then Ok(first.data)
        else if first.ReadFailed? then Err("read " + Preferred + ": " + first.msg)
        else if second.Contents? then Ok(second.data)
        else if second.ReadFailed? then Err("read " + Fallback + ": " + second.msg)
        else Ok("")
  {
    var rest := InstructionFiles[1..];
    assert rest == [Fallback];
    assert FirstInstructions(dir, rest[1..], read) == Ok("");
  }

  /** A section appears exactly when its text is non-empty: dropping the text changes the prompt just then. */
  lemma SectionsIff(pc: ProjectContext)
    ensures SystemPrompt(pc) == SystemPrompt(pc.(instructions := "")) <==> pc.instructions == ""
    ensures SystemPrompt(pc) == SystemPrompt(pc.(memory := "")) <==> pc.memory == ""
  {
    var noI, noM := pc.(instructions := ""), pc.(memory := "");
    assert Environment(noI) == Environment(pc) && Environment(noM) == Environment(pc);
    if pc.instructions != "" {
      assert |SystemPrompt(pc)| > |SystemPrompt(noI)|;
    }
    if pc.memory != "" {
      assert |SystemPrompt(pc)| > |SystemPrompt(noM)|;
    }
  }

  /** With both texts, the sections stand in the order identity, instructions, memory, environment. */
  lemma SectionOrder(pc: ProjectContext)
    requires pc.instructions != "" && pc.memory != ""
    ensures var s, i := SystemPrompt(pc), InstructionsHeading + pc.instructions;
      var m := MemoryHeading + pc.memory;
      && OccursAt(s, i, |Identity|)
      && OccursAt(s, m, |Identity| + |i|)
      && OccursAt(s, Environment(pc), |Identity| + |i| + |m|)
      && |s| == |Identity| + |i| + |m| + |Environment(pc)|
  {
    var i, m, e := InstructionsHeading + pc.instructions, MemoryHeading + pc.memory, Environment(pc);
    var s := SystemPrompt(pc);
    assert s == Identity + i + m + e;
    assert s[|Identity|..|Identity| + |i|] == i;
    assert s[|Identity| + |i|..|Identity| + |i| + |m|] == m;
    assert s[|Identity| + |i| + |m|..] == e;
  }

  /** Without either text the prompt is the identity and the environment. */
  lemma MinimalPrompt(pc: ProjectContext)
    requires pc.instructions == "" && pc.memory == ""
    ensures SystemPrompt(pc) == Identity + Environment(pc)
  {
  }
}
