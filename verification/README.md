# stormtrooper, modelled in Dafny

stormtrooper is a terminal coding assistant. A user types a request. The agent sends the
conversation to an OpenAI-compatible chat-completion endpoint (OpenRouter by default) and
reads the answer as a Server-Sent Events stream. It folds the streamed deltas into one
assistant message and shows the text as it arrives. When the answer asks for tools, the agent
runs them one by one, behind a permission gate, and loops until an answer asks for none.

The project models the sequential core of that program:

- **Streamed answers** (`stream.dfy`): the `data: ` line framing with its `[DONE]` sentinel,
  the delta accumulator that merges tool-call fragments by index, and the clean-up of
  content that leaks next to tool calls.
- **The agent** (`agent.dfy`, `spawn.dfy`): the append-only history, the streaming display
  filter, tool dispatch (unknown tool, permission, tool error, result), and the
  `spawn_agent` tool that runs a child agent and maps its outcome to text.
- **Tools** (`registry.dfy`, `edit_file.dfy`, `memory_write.dfy`, `grep.dfy`, `glob.dfy`,
  `permission.dfy`): the registry with its order list, replace-once editing, memory-directory
  containment, the grep and glob walks with their filters and limits, and the line-prompt
  approval rule.
- **Configuration and context** (`config.dfy`, `project.dfy`): last-non-empty-wins layering
  of defaults, files, environment and flag, and the system prompt assembled from the
  instruction file and the memory.
- **Line-mode front end** (`repl_input.dfy`, `repl.dfy`): backslash continuation and the REPL
  loop's termination rules.
- **Terminal front end** (`bridge.dfy`, `app.dfy`, `chat.dfy`, `sidebar.dfy`,
  `input_box.dfy`, `statusbar.dfy`, `tui_events.dfy`): the bridge that turns the agent's
  output into events, and the Bubble Tea models' state updates. The top-level model counts
  the outstanding event listeners.

Shared definitions are in `wrappers.dfy` (Go's `(value, error)` pairs), `text.dfy` (the
`strings` functions used, on `seq<char>`), `file_path.dfy` (Clean and Join on
`/`-separated paths), `file_tree.dfy` (the tree a walk visits), `llm_types.dfy` and
`tool_types.dfy`.

Everything outside the program's own logic is a parameter. This covers the LLM endpoint
(a script of replies), JSON and YAML decoding, regular expressions, `filepath.Match` and
`filepath.Glob`, the file system, the environment, the clock and the platform name. Where
the Go code changes state in place, the model is a class whose methods are proved against a
reference function of the old state. Where it computes a value, the model is a function
with lemmas.

## Model

| member | source | states |
|---|---|---|
| Stream.Classify | internal/llm/stream.go:25-35 | a scanner line is skipped exactly when it is blank or lacks the `data: ` prefix, is the end marker exactly when it reads `data: [DONE]`, and otherwise carries the text after the prefix, which is not `[DONE]` |
| Stream.ParseSSEStream | internal/llm/stream.go:18-52 | the chunks handed to the callback and the error returned are those of the line-by-line reference parse |
| Stream.ParseDelivers | internal/llm/stream.go:22-51 | the callback gets one decoded chunk per payload before the end marker, in input order; the first payload that does not decode is not delivered and ends the parse with its wrapped error; otherwise the parse succeeds after `[DONE]` or returns the scanner's wrapped error |
| Stream.ParseSkipsNonRecords | internal/llm/stream.go:25-31 | blank lines and lines without the `data: ` prefix never change the outcome |
| Stream.ParseStopsAtDone | internal/llm/stream.go:35-37 | nothing after `data: [DONE]` is read: neither later lines nor a later read error matter |
| Stream.MergeStepAt | internal/llm/stream.go:80-103 | one more tool-call fragment creates the entry of its index or extends it, leaving every other index's entry as the merge of its own fragments |
| Stream.ToolDeltasMergeByIndex | internal/llm/stream.go:80-103 | after any fragments there is an entry for exactly the indices seen, each the merge of that index's fragments: last non-empty id and type, concatenated names and arguments |
| Stream.ApplyDeltasFields | internal/llm/stream.go:70-105 | folding the deltas one by one equals taking the concatenated content, the last non-empty role and the merged fragments field by field |
| Stream.AccumulatedSpec | internal/llm/stream.go:69-105 | after any chunks the accumulator holds the in-order concatenation of the content fragments, the last non-empty role, and per index the merge of its fragments |
| Stream.MaxKey | internal/llm/stream.go:119-124 | the largest index, which is an index present, or 0 when no index exceeds 0 |
| Stream.OrderedCallsSpec | internal/llm/stream.go:119-129 | the message lists one call per distinct non-negative index, in strictly ascending index order whatever the arrival order; a negative index is dropped |
| Stream.LooksLikeToolCallJSONIff | internal/llm/stream.go:173-186 | text is taken for leaked tool-call JSON exactly when, once trimmed, it contains `{` and ends with `}` |
| Stream.CleanToolCallContent | internal/llm/stream.go:143-157 | the cleaned content is no longer than the input, carries no leading or trailing white space and never itself looks like tool-call JSON |
| Stream.CleanKeepsProse | internal/llm/stream.go:143-157 | text with no special token, no surrounding white space and no `{`…`}` shape comes back unchanged |
| Stream.CleanDropsLeakedArguments | internal/llm/stream.go:143-157 | text that, stripped of the tokens and trimmed, contains `{` and ends with `}` is dropped whole |
| Stream.MessageOf | internal/llm/stream.go:111-138 | the message keeps the role; content is cleaned only when some tool call was seen, and without tool calls it is the raw content with no calls |
| Stream.DeltaAccumulator.constructor | internal/llm/stream.go:62-66 | a new accumulator is empty and has seen no chunk |
| Stream.DeltaAccumulator.Add | internal/llm/stream.go:69-106 | after Add the fields are exactly the accumulation of every chunk added so far, this one last |
| Stream.DeltaAccumulator.ApplyDelta | internal/llm/stream.go:71-104 | one choice's delta: role replaced when non-empty, content appended, fragments merged |
| Stream.DeltaAccumulator.MergeToolCallDeltas | internal/llm/stream.go:80-104 | the tool-call map after the loop is the fold of the fragments over the old map |
| Stream.DeltaAccumulator.Message | internal/llm/stream.go:111-138 | the returned message is the one MessageOf describes for the accumulated state |
| FilePath.CleanRender | internal/tool/memory_write.go:63-64 | cleaning the text of a cleaned absolute path gives the same path back |
| FilePath.PrefixSlash | internal/tool/memory_write.go:75 | with a separator after each, one absolute path's text leads the other's exactly when its names lead the other's names |
| FilePath.Contained | internal/tool/memory_write.go:75 | the text test "equal to the directory, or prefixed by it and a separator" on two cleaned absolute paths holds exactly when the directory's names lead the path's names, unless the directory is the root |
| FilePath.RootContainsOnlyItself | internal/tool/memory_write.go:75 | when the directory is the root, the same text test accepts only the root itself |
| MemoryWrite.Abs | internal/tool/memory_write.go:64-72 | filepath.Abs of an absolute path is that path cleaned, with no error |
| MemoryWrite.PathRequired | internal/tool/memory_write.go:58-60 | an empty file_path is refused with its message whatever else holds |
| MemoryWrite.Resolves | internal/tool/memory_write.go:63-69 | for an absolute memory directory both compared paths are the rendered names of the cleaned join and of the directory |
| MemoryWrite.Containment | internal/tool/memory_write.go:62-88 | a path whose resolved names the directory's names do not lead is refused and nothing is written; any other is written at its resolved path unless creating its directory fails; whenever a write is attempted it is at the resolved path, which lies inside |
| MemoryWrite.NestedStaysInside | internal/tool/memory_write.go:63-77 | a relative path of plain names resolves to those names below the directory and is accepted |
| MemoryWrite.ClimbingEscapes | internal/tool/memory_write.go:63-77 | a path that climbs k levels and then names anything other than the k directories it left resolves to names the directory's names do not lead, so Containment refuses it |
| MemoryWrite.PreviewNamesTarget | internal/tool/memory_write.go:44-51 | the permission preview names exactly the path that Execute writes, and its byte count |
| Grep.Hits | internal/tool/grep.go:160-166 | the indices of exactly the lines the expression matches, strictly ascending, each once |
| Grep.GrepFile | internal/tool/grep.go:150-168 | a file that cannot be opened gives no matches; otherwise its matching lines in line order |
| Grep.FileMatchesAreHits | internal/tool/grep.go:159-165 | the k-th match of a file is "path:N:line" for the k-th matching line, N counted from 1 |
| Grep.IsBinary | internal/tool/grep.go:172-190 | a file is binary exactly when it opens and one of its first 512 bytes is zero; an unopenable or empty file is not |
| Grep.Search.constructor | internal/tool/grep.go:111-112 | a new walk has the query and no matches |
| Grep.Search.Visit | internal/tool/grep.go:114-146 | corrected (a root named in skipDirs is entered): the callback for one entry and the walk below it leave the matches and the stop flag the reference walk gives |
| Grep.Search.VisitChildren | internal/tool/grep.go:114-146 | a directory's entries, visited in order until one stops the walk, leave what the reference walk of its entries gives |
| Grep.GrepDir | internal/tool/grep.go:111-148 | corrected (a root named in skipDirs is searched): the matches grepDir returns are those of the reference walk from the root |
| Grep.Execute | internal/tool/grep.go:60-109 | corrected (the directory walk searches a root named in skipDirs): the tool's text is the reference result: parameter, pattern, regex, working-directory and stat errors, then the report on the matches of the directory walk or of the single file |
| Grep.GreppedStops | internal/tool/grep.go:118-120 | once a callback has returned SkipAll, the remaining entries change nothing |
| Grep.GreppedExtends | internal/tool/grep.go:143-144 | the walk only appends: what was collected before stays in front |
| Grep.SkippedDirectory | internal/tool/grep.go:122-126 | a directory below the root whose name is in skipDirs or starts with "." is not entered |
| Grep.Excluded | internal/tool/grep.go:131-136 | with an include pattern, a file whose base name it does not match is not searched |
| Grep.BinarySkipped | internal/tool/grep.go:139-141 | a binary file is not searched |
| Grep.ReportIgnoresTail | internal/tool/grep.go:98-107 | two match lists that share their first 500 give the same text: those 500 joined by newlines and the truncation notice |
| Grep.ReportsAll | internal/tool/grep.go:94-104 | up to 500 matches are all shown, one per line; no matches give the message naming the pattern |
| Grep.PatternChecked | internal/tool/grep.go:65-72 | an empty pattern or one that does not compile is refused with its message before anything is read |
| Grep.SkipDirRootAsWritten | internal/tool/grep.go:122-126 | as written, a search rooted at a directory whose own name is in skipDirs finds nothing |
| Grep.VendorRootExample | internal/tool/grep.go:122-126 | a root named "vendor" holding one file with one matching line: as written nothing is found, corrected the line is |
| Grep.RootNameIgnored | internal/tool/grep.go:122-126 | corrected: the root is always entered, so its own name never changes the result |
| Glob.SplitOnce | internal/tool/glob.go:96-100 | one part exactly when the separator does not occur; otherwise the text before its leftmost occurrence and the text after it, which rebuild the input |
| Glob.Collector.constructor | internal/tool/glob.go:113 | a new walk has the suffix, the matcher and no matches |
| Glob.Collector.Visit | internal/tool/glob.go:114-153 | the callback for one entry and the walk below it leave the matches and the stop flag the reference walk gives |
| Glob.Collector.VisitChildren | internal/tool/glob.go:114-153 | a directory's entries, visited in order until one stops the walk, leave what the reference walk gives |
| Glob.RecursiveGlob | internal/tool/glob.go:94-155 | the paths returned are those of the reference walk from the root the pattern's prefix selects, matched against its suffix |
| Glob.Execute | internal/tool/glob.go:43-91 | the tool's text is the reference result: parameter, pattern and working-directory errors, the recursive walk for a pattern with "**", filepath.Glob otherwise, then the report |
| Glob.GlobbedStops | internal/tool/glob.go:118-120 | once a callback has returned SkipAll, the remaining entries change nothing |
| Glob.DoubleStarSplit | internal/tool/glob.go:96-111 | a pattern "prefix**/suffix" whose prefix holds no '*' and ends in one separator walks the prefix's directory below the root and matches against the suffix |
| Glob.FirstDoubleStar | internal/tool/glob.go:96 | a prefix without '*' puts the first "**" right after it |
| Glob.HiddenSkipped | internal/tool/glob.go:123-125 | a directory below the root whose name starts with "." is not entered |
| Glob.FileListed | internal/tool/glob.go:127-152 | a file is listed, by its path, exactly when the suffix is empty or matches its name or its path relative to the root |
| Glob.GlobbedBounded | internal/tool/glob.go:118-120 | a walk started with at most 2000 paths never ends with more |
| Glob.ReportIgnoresTail | internal/tool/glob.go:76-90 | results past the 1000th never show: lists sharing their first 1000 give the same text, those 1000 and the truncation notice |
| Glob.SimplePattern | internal/tool/glob.go:63-74 | a pattern without "**" is answered by filepath.Glob alone; the tree is never walked |
| Glob.PatternRequired | internal/tool/glob.go:48-50 | an empty pattern is refused with its message |
| EditFile.RequiredBeforeRead | internal/tool/edit_file.go:59-64 | a missing path or old string is refused with its message before the file is read, and nothing is written |
| EditFile.MissingFile | internal/tool/edit_file.go:66-70 | a file that does not exist is reported by name and nothing is written |
| EditFile.WrittenIffUnique | internal/tool/edit_file.go:74-87 | the file is written exactly when the old string occurs in it exactly once |
| EditFile.Absent | internal/tool/edit_file.go:78-79 | no occurrence gives the "not found" error naming the file, and nothing is written |
| EditFile.Ambiguous | internal/tool/edit_file.go:82-83 | several occurrences give an error stating how many, and nothing is written |
| EditFile.UniqueEdit | internal/tool/edit_file.go:80-90 | with one occurrence the contents split around it into a before and an after that hold no other occurrence; the new contents put the new string in its place, and their length changes by the difference of the two strings |
| EditFile.PreviewShowsEdit | internal/tool/edit_file.go:46-52 | the permission preview names the path and shows the old and the new string |
| ToolRegistry.DefinitionOf | internal/tool/registry.go:40-47 | a tool's definition has type "function" and carries its name, description and schema |
| ToolRegistry.Registry.constructor | internal/tool/registry.go:12-16 | a new registry holds no tool |
| ToolRegistry.Registry.Register | internal/tool/registry.go:20-27 | a new name maps to its tool and is appended to the registration order; the registry stays consistent |
| ToolRegistry.Registry.Get | internal/tool/registry.go:30-32 | a tool is found exactly when its name was registered, and it is the tool registered under that name |
| ToolRegistry.Registry.Definitions | internal/tool/registry.go:36-50 | one definition per registered tool, in registration order, each named after its tool |
| ToolRegistry.RegisterAll | internal/tool/registry.go:20-27 | registering distinct names in turn gives back those names in that order, each bound to its tool |
| Permission.Prompt | internal/permission/permission.go:36 | the prompt opens with "[permission]" and the tool name and ends with the preview and "[y/n]: " |
| Permission.Decide | internal/permission/permission.go:38-43 | approved exactly when a line was read and its trimmed text approves |
| Permission.ApprovesWord | internal/permission/permission.go:42-43 | a trimmed, non-empty answer approves exactly when it starts with 'y' or 'Y' |
| Permission.ApprovesIgnoresLeadingSpace | internal/permission/permission.go:42 | white space before the answer does not change the decision |
| Permission.Checker.constructor | internal/permission/permission.go:28-30 | a new checker has written nothing |
| Permission.Checker.Check | internal/permission/permission.go:35-44 | Check writes the prompt once and answers Decide of the line read; name and preview play no part in the decision |
| Spawn.Preview | internal/agent/spawn.go:61-71 | undecodable parameters give the fixed message; otherwise "Spawn sub-agent: " and the task cut to 80 bytes plus "..." |
| Spawn.ChildSystemPrompt | internal/agent/spawn.go:93 | the child's prompt is the fixed introduction, the whole task and the fixed closing line |
| Spawn.ChildSystemPromptInjective | internal/agent/spawn.go:93 | different tasks give different child prompts |
| Spawn.ChildModel | internal/agent/spawn.go:82-85 | the requested model when one is given, the parent's otherwise |
| Spawn.ResultText | internal/agent/spawn.go:126-138 | cancellation, an error, no output and output each give their text, which is never empty |
| Spawn.ChildOutcome | internal/agent/spawn.go:115-123 | a panic becomes an error naming it; otherwise the child's printed output and its error |
| Spawn.SpawnAgentTool.constructor | internal/agent/spawn.go:25-32 | the tool holds the registry and the parent's model and has run nothing |
| Spawn.SpawnAgentTool.RunChild | internal/agent/spawn.go:96-123 | the child runs one turn on the task with the child prompt and model; its stdout is the output and its stderr goes through |
| Spawn.SpawnAgentTool.Execute | internal/agent/spawn.go:73-139 | bad parameters and an empty task are refused without running anything; otherwise one child runs with the chosen model and prompt, the result text follows its outcome unless cancellation wins the race, and stderr gets the spawning and completion lines |
| Spawn.PrefixWriter.constructor | internal/agent/spawn.go:143-146 | a new writer has written nothing |
| Spawn.PrefixWriter.Write | internal/agent/spawn.go:148-155 | a write that succeeds passes on the prefixed bytes and reports the length of the unprefixed ones; a failed one reports 0 and the error |
| AgentLoop.TruncateArgs | internal/agent/agent.go:213-218 | text within the limit is kept whole; longer text keeps its first maxLen bytes followed by "..." |
| AgentLoop.StripSpecialTokens | internal/agent/agent.go:221-226 | each special token, in list order, is removed wherever it occurs |
| AgentLoop.StripLeavesCleanText | internal/agent/agent.go:221-226 | text holding no special token passes through unchanged |
| AgentLoop.DisplayChunk | internal/agent/agent.go:112-132 | the display callback writes exactly the display pieces of the chunk's choices, in order |
| AgentLoop.ShownSpec | internal/agent/agent.go:113-131 | every write is non-empty and is the token-stripped content of a choice that carries no tool-call fragment |
| AgentLoop.ChatCompletionStream | internal/llm/client.go:73-111 | every decoded chunk is added to the accumulator and then displayed; the result is the accumulated message, or the stream's error |
| AgentLoop.PermissionPreview | internal/agent/agent.go:171-176 | a tool without its own preview is shown as its name with the arguments, cut to 200 bytes, in parentheses |
| AgentLoop.Dispatch | internal/agent/agent.go:162-193 | a tool runs exactly when it is registered and not denied; an unknown tool, a denial, a tool error and a result each give their text, and the "[tool] name" marker is written exactly when the tool runs |
| AgentLoop.DispatchAll | internal/agent/agent.go:147-155 | one tool message per call of the round |
| AgentLoop.DispatchAllAnswers | internal/agent/agent.go:147-155 | the i-th tool message carries the i-th call's id, its function name and its dispatch result |
| AgentLoop.TurnAdvance | internal/agent/agent.go:96-158 | one more round either ends the loop with what it did or leaves the rest of the loop to run from the next reply |
| AgentLoop.RoundsCons | internal/agent/agent.go:138-155 | an assistant message with tool calls, its answers and well-formed later rounds form well-formed rounds |
| AgentLoop.TurnRounds | internal/agent/agent.go:95-159 | what a loop appends is rounds of an assistant message with tool calls answered one tool message per call, in call order, ending with an assistant message without tool calls exactly when the loop succeeds |
| AgentLoop.TurnErrors | internal/agent/agent.go:98-135 | a loop fails only by cancellation, by a failed request, or by running out of scripted replies |
| AgentLoop.TurnRequests | internal/agent/agent.go:96-112 | each request takes one scripted reply, and none is made exactly when the context is already cancelled or no reply is left |
| AgentLoop.Agent.constructor | internal/agent/agent.go:51-69 | the history starts with the system message when the prompt is non-empty and is empty otherwise; nothing is written yet |
| AgentLoop.Agent.ExecuteTool | internal/agent/agent.go:162-193 | executeTool returns the dispatch result and writes its markers to stderr |
| AgentLoop.Agent.RunToolCalls | internal/agent/agent.go:147-155 | the history grows by one tool message per call, in order, and stderr by their markers |
| AgentLoop.Agent.Absorb | internal/agent/agent.go:133-155 | once a request has answered, history, stdout, stderr and the decision to stop follow the reference round |
| AgentLoop.Agent.Round | internal/agent/agent.go:103-155 | one round changes history, stdout and stderr as the reference round does and stops when it does |
| AgentLoop.Agent.Loop | internal/agent/agent.go:95-159 | the loop appends, writes and returns what the reference loop gives on the scripted replies |
| AgentLoop.Agent.Send | internal/agent/agent.go:85-92 | the user's message is appended, then the loop runs on the scripted replies |
| ReplInput.Scanner.constructor | internal/repl/input.go:33-38 | a new scanner stands before the first line |
| ReplInput.Scanner.Scan | internal/repl/input.go:54-61 | Scan succeeds exactly while lines remain, yielding the next line and moving past it; at the end it reads nothing |
| ReplInput.Terminator | internal/repl/input.go:63-70 | the first line that does not end in a backslash, every earlier line ending in one, or none |
| ReplInput.Pieces | internal/repl/input.go:63-66 | each collected continued line without its trailing backslash |
| ReplInput.Read | internal/repl/input.go:42-74 | a read succeeds exactly when it ends on a line without a trailing backslash; a failed read returns no text, consumes every remaining line and gives the stream's end error |
| ReplInput.InputReader.constructor | internal/repl/input.go:33-38 | a new reader has written no prompt |
| ReplInput.InputReader.ReadInput | internal/repl/input.go:42-74 | "> " and then ". " before each further line; the lines ending in a backslash are collected without it up to the first other line, joined by newlines; a stream that ends first gives its error, or EOF, and drops what was collected |
| ReplInput.ReadProgress | internal/repl/input.go:48-71 | a read that succeeds consumes at least one line, and a failed read consumes the rest |
| ReplInput.ReadSticky | internal/repl/input.go:54-59 | once the lines are used up every read gives the same error again and consumes nothing |
| ReplInput.SingleLine | internal/repl/input.go:61-73 | a line without a trailing backslash is an input by itself |
| ReplInput.TwoLines | internal/repl/input.go:63-73 | a continued line and its successor are joined by a newline, the backslash dropped |
| Repl.Banner | internal/repl/repl.go:44-46 | Run starts with three writes: the version line, the quit hint and a blank line |
| Repl.Context.constructor | internal/repl/repl.go:50 | a new context has been asked nothing |
| Repl.Context.Err | internal/repl/repl.go:50-72 | ctx.Err reports cancellation from its cancellation point on and counts the ask |
| Repl.Step | internal/repl/repl.go:49-79 | one round reads forward only, writes and sends at most one thing, never sends "" or "/exit", sends only after reading a line, does nothing once cancelled, and goes on without reading only on the as-written read failure |
| Repl.Session | internal/repl/repl.go:48-80 | the corrected loop ends: it never reads past the input and always asks the context again |
| Repl.REPL.constructor | internal/repl/repl.go:33-40 | a new REPL has written and sent nothing |
| Repl.REPL.Round | internal/repl/repl.go:49-79 | one pass of the loop body changes the writes, the messages sent, the prompts, the reader position and the context as the corrected round does |
| Repl.REPL.Run | internal/repl/repl.go:43-84 | Run writes the banner, the corrected loop's writes and "Goodbye!", sends what that loop sends, and returns nil |
| Repl.CancelledFirst | internal/repl/repl.go:50-52 | a context cancelled before the first read ends the loop with no read, no send and no write |
| Repl.NeverSendsExitOrEmpty | internal/repl/repl.go:63-69 | neither an empty input nor "/exit" is ever handed to the agent |
| Repl.ExitStops | internal/repl/repl.go:67-69 | "/exit" ends the loop at once: nothing is sent and nothing more is read |
| Repl.CancelledSendIsSilent | internal/repl/repl.go:71-74 | a failed send while the context is cancelled ends the loop with no "Error:" line |
| Repl.FailedSendGoesOn | internal/repl/repl.go:71-77 | a failed send otherwise writes "Error: ..." and the loop goes on with the next read |
| Repl.ReadFailureEnds | internal/repl/repl.go:58-61 | corrected: a read failure writes one "Input error" line and ends the loop |
| Repl.OutputBounded | internal/repl/repl.go:48-80 | the corrected loop writes at most one line more than the lines it reads, and sends at most one message per line |
| Repl.SpinsOnReadFailure | internal/repl/repl.go:58-61 | as written, a read error the scanner keeps reporting with a context that is never cancelled keeps the loop going: no number of rounds reaches its end |
| Repl.StepAgrees | internal/repl/repl.go:54-61 | without a read failure a round is the same as written and corrected |
| Repl.AgreesWithoutFailure | internal/repl/repl.go:48-80 | without a read failure the loop as written, given enough rounds, is the corrected loop |
| Bridge.EventChannel.constructor | internal/tui/bridge.go:129 | a new event channel holds no event |
| Bridge.EventWriter.constructor | internal/tui/bridge.go:132 | the writer sends on the bridge's channel |
| Bridge.EventWriter.Write | internal/tui/bridge.go:35-38 | each write sends one token event carrying exactly the written text and reports the whole length, with no error |
| Bridge.Split | internal/tui/bridge.go:54-62 | the complete lines cut off the buffer hold no newline, and the rest kept holds none |
| Bridge.SplitUnsplit | internal/tui/bridge.go:52-62 | cutting loses nothing: the lines, each with its newline, followed by the rest give the buffer back |
| Bridge.SplitAppend | internal/tui/bridge.go:52-62 | cutting a text is independent of how it was divided into writes |
| Bridge.SplitWithoutNewline | internal/tui/bridge.go:54-58 | a buffer without a newline completes no line |
| Bridge.ParseLine | internal/tui/bridge.go:67-93 | a line stands for a tool-start, spawn or done event or for none, and a blank line for none |
| Bridge.ToolStartLines | internal/tui/bridge.go:74-84 | a tool-start event comes exactly from a trimmed "[tool] " line whose rest is neither a denial nor an unknown tool, and carries that rest as the name |
| Bridge.SpawnLines | internal/tui/bridge.go:86-88 | a spawn event comes exactly from a trimmed line with the spawn marker and without the tool marker, and carries the task after the marker |
| Bridge.DoneLines | internal/tui/bridge.go:90-91 | the done event comes from exactly the trimmed line "[agent] Sub-agent completed" |
| Bridge.ParseAllNoToolResult | internal/tui/bridge.go:67-93 | no stderr line ever becomes a tool-result event |
| Bridge.ParseAllAppend | internal/tui/bridge.go:54-62 | the events of two runs of lines are the events of each, in order |
| Bridge.ToolEventWriter.constructor | internal/tui/bridge.go:133 | a new stderr writer has an empty buffer |
| Bridge.ToolEventWriter.Write | internal/tui/bridge.go:48-65 | after a write the buffer is what follows the last newline of the old buffer and the write, and one event per completed line is sent, in order; the whole length is reported |
| Bridge.OneLineEvents | internal/tui/bridge.go:48-93 | one newline-ended write gives exactly the events of its line |
| Bridge.TwoLineEvents | internal/tui/bridge.go:48-93 | two newline-ended writes give the events of the first line, then of the second |
| Bridge.ToolLine | internal/tui/bridge.go:74-84 | a trimmed "[tool] " line is classified by the text after the marker alone |
| Bridge.UnknownToolLine | internal/tui/bridge.go:80-83 | the "[tool] Unknown tool: name" marker stands for no event |
| Bridge.DeniedLine | internal/tui/bridge.go:76-79 | the "[tool] name: permission denied" marker stands for no event |
| Bridge.StartLine | internal/tui/bridge.go:84 | "[tool] name" stands for the tool-start event of that name |
| Bridge.TaggedLine | internal/tui/bridge.go:73-92 | a line tagged like "[tool:...]" stands for no event |
| Bridge.FinishLine | internal/tui/bridge.go:73-92 | the "[tool:done]" and "[tool:error]" markers stand for no event |
| Bridge.Unmarked | internal/tui/bridge.go:73-92 | a trimmed line with none of the markers stands for no event |
| Bridge.DispatchEvents | internal/tui/bridge.go:67-93 | the stderr markers of one tool dispatch give a tool-start event exactly when the tool ran, and nothing else |
| Bridge.IdGenerator.constructor | internal/tui/bridge.go:23 | the counter starts at zero with no identifier handed out |
| Bridge.IdGenerator.Generate | internal/tui/bridge.go:25-27 | each identifier is "perm-" and the incremented counter, and differs from every one handed out before |
| Bridge.IdsDistinct | internal/tui/bridge.go:25-27 | every two identifiers the generator has handed out differ |
| Bridge.PermissionInterceptor.constructor | internal/tui/bridge.go:103-105 | the interceptor sends on the given channel |
| Bridge.PermissionInterceptor.Check | internal/tui/bridge.go:108-117 | Check sends one permission request with a fresh identifier, the tool name and the preview, and returns the answer sent back |
| Bridge.Bridge.constructor | internal/tui/bridge.go:128-136 | stdout, stderr and the permission handler all share one new, empty channel |
| App.ChatSize | internal/tui/app.go:298-314 | the chat panel gets the width the 30-column sidebar leaves and the height the status bar and the input box leave, never less than 10 by 3 |
| App.Armed | internal/tui/app.go:168-226 | the number of event listeners a batch arms, zero exactly when it holds no WaitForEvent |
| App.Initial | internal/tui/app.go:62-114 | New focuses the input with no request pending, and Init arms exactly one listener |
| App.AppRunAsWritten | internal/tui/app.go:117-235 | as written, with SendMsg arming a second listener: a pending request is always a permission request, whatever messages arrive |
| App.AppRun | internal/tui/app.go:117-235 | corrected (SendMsg arms no listener): a pending request is always a permission request, whatever messages arrive |
| App.AppModel.constructor | internal/tui/app.go:62-105 | the fresh panels and fields are the initial state |
| App.AppModel.SetFocus | internal/tui/app.go:288-295 | the focus changes and the input box is focused exactly when it holds the focus |
| App.AppModel.ToggleFocus | internal/tui/app.go:279-285 | the focus moves to the other panel |
| App.AppModel.RecalcLayout | internal/tui/app.go:298-320 | the status bar and the input box get the window width, the chat panel and the sidebar the size ChatSize gives |
| App.AppModel.HandlePermissionKey | internal/tui/app.go:254-276 | y and n answer the pending request once and clear it, Ctrl+C quits, every other key is ignored |
| App.AppModel.HandleKey | internal/tui/app.go:127-161 | a pending request takes every key; otherwise quit, the focus keys and forwarding to the focused panel |
| App.AppModel.HandleAgentDone | internal/tui/app.go:202-216 | the end of a turn unlocks and focuses the input, shows the error if any and finalises the stream |
| App.AppModel.HandleForwarded | internal/tui/app.go:229-234 | other messages go to the input box and the sidebar, and their commands are batched |
| App.AppModel.Route | internal/tui/app.go:117-235 | corrected (SendMsg's batch holds no WaitForEvent): each kind of message changes the panels and returns the batch the reference routing gives |
| App.AppModel.HandleEvent | internal/tui/app.go:175-226 | each bridge event changes the panels and returns the batch the reference routing gives |
| App.AppModel.Update | internal/tui/app.go:117-235 | corrected (SendMsg arms no listener): Update's new state and batch, with the listener count following the WaitForEvent commands handed back |
| App.LayoutClamps | internal/tui/app.go:121-125 | after a resize the chat panel has the rest of the window, at least 10 by 3, the sidebar its height, and the status bar and input box the full width |
| App.FocusToggles | internal/tui/app.go:138-148 | Tab and Esc each move the focus to the other panel when no request is pending |
| App.PermissionKeys | internal/tui/app.go:254-276 | with a request pending, y and n send exactly one answer on its channel and clear it, Ctrl+C quits without answering, and every other key changes nothing |
| App.DoneReportsError | internal/tui/app.go:202-216 | the end of a turn adds one error line exactly when the agent failed, then the streamed text as one message, and unlocks the input |
| App.OneListenerPerEvent | internal/tui/app.go:175-226 | every message from the bridge arms exactly one new listener and nothing else arms any (SendMsg corrected) |
| App.SendAsWrittenDoublesListeners | internal/tui/app.go:168-173 | as written, SendMsg arms a second listener next to Init's, leaving two outstanding |
| App.ListenersPileUpAsWritten | internal/tui/app.go:108-235 | as written, after Init and any run of messages one listener per SendMsg is outstanding besides Init's, whatever bridge events come in between |
| App.OneListenerAlways | internal/tui/app.go:108-235 | corrected, the single listener Init arms stays the only one whatever messages arrive |
| Chat.LastMatch | internal/tui/chat.go:139-177 | the most recent message the search matches, no later message matching, or -1 when none does |
| Chat.ChatModel.constructor | internal/tui/chat.go:44-60 | a new chat has no messages, nothing streamed and no size |
| Chat.ChatModel.AddUserMessage | internal/tui/chat.go:63-70 | exactly one user message is appended and nothing else changes |
| Chat.ChatModel.AddSystemMessage | internal/tui/app.go:208-210 | exactly one system message is appended and nothing else changes |
| Chat.ChatModel.SetSize | internal/tui/chat.go:74-89 | the chat takes the given width and height and nothing else changes |
| Chat.ChatModel.FindLast | internal/tui/chat.go:139-148 | the backward loop stops at the most recent matching message, or -1 |
| Chat.ChatModel.Update | internal/tui/chat.go:97-203 | each message changes the chat as the reference step does |
| Chat.TokenBuffers | internal/tui/chat.go:104-105 | a token goes to the streaming buffer and leaves the messages alone |
| Chat.DoneFinalizes | internal/tui/chat.go:111-120 | the end of a turn moves a non-empty buffer into one assistant message and empties it |
| Chat.StreamAccumulates | internal/tui/chat.go:104-105 | a run of tokens accumulates their concatenation and adds no message |
| Chat.AnswerBecomesOneMessage | internal/tui/chat.go:104-120 | from an empty buffer, an answer's tokens followed by the end of the turn add exactly one assistant message holding all of them, when there was any text |
| Chat.ResultMarksLastToolLine | internal/tui/chat.go:137-148 | a tool result rewrites the most recent tool line of that tool with its mark, and nothing else |
| Chat.ResponseMarksLastPrompt | internal/tui/chat.go:166-177 | a permission answer is appended to the most recent prompt, which stays a prompt, and nothing else changes |
| Chat.MessagesNeverShrink | internal/tui/chat.go:97-203 | the message list never shrinks, whatever the updates |
| Chat.RolesStay | internal/tui/chat.go:97-203 | messages already in the list keep their role |
| Sidebar.FirstRunning | internal/tui/sidebar.go:84-90 | the first running entry of the named tool, no earlier one matching, or -1 |
| Sidebar.SidebarModel.constructor | internal/tui/sidebar.go:49-63 | width 30, room for ten tool calls, none yet, not busy, and the project options kept |
| Sidebar.SidebarModel.FindRunning | internal/tui/sidebar.go:84-90 | the forward loop stops at the first running entry of the tool, or -1 |
| Sidebar.SidebarModel.Update | internal/tui/sidebar.go:71-108 | each message changes the sidebar as the reference step does; a spinner tick hands back the next tick and nothing else returns a command |
| Sidebar.SidebarModel.SetAgentBusy | internal/tui/sidebar.go:133-135 | only the busy flag changes |
| Sidebar.SidebarModel.SetHeight | internal/tui/sidebar.go:138-140 | only the height changes |
| Sidebar.StartGoesFirst | internal/tui/sidebar.go:73-80 | a started tool goes first, running; the rest is the old list with the oldest entries dropped to stay within the cap |
| Sidebar.ResultFinishesOne | internal/tui/sidebar.go:82-91 | a result finishes the most recent running entry of that tool, marking an error when it carries one, and touches nothing else |
| Sidebar.CapHolds | internal/tui/sidebar.go:77-79 | the list never holds more than the cap, whatever the messages |
| Sidebar.FinishedStays | internal/tui/sidebar.go:82-91 | a result never shortens the list, and a finished entry is never changed again |
| InputBox.Insert | internal/tui/input.go:73 | inserting text at the cursor lengthens the text by exactly that text |
| InputBox.InputModel.constructor | internal/tui/input.go:29-48 | an empty, focused text area three rows high, enabled |
| InputBox.InputModel.Update | internal/tui/input.go:56-99 | each message changes the box and gives the command the reference step gives |
| InputBox.InputModel.SetDisabled | internal/tui/input.go:112-114 | only the disabled flag changes |
| InputBox.InputModel.Focus | internal/tui/input.go:117-119 | only the focus flag is set |
| InputBox.InputModel.Blur | internal/tui/input.go:122-124 | only the focus flag is cleared |
| InputBox.InputModel.SetWidth | internal/tui/input.go:127-130 | only the width changes |
| InputBox.DisabledIgnoresKeys | internal/tui/input.go:58-61 | while busy, no key changes anything or produces a command |
| InputBox.SendGuard | internal/tui/input.go:64-70 | the send key produces a command exactly when the trimmed text is not empty; the command carries the trimmed text, which neither starts nor ends with white space, and the box is cleared; otherwise nothing changes |
| InputBox.NewLineInserts | internal/tui/input.go:72-74 | the newline key inserts one newline at the cursor and sends nothing |
| InputBox.SpinnerOnlyWhileBusy | internal/tui/input.go:86-92 | the spinner turns only while the box is busy |
| StatusBar.MaxCWD | internal/tui/statusbar.go:78-81 | the directory's share is a third of the width, truncated, and never less than 10 |
| StatusBar.TruncateCWD | internal/tui/statusbar.go:76-88 | a directory that fits is kept whole; a longer one keeps its end behind "...", and the result always fits |
| StatusBar.Pads | internal/tui/statusbar.go:62-63 | the two gaps add up to the free cells, the right one equal to the left or one more |
| StatusBar.StatusBarModel.constructor | internal/tui/statusbar.go:20-27 | the bar keeps version, model and directory, with no width yet |
| StatusBar.StatusBarModel.SetWidth | internal/tui/statusbar.go:70-72 | the width is set |
| StatusBar.StatusBarModel.Update | internal/tui/statusbar.go:35-41 | only a resize changes anything: the width becomes the window's |
| StatusBar.RowFillsWidth | internal/tui/statusbar.go:49-66 | with room to spare the row starts with the program name and version, ends with the directory and is exactly as wide as the bar |
| StatusBar.RowCramped | internal/tui/statusbar.go:55-60 | without room the three segments are joined by single spaces |
| Config.Defaults | internal/config/config.go:22-27 | the defaults give a model and a base URL but no key |
| Config.Config.constructor | internal/config/config.go:32 | a new configuration holds the defaults |
| Config.Config.MergeFromFile | internal/config/config.go:68-93 | a missing file changes nothing; an unreadable or undecodable file is an error and leaves the fields as they were; otherwise each non-empty field of the file overwrites its own |
| Config.Load | internal/config/config.go:31-64 | Load returns a configuration exactly when the layers succeed with a key, holding what the layers give, and otherwise nothing and the first error |
| Config.MergeAssociative | internal/config/config.go:82-90 | merging two files in turn is merging their own merge: the last non-empty value wins |
| Config.MergeLaws | internal/config/config.go:82-90 | a file that sets nothing changes nothing, and merging the same file twice is merging it once |
| Config.FileOutcomes | internal/config/config.go:68-80 | a missing file changes nothing, and merging fails exactly for an unreadable or undecodable file |
| Config.KeyRequired | internal/config/config.go:58-61 | loading succeeds only with a key, and a missing key gives the error naming OPENROUTER_API_KEY |
| Config.EnvSetsOnlyKey | internal/config/config.go:48-51 | the environment variable, when set, gives the key and touches nothing else |
| Config.CliSetsOnlyModel | internal/config/config.go:53-56 | the --model flag, when given, gives the model and touches nothing else |
| Config.LayerOrder | internal/config/config.go:31-56 | with both files present and valid each setting comes from the last layer that gives it: defaults, global file, project file, environment, flag |
| Config.OnlyEnvKey | internal/config/config.go:31-63 | with no file anywhere and only the key in the environment, the result is the defaults with that key |
| Config.GlobalFailureStops | internal/config/config.go:35-39 | an unreadable global file stops loading with an error naming its path, whatever the project file holds |
| Project.Load | internal/context/project.go:32-66 | Load fails on an unresolvable directory, an unreadable instruction file or a memory error, in that order, and otherwise returns the directory, the instructions, the memory, the platform and the date |
| Project.SystemPrompt | internal/context/project.go:69-90 | the prompt always opens with the identity text and ends with the environment section |
| Project.InstructionPriority | internal/context/project.go:26-56 | STORMTROOPER.md wins over CLAUDE.md, CLAUDE.md is read only when STORMTROOPER.md does not exist, a read error other than absence stops loading, and with neither the instructions are empty |
| Project.SectionsIff | internal/context/project.go:74-82 | the instructions and memory sections each appear exactly when their text is non-empty |
| Project.SectionOrder | internal/context/project.go:72-87 | with both texts the sections stand in the order identity, instructions, memory, environment, and nothing else is in the prompt |
| Project.MinimalPrompt | internal/context/project.go:72-87 | without either text the prompt is the identity followed by the environment |

## Left out

- Rendering is not modelled: glamour, lipgloss, the viewport, the `View` functions of the
  app, the chat panel, the sidebar and the input box, `internal/tui/theme.go` and
  `internal/tui/keymap.go`. Only state updates are.
- What an ordinary key does to the textarea (typing, deleting, moving) is a parameter `edit`
  of the input box. The model fixes only the send, new-line and busy rules.
- Strings are sequences of characters. Go's byte lengths (the 200-byte and 80-byte cuts, the
  status-bar widths) are read as character counts, which agree for ASCII text.
- `AddSystemMessage` is called by `internal/tui/app.go` but is not defined in
  `internal/tui/chat.go`. It is modelled as appending one System message, after its call
  site.
- Concurrency is not modelled: the goroutines, the channels and their buffering, the
  `ToolEventWriter` mutex and the atomic identifier counter. `WaitForEvent` is an abstract
  count of outstanding listeners. The event channel is a queue of sent events. A
  permission reply channel is a number, with the answers sent on it recorded. The race
  between a child agent and cancellation in `spawn_agent` is a parameter choosing the winner.
- The LLM client's HTTP transport is not modelled: request building, headers, status codes,
  `APIError` and `convertToolDefs`. A request takes the next reply from a script. The
  per-chunk order, accumulate first and display second, is kept.
- App.AppModel.Update follows the corrected SendMsg case, whose batch holds no WaitForEvent.
  After Init and one SendMsg it counts one listener; the code at `internal/tui/app.go:170`
  leaves two. The code as written is App.AppRunAsWritten (see Findings).
- App.AppModel.Route returns the corrected SendMsg batch, without the WaitForEvent of
  `internal/tui/app.go:170`.
- App.AppRun folds the corrected Update; App.AppRunAsWritten folds the code as written.
- Grep.Search.Visit follows the corrected skip rule: a search root whose name is in
  skipDirs is entered, where `internal/tool/grep.go:123` skips it (see Findings).
- Grep.GrepDir walks with the corrected skip rule, so a root named in skipDirs is searched.
- Grep.Execute reports the matches of the corrected walk. For the path "vendor" it can
  report matches where the code as written reports "No matches found".
- InputBox.NewLineInserts: the textarea's `CharLimit` of 10000 characters is not modelled.
  At that limit the widget refuses the newline, which the lemma still inserts.
- The oracles are functions of their arguments. These are the agent's permission handler,
  tool previews and tool execution (of the tool name and argument text), and the REPL's
  `send` (of the message). Two identical calls get identical answers: a second identical
  `edit_file` call in one round, or a user who answers y and then n, is not captured. The
  child agent of `spawn_agent` asks the parent's permission handler. In terminal-UI mode
  the Go wiring gives it the line-prompt checker instead.
- AgentLoop.Agent.Loop: when the script runs out of replies, the loop ends with the error
  `OutOfReplies`. The Go loop would instead wait for the endpoint.
- Cancellation of a context is the point from which `ctx.Err()` reports it: an iteration
  index for the agent, a count of checks for the REPL.
- `SetOutput` and `SetPermission` on the agent are plain field assignments and are not
  separate members.
- The thin wrappers around the operating system are not part of this model: the
  `read_file`, `write_file` and `shell_exec` tools, `internal/memory/memory.go` (its result
  is a parameter of the project context), and the wiring in `cmd/stormtrooper/main.go`.
- `filepath.Abs`, `os.Getwd`, `os.UserHomeDir`, `os.Stat`, `os.ReadFile`, `os.WriteFile`,
  `os.MkdirAll`, `regexp.Compile`, `filepath.Match`, `filepath.Glob`, JSON and YAML
  decoding are parameters, not definitions. `runtime.GOOS`, `time.Now` and the version
  string are also parameters.
- `filepath.WalkDir` is a tree of directories and files, with each directory's entries in
  the lexical order WalkDir gives. Symbolic links, walk errors on unreadable directories
  and entries that are neither files nor directories are left out.
- A walked path is `filepath.Join` of its parent and its name. The Go callbacks tell the
  root from other entries by comparing paths. The model passes a flag for the root instead.
- The glob tool's path relative to the root is built from the walked names, not computed by
  `filepath.Rel`. On paths from the walk the two give the same result.
- The grep tool reads a file's first 512 bytes with one `Read`. A short read of a longer
  file is not modelled: the test looks at the first 512 bytes of the file.
- `bufio.Scanner` is given as the lines it yields. Splitting bytes into lines, and the
  scanners' token limits (64 KiB, and 1 MiB for the response stream), are left out.
- FilePath.Clean works on `/`-separated paths only. Windows volume names are left out.
- Repl.SessionAsWritten carries a fuel bound. The as-written loop can run forever on a
  sticky read error, and fuel is the only way to state that as a total function.
- The sidebar spinner and the input-box spinner are counts of frames advanced. Tick timing
  belongs to the widget library.
- The test-suite drift in `internal/tui/chat_test.go:181-199` (a border-shrunk viewport) and
  `internal/tui/sidebar_test.go:34-59` (finished entries removed) is not followed. The
  model follows `internal/tui/chat.go` and `internal/tui/sidebar.go`, which do neither.

## Findings

| source | as written | input that shows it | evidently intended | confidence | as-written member | corrected member |
|---|---|---|---|---|---|---|
| internal/tui/app.go:168-173 | handling SendMsg returns a batch that also holds a new WaitForEvent, though the listener that Init armed is still waiting | Init, then one SendMsg: two listeners are outstanding on the event channel, and each further SendMsg adds one | SendMsg starts the agent and arms no listener, so the listener count stays one | not executed | App.ListenersPileUpAsWritten | App.OneListenerAlways |
| internal/repl/repl.go:58-61 | a read error other than io.EOF prints "Input error: …" and continues. bufio.Scanner keeps reporting the same error, so the loop never ends | a scanner whose input fails after its lines: every round prints the same "Input error" line and no round ends the loop | a read failure ends the loop like the end of input, then "Goodbye!" | not executed | Repl.SpinsOnReadFailure | Repl.ReadFailureEnds |
| internal/tool/grep.go:122-126 | a directory is skipped when its base name is in skipDirs, even when it is the search root | grep with path "vendor" (or any root named node_modules, .git, …) finds nothing, even when the files match | the root is always searched; the skip list applies only below it, as the dot-prefix rule already does | not executed | Grep.SkipDirRootAsWritten | Grep.RootNameIgnored |
