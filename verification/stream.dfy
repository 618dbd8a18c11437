/**
 * Reconstruction of a streamed chat completion (internal/llm/stream.go):
 * the Server-Sent Events framing of the response body into decoded chunks, the
 * accumulator that folds chunk deltas into one assistant message, and the clean-up of
 * content that leaks next to tool calls.
 *
 * The response body is given as the lines the line scanner yields, followed by the
 * scanner's own error if it stopped on one; JSON decoding is an oracle `decode`.
 */
module Stream {
  import opened Wrappers
  import opened Text
  import opened LlmTypes

  // ---------------------------------------------------------------------------------------
  // SSE framing

  const DataPrefix: string := "data: "
  const DoneSentinel: string := "[DONE]"

  /** How one scanner line is treated: skipped, the end sentinel, or a payload to decode. */
  datatype Record = Ignored | Done | Payload(data: string)

  function Classify(line: string): (r: Record)
    ensures r.Ignored? <==> line == [] || !HasPrefix(line, DataPrefix)
    ensures r.Done? <==> line == DataPrefix + DoneSentinel
    ensures r.Payload? ==> line == DataPrefix + r.data && r.data != DoneSentinel
  {
    if line == "" then Ignored
    else if !HasPrefix(line, DataPrefix) then Ignored
    else
      var data := TrimPrefix(line, DataPrefix);
      if data == DoneSentinel then Done else Payload(data)
  }

  /** What a parse produces: the chunks handed to the callback, in order, and the error returned. */
  datatype SseOutcome = SseOutcome(delivered: seq<ChatCompletionChunk>, err: Option<string>)

  type Decoder = string -> Result<ChatCompletionChunk>

  /** The error returned when the lines run out: the scanner's error, wrapped, if it had one. */
  function EndError(readErr: Option<string>): Option<string> {
    if readErr.Some? then Some("SSE stream read error: " + readErr.value) else None
  }

  function DecodeError(e: string): string {
    "failed to parse SSE chunk: " + e
  }

  /** Reference definition of a parse, one line at a time. */
  function Parse(lines: seq<string>, readErr: Option<string>, decode: Decoder): SseOutcome
    decreases |lines|
  {
    if lines == [] then SseOutcome([], EndError(readErr))
    else
      match Classify(lines[0])
      case Ignored => Parse(lines[1..], readErr, decode)
      case Done => SseOutcome([], None)
      case Payload(data) =>
        match decode(data)
        case Err(e) => SseOutcome([], Some(DecodeError(e)))
        case Ok(c) =>
          var rest := Parse(lines[1..], readErr, decode);
          SseOutcome([c] + rest.delivered, rest.err)
  }

  /** ParseSSEStream: `delivered` lists the callback's arguments in call order. */
  method ParseSSEStream(lines: seq<string>, readErr: Option<string>, decode: Decoder)
    returns (delivered: seq<ChatCompletionChunk>, err: Option<string>)
    ensures SseOutcome(delivered, err) == Parse(lines, readErr, decode)
  {
    delivered := [];
    var i := 0;
    while i < |lines|
      invariant 0 <= i <= |lines|
      invariant Parse(lines, readErr, decode)
        == var rest := Parse(lines[i..], readErr, decode); SseOutcome(delivered + rest.delivered, rest.err)
    {
      assert lines[i..][0] == lines[i] && lines[i..][1..] == lines[i + 1..];
      var line := lines[i];
      if line == "" {
        i := i + 1;
        continue;
      }
      if !HasPrefix(line, DataPrefix) {
        i := i + 1;
        continue;
      }
      var data := TrimPrefix(line, DataPrefix);
      if data == DoneSentinel {
        return delivered, None;
      }
      var decoded := decode(data);
      if decoded.Err? {
        return delivered, Some(DecodeError(decoded.error));
      }
      delivered := delivered + [decoded.value];
      i := i + 1;
    }
    err := EndError(readErr);
  }

  /** The payloads of the data records that come before the first end sentinel, in order. */
  function Payloads(lines: seq<string>): seq<string>
    decreases |lines|
  {
    if lines == [] then []
    else
      match Classify(lines[0])
      case Ignored => Payloads(lines[1..])
      case Done => []
      case Payload(data) => [data] + Payloads(lines[1..])
  }

  predicate HasDone(lines: seq<string>) {
    exists i :: 0 <= i < |lines| && Classify(lines[i]).Done?
  }

  /** The lines that are not skipped. */
  function Records(lines: seq<string>): (r: seq<string>)
    ensures forall i :: 0 <= i < |r| ==> !Classify(r[i]).Ignored?
    decreases |lines|
  {
    if lines == [] then []
    else if Classify(lines[0]).Ignored? then Records(lines[1..])
    else [lines[0]] + Records(lines[1..])
  }

  /**
   * The callback runs once per decodable payload before the end sentinel, in input
   * order; the first undecodable payload is not delivered and aborts with its error;
   * otherwise the result is success after the sentinel, or the scanner's error.
   */
  lemma {:induction false} ParseDelivers(lines: seq<string>, readErr: Option<string>, decode: Decoder)
    ensures var o, p := Parse(lines, readErr, decode), Payloads(lines);
      && |o.delivered| <= |p|
      && (forall i :: 0 <= i < |o.delivered| ==> decode(p[i]) == Ok(o.delivered[i]))
      && (|o.delivered| < |p| ==>
            decode(p[|o.delivered|]).Err? && o.err == Some(DecodeError(decode(p[|o.delivered|]).error)))
      && (|o.delivered| == |p| ==> o.err == if HasDone(lines) then None else EndError(readErr))
    decreases |lines|
  {
    if lines != [] {
      ParseDelivers(lines[1..], readErr, decode);
      assert HasDone(lines[1..]) ==> HasDone(lines) by {
        if HasDone(lines[1..]) {
          var i :| 0 <= i < |lines[1..]| && Classify(lines[1..][i]).Done?;
          assert lines[i + 1] == lines[1..][i];
        }
      }
      assert HasDone(lines) && !Classify(lines[0]).Done? ==> HasDone(lines[1..]) by {
        if HasDone(lines) && !Classify(lines[0]).Done? {
          var i :| 0 <= i < |lines| && Classify(lines[i]).Done?;
          assert i != 0;
          assert lines[1..][i - 1] == lines[i];
        }
      }
    }
  }

  /** Blank lines and lines without the `data: ` prefix never influence the outcome. */
  lemma {:induction false} ParseSkipsNonRecords(lines: seq<string>, readErr: Option<string>, decode: Decoder)
    ensures Parse(lines, readErr, decode) == Parse(Records(lines), readErr, decode)
    decreases |lines|
  {
    if lines != [] {
      ParseSkipsNonRecords(lines[1..], readErr, decode);
      if !Classify(lines[0]).Ignored? {
        assert Records(lines)[0] == lines[0] && Records(lines)[1..] == Records(lines[1..]);
      }
    }
  }

  /** Nothing after `data: [DONE]` is read: neither later lines nor a later scanner error matter. */
  lemma {:induction false} ParseStopsAtDone(
    before: seq<string>, after: seq<string>, readErr: Option<string>, decode: Decoder)
    ensures Parse(before + [DataPrefix + DoneSentinel] + after, readErr, decode)
         == Parse(before + [DataPrefix + DoneSentinel], None, decode)
    decreases |before|
  {
    var done := DataPrefix + DoneSentinel;
    if before == [] {
      assert ([] + [done] + after)[0] == done;
      assert ([] + [done])[0] == done;
    } else {
      ParseStopsAtDone(before[1..], after, readErr, decode);
      assert (before + [done] + after)[1..] == before[1..] + [done] + after;
      assert (before + [done])[1..] == before[1..] + [done];
    }
  }

  // ---------------------------------------------------------------------------------------
  // Delta accumulation

  /** The accumulator's three fields: role, content builder, tool calls by delta index. */
  datatype AccState = AccState(role: string, content: string, toolCalls: map<int, ToolCall>)

  const EmptyAcc: AccState := AccState("", "", map[])

  /**
   * One tool-call fragment: the first fragment of an index creates the entry; later ones
   * overwrite id and type only when non-empty, extend the name, and extend the arguments.
   */
  function MergeToolDelta(calls: map<int, ToolCall>, t: ToolCallDelta): map<int, ToolCall> {
    if t.index !in calls then
      calls[t.index := ToolCall(t.id, t.callType, FunctionCall(t.func.name, t.func.arguments))]
    else
      var e := calls[t.index];
      calls[t.index := ToolCall(
        if t.id != "" then t.id else e.id,
        if t.callType != "" then t.callType else e.callType,
        FunctionCall(
          if t.func.name != "" then e.func.name + t.func.name else e.func.name,
          e.func.arguments + t.func.arguments))]
  }

  function ApplyToolDeltas(calls: map<int, ToolCall>, ts: seq<ToolCallDelta>): map<int, ToolCall>
    decreases |ts|
  {
    if ts == [] then calls
    else MergeToolDelta(ApplyToolDeltas(calls, ts[..|ts| - 1]), ts[|ts| - 1])
  }

  function AddDelta(st: AccState, d: MessageDelta): AccState {
    AccState(
      if d.role != "" then d.role else st.role,
      if d.content != "" then st.content + d.content else st.content,
      ApplyToolDeltas(st.toolCalls, d.toolCalls))
  }

  function ApplyDeltas(st: AccState, ds: seq<MessageDelta>): AccState
    decreases |ds|
  {
    if ds == [] then st else AddDelta(ApplyDeltas(st, ds[..|ds| - 1]), ds[|ds| - 1])
  }

  /** The deltas of the choices, in order. */
  function DeltasOf(choices: seq<ChunkChoice>): (ds: seq<MessageDelta>)
    ensures |ds| == |choices|
    decreases |choices|
  {
    if choices == [] then []
    else DeltasOf(choices[..|choices| - 1]) + [choices[|choices| - 1].delta]
  }

  /** Every delta of every chunk, in arrival order. */
  function Deltas(chunks: seq<ChatCompletionChunk>): seq<MessageDelta>
    decreases |chunks|
  {
    if chunks == [] then []
    else Deltas(chunks[..|chunks| - 1]) + DeltasOf(chunks[|chunks| - 1].choices)
  }

  /** The accumulator's state after `Add` was called with each chunk in turn. */
  function Accumulated(chunks: seq<ChatCompletionChunk>): AccState {
    ApplyDeltas(EmptyAcc, Deltas(chunks))
  }

  // Independent descriptions of the accumulated fields.

  /** The concatenation of all content fragments. */
  function Contents(ds: seq<MessageDelta>): string
    decreases |ds|
  {
    if ds == [] then "" else Contents(ds[..|ds| - 1]) + ds[|ds| - 1].content
  }

  /** The last non-empty role, or "" if none. */
  function LastRole(ds: seq<MessageDelta>): string
    decreases |ds|
  {
    if ds == [] then ""
    else if ds[|ds| - 1].role != "" then ds[|ds| - 1].role
    else LastRole(ds[..|ds| - 1])
  }

  /** Every tool-call fragment of every delta, in arrival order. */
  function ToolDeltas(ds: seq<MessageDelta>): seq<ToolCallDelta>
    decreases |ds|
  {
    if ds == [] then [] else ToolDeltas(ds[..|ds| - 1]) + ds[|ds| - 1].toolCalls
  }

  /** The fragments for one index, in arrival order. */
  function WithIndex(ts: seq<ToolCallDelta>, k: int): seq<ToolCallDelta>
    decreases |ts|
  {
    if ts == [] then []
    else WithIndex(ts[..|ts| - 1], k) + (if ts[|ts| - 1].index == k then [ts[|ts| - 1]] else [])
  }

  function LastId(ts: seq<ToolCallDelta>): string
    decreases |ts|
  {
    if ts == [] then ""
    else if ts[|ts| - 1].id != "" then ts[|ts| - 1].id
    else LastId(ts[..|ts| - 1])
  }

  function LastType(ts: seq<ToolCallDelta>): string
    decreases |ts|
  {
    if ts == [] then ""
    else if ts[|ts| - 1].callType != "" then ts[|ts| - 1].callType
    else LastType(ts[..|ts| - 1])
  }

  function Names(ts: seq<ToolCallDelta>): string
    decreases |ts|
  {
    if ts == [] then "" else Names(ts[..|ts| - 1]) + ts[|ts| - 1].func.name
  }

  function Arguments(ts: seq<ToolCallDelta>): string
    decreases |ts|
  {
    if ts == [] then "" else Arguments(ts[..|ts| - 1]) + ts[|ts| - 1].func.arguments
  }

  /** The call that the fragments of one index describe. */
  function MergedCall(ts: seq<ToolCallDelta>): ToolCall {
    ToolCall(LastId(ts), LastType(ts), FunctionCall(Names(ts), Arguments(ts)))
  }

  lemma {:induction false} ApplyToolDeltasAppend(m: map<int, ToolCall>, a: seq<ToolCallDelta>, b: seq<ToolCallDelta>)
    ensures ApplyToolDeltas(m, a + b) == ApplyToolDeltas(ApplyToolDeltas(m, a), b)
    decreases |b|
  {
    if b == [] {
      assert a + b == a;
    } else {
      assert (a + b)[..|a + b| - 1] == a + b[..|b| - 1];
      ApplyToolDeltasAppend(m, a, b[..|b| - 1]);
    }
  }

  /** Folding delta by delta is folding the fields over the flattened fragments. */
  lemma {:induction false} ApplyDeltasFields(st: AccState, ds: seq<MessageDelta>)
    ensures ApplyDeltas(st, ds).content == st.content + Contents(ds)
    ensures ApplyDeltas(st, ds).role == if LastRole(ds) != "" then LastRole(ds) else st.role
    ensures ApplyDeltas(st, ds).toolCalls == ApplyToolDeltas(st.toolCalls, ToolDeltas(ds))
    decreases |ds|
  {
    if ds == [] {
      assert st.content + "" == st.content;
    } else {
      var pre := ds[..|ds| - 1];
      ApplyDeltasFields(st, pre);
      ApplyToolDeltasAppend(st.toolCalls, ToolDeltas(pre), ds[|ds| - 1].toolCalls);
      assert st.content + Contents(pre) + ds[|ds| - 1].content == st.content + Contents(ds);
    }
  }

  lemma MergedCallSingle(t: ToolCallDelta)
    ensures MergedCall([t]) == ToolCall(t.id, t.callType, t.func)
  {
    assert [t][..0] == [];
    assert LastId([t]) == t.id;
    assert LastType([t]) == t.callType;
    assert Names([t]) == "" + t.func.name == t.func.name;
    assert Arguments([t]) == "" + t.func.arguments == t.func.arguments;
  }

  lemma MergedCallSnoc(w: seq<ToolCallDelta>, t: ToolCallDelta)
    ensures MergedCall(w + [t]) == ToolCall(
      if t.id != "" then t.id else LastId(w),
      if t.callType != "" then t.callType else LastType(w),
      FunctionCall(
        if t.func.name != "" then Names(w) + t.func.name else Names(w),
        Arguments(w) + t.func.arguments))
  {
    assert (w + [t])[..|w + [t]| - 1] == w;
    if t.func.name == "" {
      assert Names(w) + t.func.name == Names(w);
    }
  }

  /** The entry of one index after one more fragment. */
  lemma MergeStepAt(pre: seq<ToolCallDelta>, t: ToolCallDelta, k: int)
    requires k in ApplyToolDeltas(map[], pre) <==> WithIndex(pre, k) != []
    requires k in ApplyToolDeltas(map[], pre) ==> ApplyToolDeltas(map[], pre)[k] == MergedCall(WithIndex(pre, k))
    ensures var m := ApplyToolDeltas(map[], pre + [t]);
      && (k in m <==> WithIndex(pre + [t], k) != [])
      && (k in m ==> m[k] == MergedCall(WithIndex(pre + [t], k)))
  {
    var ts := pre + [t];
    assert ts[..|ts| - 1] == pre && ts[|ts| - 1] == t;
    var before := ApplyToolDeltas(map[], pre);
    assert ApplyToolDeltas(map[], ts) == MergeToolDelta(before, t);
    var w := WithIndex(pre, k);
    if k == t.index {
      assert WithIndex(ts, k) == w + [t];
      if k in before {
        MergedCallSnoc(w, t);
      } else {
        assert w == [];
        assert w + [t] == [t];
        MergedCallSingle(t);
      }
    } else {
      assert WithIndex(ts, k) == w + [];
      assert w + [] == w;
    }
  }

  /** Fragments merge by index: one entry per index seen, holding the merge of its fragments. */
  lemma {:induction false} ToolDeltasMergeByIndex(ts: seq<ToolCallDelta>)
    ensures forall k :: k in ApplyToolDeltas(map[], ts) <==> WithIndex(ts, k) != []
    ensures forall k :: k in ApplyToolDeltas(map[], ts) ==> ApplyToolDeltas(map[], ts)[k] == MergedCall(WithIndex(ts, k))
    decreases |ts|
  {
    if ts != [] {
      var pre, t := ts[..|ts| - 1], ts[|ts| - 1];
      assert pre + [t] == ts;
      ToolDeltasMergeByIndex(pre);
      forall k
        ensures k in ApplyToolDeltas(map[], ts) <==> WithIndex(ts, k) != []
        ensures k in ApplyToolDeltas(map[], ts) ==> ApplyToolDeltas(map[], ts)[k] == MergedCall(WithIndex(ts, k))
      {
        MergeStepAt(pre, t, k);
      }
    }
  }

  /**
   * What the accumulator holds after a sequence of chunks: the in-order concatenation of
   * the content fragments, the last non-empty role, and per index the merge of its fragments.
   */
  lemma AccumulatedSpec(chunks: seq<ChatCompletionChunk>)
    ensures var st, ds := Accumulated(chunks), Deltas(chunks);
      && st.content == Contents(ds)
      && st.role == LastRole(ds)
      && (forall k :: k in st.toolCalls <==> WithIndex(ToolDeltas(ds), k) != [])
      && (forall k :: k in st.toolCalls ==> st.toolCalls[k] == MergedCall(WithIndex(ToolDeltas(ds), k)))
  {
    var ds := Deltas(chunks);
    ApplyDeltasFields(EmptyAcc, ds);
    assert "" + Contents(ds) == Contents(ds);
    ToolDeltasMergeByIndex(ToolDeltas(ds));
  }

  // ---------------------------------------------------------------------------------------
  // Building the message

  lemma HasElement(s: set<int>)
    requires s != {}
    ensures exists x :: x in s
  {
    assert (forall x :: x !in s) ==> s == {};
  }

  /** The largest key, or 0 when there is none or all are negative. */
  ghost function MaxKey(keys: set<int>): (r: int)
    ensures 0 <= r
    ensures forall k :: k in keys ==> k <= r
    ensures r == 0 || r in keys
    decreases keys
  {
    if keys == {} then 0
    else
      HasElement(keys);
      var k :| k in keys;
      var m := MaxKey(keys - {k});
      assert forall j :: j in keys ==> j == k || j in keys - {k};
      if k > m then k else m
  }

  lemma MaxKeyUnique(keys: set<int>, r: int)
    requires 0 <= r
    requires forall k :: k in keys ==> k <= r
    requires r == 0 || r in keys
    ensures r == MaxKey(keys)
  {
  }

  /** The present keys among 0 .. n-1, ascending. */
  function KeysBelow(m: map<int, ToolCall>, n: int): seq<int>
    decreases n
  {
    if n <= 0 then [] else KeysBelow(m, n - 1) + (if n - 1 in m then [n - 1] else [])
  }

  /** The calls at keys 0 .. n-1, in key order, gaps skipped. */
  function CallsBelow(m: map<int, ToolCall>, n: int): seq<ToolCall>
    decreases n
  {
    if n <= 0 then [] else CallsBelow(m, n - 1) + (if n - 1 in m then [m[n - 1]] else [])
  }

  ghost function OrderedCalls(m: map<int, ToolCall>): seq<ToolCall> {
    CallsBelow(m, MaxKey(m.Keys) + 1)
  }

  ghost function OrderedKeys(m: map<int, ToolCall>): seq<int> {
    KeysBelow(m, MaxKey(m.Keys) + 1)
  }

  lemma {:induction false} KeysBelowSpec(m: map<int, ToolCall>, n: int)
    ensures var ks, cs := KeysBelow(m, n), CallsBelow(m, n);
      && |cs| == |ks|
      && (forall i :: 0 <= i < |ks| ==> ks[i] in m && 0 <= ks[i] < n && cs[i] == m[ks[i]])
      && (forall i, j :: 0 <= i < j < |ks| ==> ks[i] < ks[j])
      && (forall k :: k in m && 0 <= k < n ==> k in ks)
    decreases if n <= 0 then 0 else n
  {
    if n > 0 {
      KeysBelowSpec(m, n - 1);
    }
  }

  /**
   * The message's tool calls: one per distinct non-negative index, in strictly ascending
   * index order whatever the arrival order; negative indices are dropped.
   */
  lemma OrderedCallsSpec(m: map<int, ToolCall>)
    ensures var ks, cs := OrderedKeys(m), OrderedCalls(m);
      && |cs| == |ks|
      && (forall i :: 0 <= i < |ks| ==> ks[i] in m && cs[i] == m[ks[i]])
      && (forall i, j :: 0 <= i < j < |ks| ==> ks[i] < ks[j])
      && (forall k :: k in m && 0 <= k ==> k in ks)
      && (forall i :: 0 <= i < |ks| ==> 0 <= ks[i])
  {
    KeysBelowSpec(m, MaxKey(m.Keys) + 1);
  }

  const KnownSpecialTokens: seq<string> :=
    ["<|tool_call_end|>", "<|tool_call_start|>", "<|function|>", "<|tool_sep|>", "<|im_end|>"]

  /** looksLikeToolCallJSON: a bare JSON object, or a name followed by one. */
  predicate LooksLikeToolCallJSON(s: string) {
    var t := TrimSpace(s);
    if |t| == 0 then false
    else if HasPrefix(t, "{") && HasSuffix(t, "}") then true
    else if Index(t, "{") > 0 && HasSuffix(t, "}") then true
    else false
  }

  /** The two cases together: the trimmed text contains `{` and ends with `}`. */
  lemma LooksLikeToolCallJSONIff(s: string)
    ensures LooksLikeToolCallJSON(s) <==> Contains(TrimSpace(s), "{") && HasSuffix(TrimSpace(s), "}")
  {
    var t := TrimSpace(s);
    if HasPrefix(t, "{") {
      assert OccursAt(t, "{", 0);
    }
    if Index(t, "{") == 0 {
      assert t[..1] == t[0..0 + 1];
    }
  }

  /** cleanToolCallContent: strip the special tokens, trim, and drop what looks like tool-call JSON. */
  function CleanToolCallContent(s: string): (r: string)
    ensures |r| <= |s|
    ensures r == [] || (!IsSpace(r[0]) && !IsSpace(r[|r| - 1]) && !LooksLikeToolCallJSON(r))
  {
    var t := TrimSpace(RemoveEach(s, KnownSpecialTokens));
    TrimSpaceFixed(t);
    if LooksLikeToolCallJSON(t) then "" else t
  }

  /** Prose is kept as it is: text with no special token, no surrounding white space and no JSON shape. */
  lemma CleanKeepsProse(s: string)
    requires forall i :: 0 <= i < |KnownSpecialTokens| ==> !Contains(s, KnownSpecialTokens[i])
    requires s == [] || (!IsSpace(s[0]) && !IsSpace(s[|s| - 1]))
    requires !(Contains(s, "{") && HasSuffix(s, "}"))
    ensures CleanToolCallContent(s) == s
  {
    RemoveEachAbsent(s, KnownSpecialTokens);
    TrimSpaceFixed(s);
    LooksLikeToolCallJSONIff(s);
  }

  /**
   * Leaked arguments are dropped whole: once the tokens are stripped and the white space
   * trimmed, a text that contains `{` and ends with `}` leaves nothing.
   */
  lemma CleanDropsLeakedArguments(s: string)
    requires var t := TrimSpace(RemoveEach(s, KnownSpecialTokens)); Contains(t, "{") && HasSuffix(t, "}")
    ensures CleanToolCallContent(s) == ""
  {
    var t := TrimSpace(RemoveEach(s, KnownSpecialTokens));
    TrimSpaceFixed(t);
    LooksLikeToolCallJSONIff(t);
  }

  /** Message(): content cleaned and tool calls listed by index only when some call was seen. */
  ghost function MessageOf(st: AccState): (msg: Message)
    ensures msg.role == st.role && msg.toolCallId == "" && msg.name == ""
    ensures |st.toolCalls| == 0 ==> msg.content == st.content && msg.toolCalls == []
    ensures |st.toolCalls| > 0 ==> msg.content == CleanToolCallContent(st.content)
  {
    if |st.toolCalls| > 0 then
      Message(st.role, CleanToolCallContent(st.content), OrderedCalls(st.toolCalls), "", "")
    else
      assert st.toolCalls.Keys == {};
      assert KeysBelow(st.toolCalls, 1) == [];
      Message(st.role, st.content, [], "", "")
  }

  /** One more choice of a chunk adds its delta, applied last. */
  lemma DeltaStep(choices: seq<ChunkChoice>, i: nat, ds: seq<MessageDelta>)
    requires i < |choices|
    ensures DeltasOf(choices[..i + 1]) == DeltasOf(choices[..i]) + [choices[i].delta]
    ensures ApplyDeltas(EmptyAcc, ds + [choices[i].delta]) == AddDelta(ApplyDeltas(EmptyAcc, ds), choices[i].delta)
  {
    assert choices[..i + 1][..i] == choices[..i];
    var d := choices[i].delta;
    assert (ds + [d])[..|ds + [d]| - 1] == ds;
  }

  lemma DeltasAppend(chunks: seq<ChatCompletionChunk>, chunk: ChatCompletionChunk)
    ensures Deltas(chunks + [chunk]) == Deltas(chunks) + DeltasOf(chunk.choices)
  {
    assert (chunks + [chunk])[..|chunks|] == chunks;
  }

  /** The accumulator; `added` records every chunk passed to `Add`. */
  class DeltaAccumulator {
    var role: string
    var content: string
    var toolCalls: map<int, ToolCall>
    ghost var added: seq<ChatCompletionChunk>

    function State(): AccState
      reads this
    {
      AccState(role, content, toolCalls)
    }

    ghost predicate Valid()
      reads this
    {
      State() == Accumulated(added)
    }

    constructor ()
      ensures Valid() && added == [] && State() == EmptyAcc
    {
      role, content, toolCalls := "", "", map[];
      added := [];
    }

    method Add(chunk: ChatCompletionChunk)
      requires Valid()
      modifies this
      ensures Valid() && added == old(added) + [chunk]
    {
      ghost var ds := Deltas(added);
      assert chunk.choices[..0] == [] && ds + [] == ds;
      var i := 0;
      while i < |chunk.choices|
        invariant 0 <= i <= |chunk.choices|
        invariant ds == Deltas(old(added)) + DeltasOf(chunk.choices[..i])
        invariant State() == ApplyDeltas(EmptyAcc, ds)
        modifies this`role, this`content, this`toolCalls
      {
        var d := chunk.choices[i].delta;
        DeltaStep(chunk.choices, i, ds);
        Assoc(Deltas(old(added)), DeltasOf(chunk.choices[..i]), [d]);
        ApplyDelta(d);
        ds := ds + [d];
        i := i + 1;
      }
      assert chunk.choices[..i] == chunk.choices;
      added := added + [chunk];
      DeltasAppend(old(added), chunk);
    }

    /** The body of Add's loop: one choice's delta. */
    method ApplyDelta(d: MessageDelta)
      modifies this`role, this`content, this`toolCalls
      ensures State() == AddDelta(old(State()), d)
    {
      if d.role != "" {
        role := d.role;
      }
      if d.content != "" {
        content := content + d.content;
      }
      MergeToolCallDeltas(d.toolCalls);
    }

    /** The inner loop of Add: each fragment of one delta, in order. */
    method MergeToolCallDeltas(ts: seq<ToolCallDelta>)
      modifies this`toolCalls
      ensures toolCalls == ApplyToolDeltas(old(toolCalls), ts)
    {
      var j := 0;
      while j < |ts|
        invariant 0 <= j <= |ts|
        invariant toolCalls == ApplyToolDeltas(old(toolCalls), ts[..j])
      {
        var t := ts[j];
        assert ts[..j + 1][..j] == ts[..j];
        if t.index !in toolCalls {
          toolCalls := toolCalls[t.index := ToolCall(t.id, t.callType, FunctionCall(t.func.name, t.func.arguments))];
        } else {
          var existing := toolCalls[t.index];
          var id := if t.id != "" then t.id else existing.id;
          var callType := if t.callType != "" then t.callType else existing.callType;
          var name := if t.func.name != "" then existing.func.name + t.func.name else existing.func.name;
          toolCalls := toolCalls[t.index := ToolCall(id, callType, FunctionCall(name, existing.func.arguments + t.func.arguments))];
        }
        j := j + 1;
      }
      assert ts[..j] == ts;
    }

    /** Message(): the accumulated message, tool calls in index order from 0 to the largest index. */
    method Message() returns (msg: Message)
      requires Valid()
      ensures msg == MessageOf(State())
    {
      var text := content;
      var calls: seq<ToolCall> := [];
      if |toolCalls| > 0 {
        var maxIdx := 0;
        var rest := toolCalls.Keys;
        while rest != {}
          invariant rest <= toolCalls.Keys
          invariant 0 <= maxIdx
          invariant forall k :: k in toolCalls && k !in rest ==> k <= maxIdx
          invariant maxIdx == 0 || (maxIdx in toolCalls && maxIdx !in rest)
          decreases rest
        {
          HasElement(rest);
          var idx :| idx in rest;
          if idx > maxIdx {
            maxIdx := idx;
          }
          rest := rest - {idx};
        }
        MaxKeyUnique(toolCalls.Keys, maxIdx);
        var i := 0;
        while i <= maxIdx
          invariant 0 <= i <= maxIdx + 1
          invariant calls == CallsBelow(toolCalls, i)
        {
          if i in toolCalls {
            calls := calls + [toolCalls[i]];
          }
          i := i + 1;
        }
        assert calls == OrderedCalls(toolCalls);
        text := CleanToolCallContent(text);
      } else {
        assert toolCalls.Keys == {};
        assert calls == [];
      }
      msg := LlmTypes.Message(role, text, calls, "", "");
    }
  }
}
