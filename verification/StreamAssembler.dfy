/** Assembling a streamed message: packages/kosong/src/generate.ts and message.ts. */
module StreamAssembler {
  import opened Wrappers

  /** `number | string`; a number is never the same key as a string. */
  datatype Index = Num(n: int) | Str(s: string)

  datatype MediaKind = ImageUrl | AudioUrl | VideoUrl

  datatype Part =
    | Text(text: string)
    | Think(think: string, encrypted: Option<string>)
    | Media(kind: MediaKind, url: string, mediaId: Option<string>)
    | ToolCall(id: string, name: string, arguments: Option<string>, extras: Option<string>, streamIndex: Option<Index>)
    | ToolCallPart(argumentsPart: Option<string>, index: Option<Index>)

  /** A tool call as the message keeps it: without the routing key. */
  datatype StoredCall = StoredCall(id: string, name: string, arguments: Option<string>, extras: Option<string>)

  predicate IsContent(p: Part) {
    p.Text? || p.Think? || p.Media?
  }

  /** The loop's variables. */
  datatype LoopState = LoopState(pending: Option<Part>, content: seq<Part>, toolCalls: seq<StoredCall>, indexMap: map<Index, nat>)

  const Empty := LoopState(None, [], [], map[])

  function AppendArguments(a: Option<string>, delta: Option<string>): Option<string> {
    if delta.None? then a else if a.None? then delta else Some(a.value + delta.value)
  }

  /** `mergeInPlace`: the changed target, or `None` where it answers false. */
  function Merge(target: Part, source: Part): Option<Part> {
    if target.Text? && source.Text? then Some(Text(target.text + source.text))
    else if target.Think? && source.Think? then
      if target.encrypted.Some? then None
      else Some(Think(target.think + source.think, source.encrypted))
    else if target.ToolCall? && source.ToolCallPart? then
      Some(target.(arguments := AppendArguments(target.arguments, source.argumentsPart)))
    else None
  }

  function Stored(p: Part): StoredCall
    requires p.ToolCall?
  {
    StoredCall(p.id, p.name, p.arguments, p.extras)
  }

  function Flush(st: LoopState, part: Part): LoopState {
    if IsContent(part) then st.(content := st.content + [part])
    else if part.ToolCall? then
      st.(toolCalls := st.toolCalls + [Stored(part)],
          indexMap := if part.streamIndex.Some? then st.indexMap[part.streamIndex.value := |st.toolCalls|] else st.indexMap)
    else st
  }

  /** The delta names a finished call, not the pending one. */
  predicate IsRouted(st: LoopState, part: Part) {
    && part.ToolCallPart? && part.index.Some?
    && !(st.pending.Some? && st.pending.value.ToolCall? && st.pending.value.streamIndex == part.index)
    && part.index.value in st.indexMap
  }

  function Route(st: LoopState, part: Part): LoopState
    requires IsRouted(st, part)
  {
    var k := st.indexMap[part.index.value];
    if k < |st.toolCalls| then
      var target := st.toolCalls[k];
      st.(toolCalls := st.toolCalls[k := target.(arguments := AppendArguments(target.arguments, part.argumentsPart))])
    else st
  }

  function Step(st: LoopState, part: Part): LoopState {
    if IsRouted(st, part) then Route(st, part)
    else if st.pending.None? then st.(pending := Some(part))
    else
      var merged := Merge(st.pending.value, part);
      if merged.Some? then st.(pending := merged) else Flush(st, st.pending.value).(pending := Some(part))
  }

  /** The state after the first `n` parts. */
  function After(stream: seq<Part>, n: nat): LoopState
    requires n <= |stream|
  {
    if n == 0 then Empty else Step(After(stream, n - 1), stream[n - 1])
  }

  function Final(stream: seq<Part>): LoopState {
    var st := After(stream, |stream|);
    if st.pending.Some? then Flush(st, st.pending.value) else st
  }

  // ---------- the finished message ----------

  datatype Message = Message(content: seq<Part>, toolCalls: seq<StoredCall>)

  datatype EmptyResponse = NoOutput | OnlyThinking

  /** White space of JavaScript's `trim`. */
  predicate IsSpace(c: char) {
    || '\t' <= c <= '\r' || c == ' ' || c == '\U{00A0}' || c == '\U{1680}' || '\U{2000}' <= c <= '\U{200A}'
    || c == '\U{2028}' || c == '\U{2029}' || c == '\U{202F}' || c == '\U{205F}' || c == '\U{3000}' || c == '\U{FEFF}'
  }

  predicate HasInk(s: string) {
    exists k | 0 <= k < |s| :: !IsSpace(s[k])
  }

  predicate SaysSomething(p: Part) {
    p.Text? && HasInk(p.text)
  }

  function Finish(content: seq<Part>, toolCalls: seq<StoredCall>): Result<Message, EmptyResponse> {
    if |content| == 0 && |toolCalls| == 0 then Err(NoOutput)
    else
      var hasThink := exists k | 0 <= k < |content| :: content[k].Think?;
      var hasText := exists k | 0 <= k < |content| :: SaysSomething(content[k]);
      if hasThink && !hasText && |toolCalls| == 0 then Err(OnlyThinking)
      else Ok(Message(content, toolCalls))
  }

  class Assembler {
    var pendingPart: Option<Part>
    var content: seq<Part>
    var toolCalls: seq<StoredCall>
    var toolCallIndexMap: map<Index, nat>

    constructor ()
      ensures State() == Empty
    {
      pendingPart, content, toolCalls, toolCallIndexMap := None, [], [], map[];
    }

    function State(): LoopState
      reads this
    {
      LoopState(pendingPart, content, toolCalls, toolCallIndexMap)
    }

    /** `mergeInPlace(pendingPart, source)` */
    method MergeInPlace(source: Part) returns (merged: bool)
      requires pendingPart.Some?
      modifies this`pendingPart
      ensures merged <==> Merge(old(pendingPart.value), source).Some?
      ensures pendingPart == if merged then Merge(old(pendingPart.value), source) else old(pendingPart)
    {
      var target := pendingPart.value;
      if target.Text? && source.Text? {
        pendingPart := Some(target.(text := target.text + source.text));
        return true;
      }
      if target.Think? && source.Think? {
        if target.encrypted.Some? {
          return false;
        }
        target := target.(think := target.think + source.think);
        if source.encrypted.Some? {
          target := target.(encrypted := source.encrypted);
        }
        pendingPart := Some(target);
        return true;
      }
      if target.ToolCall? && source.ToolCallPart? {
        if source.argumentsPart.Some? {
          pendingPart := Some(target.(arguments :=
            if target.arguments.None? then source.argumentsPart
            else Some(target.arguments.value + source.argumentsPart.value)));
        }
        return true;
      }
      merged := false;
    }

    method FlushPart(part: Part)
      modifies this`content, this`toolCalls, this`toolCallIndexMap
      ensures State() == Flush(old(State()), part)
    {
      if IsContent(part) {
        content := content + [part];
        return;
      }
      if part.ToolCall? {
        var ordinal := |toolCalls|;
        toolCalls := toolCalls + [StoredCall(part.id, part.name, part.arguments, part.extras)];
        if part.streamIndex.Some? {
          toolCallIndexMap := toolCallIndexMap[part.streamIndex.value := ordinal];
        }
      }
    }

    /** One turn of the loop over the stream. */
    method Accept(part: Part)
      modifies this
      ensures State() == Step(old(State()), part)
    {
      if part.ToolCallPart? && part.index.Some? && !IsPendingToolCallAtIndex(part.index.value) {
        if part.index.value in toolCallIndexMap {
          var arrayIdx := toolCallIndexMap[part.index.value];
          if arrayIdx < |toolCalls| && part.argumentsPart.Some? {
            var target := toolCalls[arrayIdx];
            toolCalls := toolCalls[arrayIdx := target.(arguments :=
              if target.arguments.None? then part.argumentsPart
              else Some(target.arguments.value + part.argumentsPart.value))];
          }
          return;
        }
      }
      if pendingPart.None? {
        pendingPart := Some(part);
        return;
      }
      var before := pendingPart.value;
      var merged := MergeInPlace(part);
      if !merged {
        FlushPart(before);
        pendingPart := Some(part);
      }
    }

    predicate IsPendingToolCallAtIndex(index: Index)
      reads this
    {
      pendingPart.Some? && pendingPart.value.ToolCall? && pendingPart.value.streamIndex == Some(index)
    }
  }

  method Generate(stream: seq<Part>) returns (r: Result<Message, EmptyResponse>)
    ensures r == Finish(Final(stream).content, Final(stream).toolCalls)
  {
    var assembler := new Assembler();
    var n := 0;
    while n < |stream|
      invariant n <= |stream| && fresh(assembler)
      invariant assembler.State() == After(stream, n)
    {
      assembler.Accept(stream[n]);
      n := n + 1;
    }
    if assembler.pendingPart.Some? {
      assembler.FlushPart(assembler.pendingPart.value);
    }
    r := Finish(assembler.content, assembler.toolCalls);
  }
}
