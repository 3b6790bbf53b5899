/** The OpenAI chat-completions wire format, which the OpenAI-compatible and the Mistral providers
    both speak with identical code: request payload assembly, and the stream reconstructor that
    accumulates tool-call fragments in a buffer keyed by the fragment's `index` and flushes every
    buffered call when a chunk finishes with "tool_calls". */
module ChatCompletions {
  import opened Types
  import HttpClient

  // ---------------------------------------------------------------- payload

  /** A value of the request payload dictionary. */
  datatype Value =
    | Text(s: string)
    | Flag(b: bool)
    | Messages(messages: seq<Message>)
    | ToolList(tools: seq<Tool>)
    | Choice(choice: ToolChoice)
    | Count(n: int)
    | Opaque(json: Json)

  /** The payload of `chat` (stream false) and `chat_stream` (stream true): model and messages,
      "stream" only when streaming, each optional field only when it is not None, and the extra
      keyword arguments merged last so that they win on a key collision. */
  method BuildPayload(
    model: string, messages: seq<Message>, tools: Option<seq<Tool>>, toolChoice: Option<ToolChoice>,
    temperature: Option<Json>, maxTokens: Option<int>, stream: bool, kwargs: map<string, Value>)
    returns (payload: map<string, Value>)
    ensures payload == Fields(model, messages, tools, toolChoice, temperature, maxTokens, stream) + kwargs
    ensures forall k :: k in kwargs ==> payload[k] == kwargs[k]
  {
    payload := map["model" := Text(model), "messages" := Messages(messages)];
    if stream {
      payload := payload["stream" := Flag(true)];
    }
    if tools.Some? {
      payload := payload["tools" := ToolList(tools.value)];
    }
    if toolChoice.Some? {
      payload := payload["tool_choice" := Choice(toolChoice.value)];
    }
    if temperature.Some? {
      payload := payload["temperature" := Opaque(temperature.value)];
    }
    if maxTokens.Some? {
      payload := payload["max_tokens" := Count(maxTokens.value)];
    }
    payload := payload + kwargs;
  }

  /** The payload before the keyword arguments: model and messages, then each optional entry
      whose condition holds. */
  function Fields(model: string, messages: seq<Message>, tools: Option<seq<Tool>>, toolChoice: Option<ToolChoice>,
                  temperature: Option<Json>, maxTokens: Option<int>, stream: bool): map<string, Value>
  {
    var base := map["model" := Text(model), "messages" := Messages(messages)];
    var streamed := if stream then base["stream" := Flag(true)] else base;
    var tooled := if tools.Some? then streamed["tools" := ToolList(tools.value)] else streamed;
    var chosen := if toolChoice.Some? then tooled["tool_choice" := Choice(toolChoice.value)] else tooled;
    var tempered := if temperature.Some? then chosen["temperature" := Opaque(temperature.value)] else chosen;
    if maxTokens.Some? then tempered["max_tokens" := Count(maxTokens.value)] else tempered
  }

  /** Which keys the payload has before the keyword arguments: model and messages always,
      "stream" only when streaming, and each optional key exactly when its argument is not None. */
  lemma FieldsKeys(model: string, messages: seq<Message>, tools: Option<seq<Tool>>, toolChoice: Option<ToolChoice>,
                   temperature: Option<Json>, maxTokens: Option<int>, stream: bool)
    ensures forall k :: k in Fields(model, messages, tools, toolChoice, temperature, maxTokens, stream) <==>
      || k == "model" || k == "messages"
      || (k == "stream" && stream)
      || (k == "tools" && tools.Some?)
      || (k == "tool_choice" && toolChoice.Some?)
      || (k == "temperature" && temperature.Some?)
      || (k == "max_tokens" && maxTokens.Some?)
  {
  }

  /** Every entry carries its argument as given: the model, the messages unchanged, the streaming
      flag, the tools, the choice, the temperature and the token limit. */
  lemma FieldsValues(model: string, messages: seq<Message>, tools: Option<seq<Tool>>, toolChoice: Option<ToolChoice>,
                     temperature: Option<Json>, maxTokens: Option<int>, stream: bool)
    ensures var f := Fields(model, messages, tools, toolChoice, temperature, maxTokens, stream);
      && "model" in f && f["model"] == Text(model)
      && "messages" in f && f["messages"] == Messages(messages)
      && (stream ==> "stream" in f && f["stream"] == Flag(true))
      && (tools.Some? ==> "tools" in f && f["tools"] == ToolList(tools.value))
      && (toolChoice.Some? ==> "tool_choice" in f && f["tool_choice"] == Choice(toolChoice.value))
      && (temperature.Some? ==> "temperature" in f && f["temperature"] == Opaque(temperature.value))
      && (maxTokens.Some? ==> "max_tokens" in f && f["max_tokens"] == Count(maxTokens.value))
  {
  }

  // ---------------------------------------------------------------- frames

  /** One entry of `delta["tool_calls"]`, with the `function` dictionary flattened. */
  datatype ToolCallDelta = ToolCallDelta(index: Option<int>, id: Option<string>, name: Option<string>, arguments: Option<string>)

  datatype Delta = Delta(content: Option<string>, toolCalls: Option<seq<ToolCallDelta>>)

  datatype ChunkChoice = ChunkChoice(delta: Delta, finishReason: Option<string>)

  /** A decoded stream chunk; only its `choices` list is read. */
  datatype Chunk = Chunk(choices: Option<seq<ChunkChoice>>)

  /** `chunk.get("choices", [{}])[0]`: an absent list reads as one empty choice, while a present
      but empty list raises IndexError (None here). */
  function FirstChoice(c: Chunk): (r: Option<ChunkChoice>)
    ensures r.None? <==> c.choices == Some([])
    ensures c.choices.None? ==> r == Some(ChunkChoice(Delta(None, None), None))
    ensures c.choices.Some? && c.choices.value != [] ==> r == Some(c.choices.value[0])
  {
    match c.choices
    case None => Some(ChunkChoice(Delta(None, None), None))
    case Some(cs) => if cs == [] then None else Some(cs[0])
  }

  // ---------------------------------------------------------------- the buffer

  /** `tool_calls_buffer`: a dictionary from index to call, kept in insertion order. */
  datatype Buffer = Buffer(order: seq<int>, entries: map<int, PartialCall>)

  const EmptyBuffer := Buffer([], map[])

  /** The order lists each key of the dictionary exactly once. */
  ghost predicate WellFormed(b: Buffer) {
    && (forall i, j :: 0 <= i < j < |b.order| ==> b.order[i] != b.order[j])
    && (forall i :: 0 <= i < |b.order| ==> b.order[i] in b.entries)
    && (forall k :: k in b.entries ==> k in b.order)
  }

  /** A buffer whose order lists a slot holds an entry: `if tool_calls_buffer` reads emptiness off
      the dictionary, and the order agrees. */
  lemma OrderedSlotsAreEntries(b: Buffer)
    requires WellFormed(b)
    ensures b.order != [] ==> |b.entries| != 0
  {
    if b.order != [] {
      assert b.order[0] in b.entries;
    }
  }

  /** The buffer slot a fragment belongs to: `tc.get("index", 0)`. */
  function Slot(tc: ToolCallDelta): int {
    tc.index.GetOr(0)
  }

  /** What a fragment field contributes: its text when it is truthy, nothing otherwise. */
  function Piece(o: Option<string>): string {
    if Truthy(o) then o.value else ""
  }

  /** One fragment added to the buffer: its slot is created on first sight (with the fragment's id,
      or "", and empty name and arguments), then a non-empty name or argument fragment is appended
      to that slot's own entry. */
  function WithFragment(b: Buffer, tc: ToolCallDelta): (r: Buffer)
    requires WellFormed(b)
    ensures WellFormed(r)
    ensures r.order == if Slot(tc) in b.entries then b.order else b.order + [Slot(tc)]
    ensures r.entries.Keys == b.entries.Keys + {Slot(tc)}
    ensures forall k :: k in b.entries && k != Slot(tc) ==> r.entries[k] == b.entries[k]
    ensures Slot(tc) in b.entries ==> r.entries[Slot(tc)] == PartialCall(
      b.entries[Slot(tc)].id, b.entries[Slot(tc)].name + Piece(tc.name), b.entries[Slot(tc)].arguments + Piece(tc.arguments))
    ensures Slot(tc) !in b.entries ==> r.entries[Slot(tc)] == PartialCall(tc.id.GetOr(""), Piece(tc.name), Piece(tc.arguments))
  {
    var slot := Slot(tc);
    var withSlot := if slot in b.entries then b else Buffer(b.order + [slot], b.entries[slot := PartialCall(tc.id.GetOr(""), "", "")]);
    var entry := withSlot.entries[slot];
    var named := if Truthy(tc.name) then entry.(name := entry.name + tc.name.value) else entry;
    var argued := if Truthy(tc.arguments) then named.(arguments := named.arguments + tc.arguments.value) else named;
    assert entry.name + "" == entry.name && entry.arguments + "" == entry.arguments;
    assert named.arguments + "" == named.arguments;
    var r := Buffer(withSlot.order, withSlot.entries[slot := argued]);
    assert forall i :: 0 <= i < |r.order| ==> r.order[i] in r.entries;
    r
  }

  /** The fragments of one chunk added in order. */
  function WithFragments(b: Buffer, tcs: seq<ToolCallDelta>): (r: Buffer)
    requires WellFormed(b)
    ensures WellFormed(r)
    decreases |tcs|
  {
    if tcs == [] then b else WithFragment(WithFragments(b, tcs[..|tcs| - 1]), tcs[|tcs| - 1])
  }

  /** The fragments that belong to one slot, in order. */
  function ForSlot(tcs: seq<ToolCallDelta>, k: int): seq<ToolCallDelta>
    decreases |tcs|
  {
    if tcs == [] then []
    else ForSlot(tcs[..|tcs| - 1], k) + (if Slot(tcs[|tcs| - 1]) == k then [tcs[|tcs| - 1]] else [])
  }

  /** The concatenation of the non-empty name fragments. */
  function Names(tcs: seq<ToolCallDelta>): string
    decreases |tcs|
  {
    if tcs == [] then ""
    else Names(tcs[..|tcs| - 1]) + Piece(tcs[|tcs| - 1].name)
  }

  /** The concatenation of the non-empty argument fragments. */
  function ArgumentText(tcs: seq<ToolCallDelta>): string
    decreases |tcs|
  {
    if tcs == [] then ""
    else ArgumentText(tcs[..|tcs| - 1]) + Piece(tcs[|tcs| - 1].arguments)
  }

  /** The call a slot holds once the fragments `fs` (all of that slot, in order) have been added:
      the id of the first fragment, and all name and argument fragments concatenated. */
  function Assembled(fs: seq<ToolCallDelta>): PartialCall
    requires fs != []
  {
    PartialCall(fs[0].id.GetOr(""), Names(fs), ArgumentText(fs))
  }

  /** No fragment leaks into another slot: starting from an empty buffer, a slot exists exactly when
      some fragment names it, and then holds exactly the assembly of that slot's own fragments. */
  lemma {:induction false} SlotsAccumulateIndependently(tcs: seq<ToolCallDelta>)
    ensures forall k :: k in WithFragments(EmptyBuffer, tcs).entries <==> ForSlot(tcs, k) != []
    ensures forall k :: k in WithFragments(EmptyBuffer, tcs).entries ==>
      WithFragments(EmptyBuffer, tcs).entries[k] == Assembled(ForSlot(tcs, k))
    decreases |tcs|
  {
    if tcs != [] {
      var init, last := tcs[..|tcs| - 1], tcs[|tcs| - 1];
      assert tcs == init + [last];
      SlotsAccumulateIndependently(init);
      var before := WithFragments(EmptyBuffer, init);
      assert WithFragments(EmptyBuffer, tcs) == WithFragment(before, last);
      forall k
        ensures k in WithFragment(before, last).entries <==> ForSlot(init + [last], k) != []
        ensures k in WithFragment(before, last).entries ==>
          WithFragment(before, last).entries[k] == Assembled(ForSlot(init + [last], k))
      {
        SlotStep(before, init, last, k);
      }
    }
  }

  /** One slot across one more fragment: if the slot held the assembly of its fragments so far, it
      holds the assembly of its fragments afterwards. */
  lemma SlotStep(before: Buffer, init: seq<ToolCallDelta>, last: ToolCallDelta, k: int)
    requires WellFormed(before)
    requires k in before.entries <==> ForSlot(init, k) != []
    requires k in before.entries ==> before.entries[k] == Assembled(ForSlot(init, k))
    ensures k in WithFragment(before, last).entries <==> ForSlot(init + [last], k) != []
    ensures k in WithFragment(before, last).entries ==>
      WithFragment(before, last).entries[k] == Assembled(ForSlot(init + [last], k))
  {
    var prev, next := ForSlot(init, k), ForSlot(init + [last], k);
    var after := WithFragment(before, last);
    ForSlotSnoc(init, last, k);
    if k == Slot(last) {
      assert next == prev + [last];
      SlotStepSame(before, prev, last);
      assert k in after.entries && after.entries[k] == Assembled(next);
    } else {
      assert next == prev;
      SlotStepOther(before, last, k);
    }
  }

  /** Any other slot is left as it was. */
  lemma SlotStepOther(before: Buffer, last: ToolCallDelta, k: int)
    requires WellFormed(before)
    requires k != Slot(last)
    ensures k in WithFragment(before, last).entries <==> k in before.entries
    ensures k in before.entries ==> WithFragment(before, last).entries[k] == before.entries[k]
  {
    var after := WithFragment(before, last);
    assert after.entries.Keys == before.entries.Keys + {Slot(last)};
  }

  /** A fragment joins its own slot's list and no other. */
  lemma ForSlotSnoc(init: seq<ToolCallDelta>, last: ToolCallDelta, k: int)
    ensures ForSlot(init + [last], k) == ForSlot(init, k) + (if Slot(last) == k then [last] else [])
  {
    var tcs := init + [last];
    assert tcs[..|tcs| - 1] == init && tcs[|tcs| - 1] == last;
  }

  /** The slot a fragment names: it exists afterwards and holds the assembly of its earlier
      fragments and this one. */
  lemma SlotStepSame(before: Buffer, prev: seq<ToolCallDelta>, last: ToolCallDelta)
    requires WellFormed(before)
    requires Slot(last) in before.entries <==> prev != []
    requires Slot(last) in before.entries ==> before.entries[Slot(last)] == Assembled(prev)
    ensures Slot(last) in WithFragment(before, last).entries
    ensures WithFragment(before, last).entries[Slot(last)] == Assembled(prev + [last])
  {
    AssembledSnoc(prev, last);
    if prev == [] {
      assert Names(prev) + Piece(last.name) == Piece(last.name);
      assert ArgumentText(prev) + Piece(last.arguments) == Piece(last.arguments);
    }
  }

  /** Assembling one more fragment of the same slot. */
  lemma AssembledSnoc(prev: seq<ToolCallDelta>, last: ToolCallDelta)
    ensures Assembled(prev + [last]) == PartialCall(
      if prev == [] then last.id.GetOr("") else prev[0].id.GetOr(""),
      Names(prev) + Piece(last.name), ArgumentText(prev) + Piece(last.arguments))
  {
    var fs := prev + [last];
    assert fs[..|fs| - 1] == prev && fs[|fs| - 1] == last;
    if prev == [] {
      assert Names(prev) == "" && ArgumentText(prev) == "";
    }
  }

  /** A chunk's fragments add onto whatever earlier chunks left in the buffer. */
  lemma {:induction false} WithFragmentsConcat(b: Buffer, a: seq<ToolCallDelta>, c: seq<ToolCallDelta>)
    requires WellFormed(b)
    ensures WithFragments(b, a + c) == WithFragments(WithFragments(b, a), c)
    decreases |c|
  {
    if c == [] {
      assert a + c == a;
    } else {
      assert (a + c)[..|a + c| - 1] == a + c[..|c| - 1];
      WithFragmentsConcat(b, a, c[..|c| - 1]);
    }
  }

  // ---------------------------------------------------------------- flushing

  /** A buffered call as it is emitted: arguments stay the raw concatenated text. */
  function Emitted(p: PartialCall): StreamingEvent {
    ToolCallEvent(ToolCall(Some(p.id), Some(p.name), Some(Raw(p.arguments)), None), ToolCallsReason)
  }

  /** One event per key, in the order given. */
  function FlushKeys(entries: map<int, PartialCall>, keys: seq<int>): (events: seq<StreamingEvent>)
    requires forall i :: 0 <= i < |keys| ==> keys[i] in entries
    ensures |events| == |keys|
    ensures forall i :: 0 <= i < |keys| ==> events[i] == Emitted(entries[keys[i]])
    decreases |keys|
  {
    if keys == [] then [] else FlushKeys(entries, keys[..|keys| - 1]) + [Emitted(entries[keys[|keys| - 1]])]
  }

  /** `for tool_call in tool_calls_buffer.values()`: one event per buffered call, in insertion order. */
  function Flush(b: Buffer): (events: seq<StreamingEvent>)
    requires WellFormed(b)
    ensures |events| == |b.order|
    ensures forall i :: 0 <= i < |b.order| ==> events[i] == Emitted(b.entries[b.order[i]])
  {
    FlushKeys(b.entries, b.order)
  }

  // ---------------------------------------------------------------- one chunk, a whole stream

  /** What one chunk does to the buffer and which events it yields; None when it raises IndexError.
      Content (passed through `normalize`) comes first, then the fragments are buffered when tools
      were given, then the whole buffer is flushed when the chunk finishes with "tool_calls" and the
      buffer is not empty. */
  function ChunkStep(normalize: string -> string, hasTools: bool, b: Buffer, c: Chunk): (r: Option<(Buffer, seq<StreamingEvent>)>)
    requires WellFormed(b)
    ensures r.None? <==> c.choices == Some([])
    ensures r.Some? ==> WellFormed(r.value.0)
  {
    match FirstChoice(c)
    case None => None
    case Some(choice) =>
      var delta := choice.delta;
      var content := if Truthy(delta.content) then [Content(normalize(delta.content.value))] else [];
      var buffered := if hasTools && delta.toolCalls.Some? then WithFragments(b, delta.toolCalls.value) else b;
      var flushed := if choice.finishReason == Some(ToolCallsReason) && |buffered.entries| != 0 then Flush(buffered) else [];
      Some((buffered, content + flushed))
  }

  /** Everything a chunk contributes, read without the buffer: its content text first (when there
      is some), and after it only tool-call events. */
  lemma ChunkEventsOrdered(normalize: string -> string, hasTools: bool, b: Buffer, c: Chunk)
    requires WellFormed(b) && c.choices != Some([])
    ensures var choice := FirstChoice(c).value;
      var es := ChunkStep(normalize, hasTools, b, c).value.1;
      && (Truthy(choice.delta.content) <==> es != [] && es[0].Content?)
      && (Truthy(choice.delta.content) ==> es[0] == Content(normalize(choice.delta.content.value)))
      && (forall i :: 0 <= i < |es| && (i > 0 || !Truthy(choice.delta.content)) ==> es[i].ToolCallEvent?)
  {
  }

  /** The calls a flush yields: one per buffered slot, in first-seen order, each with its assembled
      id and name and its raw argument text. */
  lemma CallsOfFlush(b: Buffer)
    requires WellFormed(b)
    ensures |Calls(Flush(b))| == |b.order|
    ensures forall i :: 0 <= i < |b.order| ==>
      Calls(Flush(b))[i] == ToolCall(Some(b.entries[b.order[i]].id), Some(b.entries[b.order[i]].name),
                                     Some(Raw(b.entries[b.order[i]].arguments)), None)
  {
    CallsOfToolEvents(Flush(b));
  }

  /** The tool calls a chunk yields: none unless it finishes with "tool_calls", and then every call
      in the buffer as it stands after this chunk's fragments (none when that buffer is empty). */
  lemma ChunkToolCalls(normalize: string -> string, hasTools: bool, b: Buffer, c: Chunk)
    requires WellFormed(b) && !Raises(c)
    ensures var step := ChunkStep(normalize, hasTools, b, c).value;
      Calls(step.1) == if FirstChoice(c).value.finishReason == Some(ToolCallsReason) then Calls(Flush(step.0)) else []
  {
    var choice := FirstChoice(c).value;
    var delta := choice.delta;
    var content := if Truthy(delta.content) then [Content(normalize(delta.content.value))] else [];
    var buffered := if hasTools && delta.toolCalls.Some? then WithFragments(b, delta.toolCalls.value) else b;
    var flushed := if choice.finishReason == Some(ToolCallsReason) && |buffered.entries| != 0 then Flush(buffered) else [];
    assert ChunkStep(normalize, hasTools, b, c).value == (buffered, content + flushed);
    FinishCalls(content, buffered, choice.finishReason == Some(ToolCallsReason));
  }

  /** The calls among a chunk's events, content first and then the flush when the chunk finishes
      with "tool_calls" and the buffer is not empty: the calls of the whole buffer when it
      finishes so, none otherwise. */
  lemma FinishCalls(content: seq<StreamingEvent>, buffered: Buffer, finishing: bool)
    requires WellFormed(buffered)
    requires forall i :: 0 <= i < |content| ==> content[i].Content?
    ensures var flushed := if finishing && |buffered.entries| != 0 then Flush(buffered) else [];
      Calls(content + flushed) == if finishing then Calls(Flush(buffered)) else []
  {
    var flushed := if finishing && |buffered.entries| != 0 then Flush(buffered) else [];
    CallsAppend(content, flushed);
    NoCallsInContent(content);
    if finishing && |buffered.entries| == 0 {
      OrderedSlotsAreEntries(buffered);
      assert Flush(buffered) == [];
    }
  }

  /** The state of a reconstruction: the buffer, what was yielded, and the exception that ended it. */
  datatype Progress = Progress(buffer: Buffer, events: seq<StreamingEvent>, fault: Option<Fault>)

  /** The reconstruction of a whole stream, chunk by chunk; after a fault nothing more is read. */
  function Run(normalize: string -> string, hasTools: bool, chunks: seq<Chunk>): (p: Progress)
    ensures WellFormed(p.buffer)
    decreases |chunks|
  {
    if chunks == [] then Progress(EmptyBuffer, [], None)
    else
      var before := Run(normalize, hasTools, chunks[..|chunks| - 1]);
      if before.fault.Some? then before
      else match ChunkStep(normalize, hasTools, before.buffer, chunks[|chunks| - 1])
        case None => before.(fault := Some(IndexError))
        case Some(step) => Progress(step.0, before.events + step.1, None)
  }

  /** A chunk whose `choices` list is present but empty. */
  predicate Raises(c: Chunk) {
    c.choices == Some([])
  }

  /** No chunk of the stream raises. */
  predicate NoneRaise(chunks: seq<Chunk>) {
    forall i :: 0 <= i < |chunks| ==> !Raises(chunks[i])
  }

  /** Once a chunk raises, the stream is over: later chunks change nothing. */
  lemma {:induction false} FaultEndsStream(normalize: string -> string, hasTools: bool, before: seq<Chunk>, bad: Chunk, after: seq<Chunk>)
    requires NoneRaise(before)
    requires Raises(bad)
    ensures Run(normalize, hasTools, before + [bad] + after)
         == Run(normalize, hasTools, before).(fault := Some(IndexError))
  {
    NoFaultWithoutRaise(normalize, hasTools, before);
    var chunks := before + [bad] + after;
    assert chunks[..|before| + 1] == before + [bad];
    assert (before + [bad])[..|before|] == before;
    assert Run(normalize, hasTools, before + [bad]) == Run(normalize, hasTools, before).(fault := Some(IndexError));
    RunFaultSticks(normalize, hasTools, chunks, |before| + 1);
  }

  /** A stream none of whose chunks raises ends without fault. */
  lemma {:induction false} NoFaultWithoutRaise(normalize: string -> string, hasTools: bool, chunks: seq<Chunk>)
    requires NoneRaise(chunks)
    ensures Run(normalize, hasTools, chunks).fault.None?
    decreases |chunks|
  {
    if chunks != [] {
      NoFaultWithoutRaise(normalize, hasTools, chunks[..|chunks| - 1]);
    }
  }

  /** The fragments the stream delivers to the buffer, chunk after chunk. */
  function StreamFragments(hasTools: bool, chunks: seq<Chunk>): seq<ToolCallDelta>
    requires NoneRaise(chunks)
    decreases |chunks|
  {
    if chunks == [] then []
    else
      var delta := FirstChoice(chunks[|chunks| - 1]).value.delta;
      StreamFragments(hasTools, chunks[..|chunks| - 1])
      + (if hasTools && delta.toolCalls.Some? then delta.toolCalls.value else [])
  }

  /** The buffer is never cleared: after any stream it holds every fragment seen so far, as if they
      had all come in one chunk. */
  lemma {:induction false} BufferHoldsAllFragments(normalize: string -> string, hasTools: bool, chunks: seq<Chunk>)
    requires NoneRaise(chunks)
    ensures Run(normalize, hasTools, chunks).buffer == WithFragments(EmptyBuffer, StreamFragments(hasTools, chunks))
    decreases |chunks|
  {
    if chunks != [] {
      var init := chunks[..|chunks| - 1];
      BufferHoldsAllFragments(normalize, hasTools, init);
      NoFaultWithoutRaise(normalize, hasTools, init);
      var delta := FirstChoice(chunks[|chunks| - 1]).value.delta;
      var more := if hasTools && delta.toolCalls.Some? then delta.toolCalls.value else [];
      WithFragmentsConcat(EmptyBuffer, StreamFragments(hasTools, init), more);
      if more == [] {
        assert StreamFragments(hasTools, init) + more == StreamFragments(hasTools, init);
      }
    }
  }

  /** Without tools no fragment is buffered and no tool call is ever yielded. */
  lemma {:induction false} NoToolsNoToolCalls(normalize: string -> string, chunks: seq<Chunk>)
    ensures Run(normalize, false, chunks).buffer == EmptyBuffer
    ensures Calls(Run(normalize, false, chunks).events) == []
    decreases |chunks|
  {
    if chunks != [] {
      var init := chunks[..|chunks| - 1];
      NoToolsNoToolCalls(normalize, init);
      var before := Run(normalize, false, init);
      var step := ChunkStep(normalize, false, before.buffer, chunks[|chunks| - 1]);
      if before.fault.None? && step.Some? {
        var es := step.value.1;
        assert Calls(es) == [] by {
          assert forall i :: 0 <= i < |es| ==> es[i].Content?;
          NoCallsInContent(es);
        }
        CallsAppend(before.events, es);
      }
    }
  }

  /** The text a chunk contributes (normalised), read without the buffer. */
  function ChunkText(normalize: string -> string, c: Chunk): seq<string>
    requires !Raises(c)
  {
    var delta := FirstChoice(c).value.delta;
    if Truthy(delta.content) then [normalize(delta.content.value)] else []
  }

  /** The content events of a stream are exactly the non-empty content deltas, in order, whatever
      the buffer holds. */
  lemma {:induction false} ContentIsEveryDelta(normalize: string -> string, hasTools: bool, chunks: seq<Chunk>)
    requires NoneRaise(chunks)
    ensures Texts(Run(normalize, hasTools, chunks).events) == AllText(normalize, chunks)
    decreases |chunks|
  {
    if chunks != [] {
      var init, last := chunks[..|chunks| - 1], chunks[|chunks| - 1];
      ContentIsEveryDelta(normalize, hasTools, init);
      NoFaultWithoutRaise(normalize, hasTools, init);
      var before := Run(normalize, hasTools, init);
      var es := ChunkStep(normalize, hasTools, before.buffer, last).value.1;
      TextsAppend(before.events, es);
      ChunkTexts(normalize, hasTools, before.buffer, last);
    }
  }

  /** The text one chunk yields is its content alone: the flushed calls carry none. */
  lemma ChunkTexts(normalize: string -> string, hasTools: bool, b: Buffer, c: Chunk)
    requires WellFormed(b) && !Raises(c)
    ensures Texts(ChunkStep(normalize, hasTools, b, c).value.1) == ChunkText(normalize, c)
  {
    var choice := FirstChoice(c).value;
    var content := if Truthy(choice.delta.content) then [Content(normalize(choice.delta.content.value))] else [];
    var buffered := if hasTools && choice.delta.toolCalls.Some? then WithFragments(b, choice.delta.toolCalls.value) else b;
    var flushed := if choice.finishReason == Some(ToolCallsReason) && |buffered.entries| != 0 then Flush(buffered) else [];
    assert ChunkStep(normalize, hasTools, b, c).value.1 == content + flushed;
    TextsAppend(content, flushed);
    NoTextInCalls(flushed);
  }

  /** All the content text of a stream, chunk after chunk. */
  function AllText(normalize: string -> string, chunks: seq<Chunk>): seq<string>
    requires NoneRaise(chunks)
    decreases |chunks|
  {
    if chunks == [] then [] else AllText(normalize, chunks[..|chunks| - 1]) + ChunkText(normalize, chunks[|chunks| - 1])
  }

  // ---------------------------------------------------------------- the reconstructor object

  /** The local state of `chat_stream`: the buffer dictionary as its insertion order and entries. */
  class Reconstructor {
    const normalize: string -> string
    const hasToolCalls: bool
    var order: seq<int>
    var entries: map<int, PartialCall>

    ghost predicate Valid()
      reads this
    {
      WellFormed(Buffer(order, entries))
    }

    function State(): Buffer
      reads this
    {
      Buffer(order, entries)
    }

    constructor (normalize: string -> string, hasToolCalls: bool)
      ensures Valid() && State() == EmptyBuffer
      ensures this.normalize == normalize && this.hasToolCalls == hasToolCalls
    {
      this.normalize := normalize;
      this.hasToolCalls := hasToolCalls;
      order := [];
      entries := map[];
    }

    /** One fragment: open the slot on first sight, then append the name and argument pieces. */
    method Accumulate(tc: ToolCallDelta)
      requires Valid()
      modifies this
      ensures Valid()
      ensures State() == WithFragment(old(State()), tc)
    {
      var idx := tc.index.GetOr(0);
      if idx !in entries {
        entries := entries[idx := PartialCall(tc.id.GetOr(""), "", "")];
        order := order + [idx];
      }
      if tc.name.Some? && tc.name.value != "" {
        entries := entries[idx := entries[idx].(name := entries[idx].name + tc.name.value)];
      }
      if tc.arguments.Some? && tc.arguments.value != "" {
        entries := entries[idx := entries[idx].(arguments := entries[idx].arguments + tc.arguments.value)];
      }
    }

    /** The fragments of one delta, added one after another. */
    method AccumulateAll(tcs: seq<ToolCallDelta>)
      requires Valid()
      modifies this
      ensures Valid()
      ensures State() == WithFragments(old(State()), tcs)
    {
      var i := 0;
      while i < |tcs|
        invariant 0 <= i <= |tcs|
        invariant Valid()
        invariant State() == WithFragments(old(State()), tcs[..i])
      {
        assert tcs[..i + 1][..i] == tcs[..i];
        Accumulate(tcs[i]);
        i := i + 1;
      }
      assert tcs[..i] == tcs;
    }

    /** The flush loop: one event per buffered call, in insertion order. */
    method FlushAll() returns (events: seq<StreamingEvent>)
      requires Valid()
      ensures events == Flush(State())
    {
      events := [];
      var j := 0;
      while j < |order|
        invariant 0 <= j <= |order|
        invariant events == FlushKeys(entries, order[..j])
      {
        assert order[..j + 1][..j] == order[..j];
        events := events + [Emitted(entries[order[j]])];
        j := j + 1;
      }
      assert order[..j] == order;
    }

    /** The body of the chunk loop: the events one chunk yields, or the fault it raises. */
    method Feed(c: Chunk) returns (events: seq<StreamingEvent>, fault: Option<Fault>)
      requires Valid()
      modifies this
      ensures Valid()
      ensures var step := ChunkStep(normalize, hasToolCalls, old(State()), c);
        && (step.None? ==> fault == Some(IndexError) && events == [] && State() == old(State()))
        && (step.Some? ==> fault.None? && events == step.value.1 && State() == step.value.0)
    {
      if c.choices == Some([]) {
        return [], Some(IndexError);
      }
      var choice := if c.choices.None? then ChunkChoice(Delta(None, None), None) else c.choices.value[0];
      var delta := choice.delta;
      var content: seq<StreamingEvent> := [];
      if delta.content.Some? && delta.content.value != "" {
        content := [Content(normalize(delta.content.value))];
      }
      if hasToolCalls && delta.toolCalls.Some? {
        AccumulateAll(delta.toolCalls.value);
      }
      var flushed: seq<StreamingEvent> := [];
      if choice.finishReason == Some(ToolCallsReason) && |entries| != 0 {
        flushed := FlushAll();
      }
      events, fault := content + flushed, None;
    }
  }

  /** `chat_stream`'s loop over the decoded chunks with a fresh reconstructor: the events yielded
      and the exception that ended the stream, exactly as `Run` describes them. */
  method Reconstruct(normalize: string -> string, hasTools: bool, chunks: seq<Chunk>)
    returns (events: seq<StreamingEvent>, fault: Option<Fault>)
    ensures events == Run(normalize, hasTools, chunks).events
    ensures fault == Run(normalize, hasTools, chunks).fault
  {
    var r := new Reconstructor(normalize, hasTools);
    events, fault := [], None;
    var i := 0;
    while i < |chunks|
      invariant 0 <= i <= |chunks|
      invariant r.normalize == normalize && r.hasToolCalls == hasTools
      invariant Run(normalize, hasTools, chunks[..i]) == Progress(r.State(), events, None)
    {
      RunStep(normalize, hasTools, chunks, i);
      var more, raised := r.Feed(chunks[i]);
      if raised.Some? {
        fault := raised;
        RunAfterFault(normalize, hasTools, chunks, i);
        return;
      }
      events := events + more;
      i := i + 1;
    }
    assert chunks[..i] == chunks;
  }

  /** One more chunk after a clean prefix is one more step. */
  lemma RunStep(normalize: string -> string, hasTools: bool, chunks: seq<Chunk>, i: nat)
    requires i < |chunks|
    requires Run(normalize, hasTools, chunks[..i]).fault.None?
    ensures var before := Run(normalize, hasTools, chunks[..i]);
      var step := ChunkStep(normalize, hasTools, before.buffer, chunks[i]);
      step.Some? ==> Run(normalize, hasTools, chunks[..i + 1]) == Progress(step.value.0, before.events + step.value.1, None)
  {
    assert chunks[..i + 1][..i] == chunks[..i];
  }

  /** When the chunk at `i` raises after a clean prefix, the whole stream ends with the prefix's events. */
  lemma RunAfterFault(normalize: string -> string, hasTools: bool, chunks: seq<Chunk>, i: nat)
    requires i < |chunks| && Raises(chunks[i])
    requires Run(normalize, hasTools, chunks[..i]).fault.None?
    ensures Run(normalize, hasTools, chunks) == Run(normalize, hasTools, chunks[..i]).(fault := Some(IndexError))
  {
    assert chunks[..i + 1][..i] == chunks[..i];
    RunFaultSticks(normalize, hasTools, chunks, i + 1);
  }

  lemma {:induction false} RunFaultSticks(normalize: string -> string, hasTools: bool, chunks: seq<Chunk>, n: nat)
    requires 0 < n <= |chunks|
    requires Run(normalize, hasTools, chunks[..n]).fault.Some?
    ensures Run(normalize, hasTools, chunks) == Run(normalize, hasTools, chunks[..n])
    decreases |chunks| - n
  {
    if n < |chunks| {
      assert chunks[..n + 1][..n] == chunks[..n];
      RunFaultSticks(normalize, hasTools, chunks, n + 1);
    } else {
      assert chunks[..n] == chunks;
    }
  }

  // ---------------------------------------------------------------- the generator of `chat_stream`

  /** The generator half of `chat_stream`: the client's error before anything is yielded, or the
      events reconstructed from the decoded chunks with the exception, if any, that ended them. */
  method StreamEvents(normalize: string -> string, hasTools: bool, status: int, text: string, body: Option<Json>,
                      lines: seq<string>, decode: string -> Chunk)
    returns (r: HttpClient.Result<(seq<StreamingEvent>, Option<Fault>)>)
    ensures !HttpClient.ResponseOk(status) ==>
      r.Err? && r.error.Api? && Some(r.error.error) == HttpClient.HandleError(status, text, body)
    ensures HttpClient.ResponseOk(status) ==>
      var run := Run(normalize, hasTools, DecodeAll(decode, HttpClient.DataPayloads(lines)));
      r == HttpClient.Ok((run.events, run.fault))
  {
    var framed := HttpClient.PostStream(status, text, body, lines);
    if framed.Err? {
      return HttpClient.Err(framed.error);
    }
    var events, fault := Reconstruct(normalize, hasTools, DecodeAll(decode, framed.value));
    r := HttpClient.Ok((events, fault));
  }
}
