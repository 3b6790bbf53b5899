/** The Anthropic provider (`providers/anthropic.py`): unified messages become Messages-API
    messages with the system prompt lifted out, tools and tool choice are translated, a response is
    normalised to the unified completion, and the event stream is reconstructed by a single-slot
    state machine that assembles one tool call at a time. */
module Anthropic {
  import opened Types
  import opened BaseProvider
  import opened ToolDeclarations
  import HttpClient

  /** The class attribute `default_base_url`. */
  const ClassBaseUrl: string := "https://api.anthropic.com/v1"

  /** The defaults of the `model` and `max_tokens` parameters of `chat` and `chat_stream`. */
  const DefaultModel: string := "claude-3-haiku-20240307"
  const DefaultMaxTokens: int := 1024

  // ---------------------------------------------------------------- messages

  /** A content block of a Messages-API message. */
  datatype Block =
    | TextBlock(text: string)
    | ToolUseBlock(id: Option<string>, name: Option<string>, input: Arguments)
    | ToolResultBlock(toolUseId: Option<string>, content: Option<string>)

  /** A message's content: plain (possibly None) or a list of blocks. */
  datatype WireContent = Plain(text: Option<string>) | Blocks(blocks: seq<Block>)

  datatype WireMessage = WireMessage(role: string, content: WireContent)

  /** The `tool_use` block of a tool call: id, name and arguments copied, absent arguments as `{}`. */
  function ToolUse(tc: ToolCall): Block {
    ToolUseBlock(tc.id, tc.name, tc.arguments.GetOr(Structured(EmptyObject)))
  }

  /** The blocks of a message that carries tool calls: a text block first exactly when the content
      is not empty, then one `tool_use` block per call, in order. */
  function AssistantContent(content: Option<string>, calls: seq<ToolCall>): (blocks: seq<Block>)
    ensures |blocks| == (if Truthy(content) then 1 else 0) + |calls|
    ensures Truthy(content) <==> |blocks| > 0 && blocks[0].TextBlock?
    ensures Truthy(content) ==> blocks[0] == TextBlock(content.value)
    ensures forall i :: 0 <= i < |calls| ==> blocks[(if Truthy(content) then 1 else 0) + i] == ToolUse(calls[i])
  {
    (if Truthy(content) then [TextBlock(content.value)] else []) + seq(|calls|, i requires 0 <= i < |calls| => ToolUse(calls[i]))
  }

  /** The inner loop of `_to_anthropic_messages` over one message's tool calls. */
  method BuildAssistantContent(content: Option<string>, calls: seq<ToolCall>) returns (blocks: seq<Block>)
    ensures blocks == AssistantContent(content, calls)
  {
    blocks := [];
    if content.Some? && content.value != "" {
      blocks := [TextBlock(content.value)];
    }
    var prefix := blocks;
    var i := 0;
    while i < |calls|
      invariant 0 <= i <= |calls|
      invariant |blocks| == |prefix| + i
      invariant blocks[..|prefix|] == prefix
      invariant forall j :: 0 <= j < i ==> blocks[|prefix| + j] == ToolUse(calls[j])
    {
      var tc := calls[i];
      blocks := blocks + [ToolUseBlock(tc.id, tc.name, tc.arguments.GetOr(Structured(EmptyObject)))];
      i := i + 1;
    }
    assert blocks == AssistantContent(content, calls);
  }

  /** One non-system message translated: a tool result becomes a user message holding exactly one
      `tool_result` block; a message with tool calls becomes a block list; any other message keeps
      its role and content. */
  function ConvertMessage(m: Message): (w: WireMessage)
    requires m.role != "system"
    ensures w.role != "system"
    ensures m.role == "tool" ==> w == WireMessage("user", Blocks([ToolResultBlock(m.toolCallId, m.content)]))
    ensures m.role != "tool" ==> w.role == m.role
    ensures m.role != "tool" && CallsOf(m) != [] ==> w.content == Blocks(AssistantContent(m.content, CallsOf(m)))
    ensures m.role != "tool" && CallsOf(m) == [] ==> w.content == Plain(m.content)
  {
    if m.role == "tool" then WireMessage("user", Blocks([ToolResultBlock(m.toolCallId, m.content)]))
    else if CallsOf(m) != [] then WireMessage(m.role, Blocks(AssistantContent(m.content, CallsOf(m))))
    else WireMessage(m.role, Plain(m.content))
  }

  /** `_to_anthropic_messages` as a fold: a system message replaces the system prompt and is not
      forwarded; every other message is translated and appended. */
  function Translate(ms: seq<Message>): (r: (Option<string>, seq<WireMessage>))
    decreases |ms|
  {
    if ms == [] then (None, [])
    else
      var (system, out) := Translate(ms[..|ms| - 1]);
      var m := ms[|ms| - 1];
      if m.role == "system" then (m.content, out) else (system, out + [ConvertMessage(m)])
  }

  /** The messages that are forwarded: the non-system ones, in order. */
  function NonSystem(ms: seq<Message>): (r: seq<Message>)
    ensures |r| <= |ms|
    ensures forall i :: 0 <= i < |r| ==> r[i].role != "system"
    decreases |ms|
  {
    if ms == [] then []
    else NonSystem(ms[..|ms| - 1]) + (if ms[|ms| - 1].role == "system" then [] else [ms[|ms| - 1]])
  }

  /** The system prompt is the content of the last system message, and None when there is none. */
  lemma {:induction false} SystemIsLastSystemMessage(ms: seq<Message>)
    ensures (forall i :: 0 <= i < |ms| ==> ms[i].role != "system") ==> Translate(ms).0.None?
    ensures forall i :: (0 <= i < |ms| && ms[i].role == "system" && (forall j :: i < j < |ms| ==> ms[j].role != "system"))
                        ==> Translate(ms).0 == ms[i].content
    decreases |ms|
  {
    if ms != [] {
      var init := ms[..|ms| - 1];
      SystemIsLastSystemMessage(init);
      forall i | 0 <= i < |ms| && ms[i].role == "system" && (forall j :: i < j < |ms| ==> ms[j].role != "system")
        ensures Translate(ms).0 == ms[i].content
      {
        if i < |ms| - 1 {
          assert ms[|ms| - 1].role != "system";
          assert init[i] == ms[i];
          assert forall j :: i < j < |init| ==> init[j].role != "system" by {
            forall j | i < j < |init| ensures init[j].role != "system" {
              assert init[j] == ms[j];
            }
          }
        }
      }
      if forall i :: 0 <= i < |ms| ==> ms[i].role != "system" {
        assert ms[|ms| - 1].role != "system";
        assert forall i :: 0 <= i < |init| ==> init[i] == ms[i];
      }
    }
  }

  /** The forwarded messages are the non-system messages translated one for one, in order; so no
      system message ever appears in them. */
  lemma {:induction false} ForwardedAreTranslated(ms: seq<Message>)
    ensures |Translate(ms).1| == |NonSystem(ms)|
    ensures forall i :: 0 <= i < |NonSystem(ms)| ==> Translate(ms).1[i] == ConvertMessage(NonSystem(ms)[i])
    ensures forall i :: 0 <= i < |Translate(ms).1| ==> Translate(ms).1[i].role != "system"
    decreases |ms|
  {
    if ms != [] {
      ForwardedAreTranslated(ms[..|ms| - 1]);
    }
  }

  /** The translation loop of `_to_anthropic_messages`. */
  method ToAnthropicMessages(ms: seq<Message>) returns (system: Option<string>, out: seq<WireMessage>)
    ensures (system, out) == Translate(ms)
  {
    system, out := None, [];
    var i := 0;
    while i < |ms|
      invariant 0 <= i <= |ms|
      invariant (system, out) == Translate(ms[..i])
    {
      assert ms[..i + 1][..i] == ms[..i];
      var m := ms[i];
      if m.role == "system" {
        system := m.content;
      } else if m.role == "tool" {
        out := out + [WireMessage("user", Blocks([ToolResultBlock(m.toolCallId, m.content)]))];
      } else if m.toolCalls.Some? && m.toolCalls.value != [] {
        var blocks := BuildAssistantContent(m.content, m.toolCalls.value);
        out := out + [WireMessage(m.role, Blocks(blocks))];
      } else {
        out := out + [WireMessage(m.role, Plain(m.content))];
      }
      i := i + 1;
    }
    assert ms[..i] == ms;
  }

  // ---------------------------------------------------------------- tool choice and payload

  /** Anthropic's `tool_choice` object: `{"type": ...}`, with a name when one tool is forced. */
  datatype Choice = Choice(choiceType: string, name: Option<string>)

  /** The tool-choice mapping of `chat` and `chat_stream`; None leaves `tool_choice` out. */
  function MapToolChoice(tc: ToolChoice): (r: Option<Choice>)
    ensures tc == Tag("auto") <==> r == Some(Choice("auto", None))
    ensures tc == Tag("none") <==> r == Some(Choice("none", None))
    ensures tc == Tag("required") <==> r == Some(Choice("any", None))
    ensures (r.Some? && r.value.choiceType == "tool") <==> (tc.Pinned? && tc.choiceType == Some("function"))
    ensures r.Some? && r.value.choiceType == "tool" ==> r.value.name == Some(tc.functionName)
    ensures r.None? <==>
      ((tc.Tag? && tc.tag != "auto" && tc.tag != "none" && tc.tag != "required") || (tc.Pinned? && tc.choiceType != Some("function")))
  {
    match tc
    case Tag(t) =>
      if t == "auto" then Some(Choice("auto", None))
      else if t == "none" then Some(Choice("none", None))
      else if t == "required" then Some(Choice("any", None))
      else None
    case Pinned(choiceType, name) =>
      if choiceType == Some("function") then Some(Choice("tool", Some(name))) else None
  }

  /** A value of the request payload dictionary. */
  datatype Field =
    | Word(word: string)
    | Count(count: int)
    | Flag(flag: bool)
    | Conversation(messages: seq<WireMessage>)
    | ToolSchemas(declarations: seq<Declaration>)
    | ChoiceField(choice: Choice)
    | Opaque(json: Json)

  /** The payload of `chat` (stream false) and `chat_stream` (stream true): the translated parts
      put in by successive dictionary updates, and the extra keyword arguments merged last. */
  method BuildPayload(messages: MessagesInput, model: Option<string>, tools: Option<seq<Tool>>,
                      toolChoice: Option<ToolChoice>, maxTokens: Option<int>, temperature: Option<Json>,
                      stream: bool, kwargs: map<string, Field>)
    returns (payload: map<string, Field>)
    ensures payload == Fields(model.GetOr(DefaultModel), maxTokens.GetOr(DefaultMaxTokens),
                              Translate(NormalizeMessages(messages)).0, Translate(NormalizeMessages(messages)).1,
                              if tools.Some? then Some(Declarations(tools.value)) else None,
                              if toolChoice.Some? then MapToolChoice(toolChoice.value) else None,
                              temperature, stream) + kwargs
    ensures forall k :: k in kwargs ==> payload[k] == kwargs[k]
  {
    var system, converted := ToAnthropicMessages(NormalizeMessages(messages));
    var decls: Option<seq<Declaration>> := None;
    if tools.Some? {
      var declared := ConvertTools(tools.value);
      decls := Some(declared);
    }
    var choice := if toolChoice.Some? then MapToolChoice(toolChoice.value) else None;
    payload := Assemble(model.GetOr(DefaultModel), maxTokens.GetOr(DefaultMaxTokens), system, converted,
                        decls, choice, temperature, stream);
    payload := payload + kwargs;
  }

  /** The successive dictionary updates of the payload, before the keyword arguments. */
  method Assemble(model: string, maxTokens: int, system: Option<string>, converted: seq<WireMessage>,
                  decls: Option<seq<Declaration>>, choice: Option<Choice>, temperature: Option<Json>, stream: bool)
    returns (payload: map<string, Field>)
    ensures payload == Fields(model, maxTokens, system, converted, decls, choice, temperature, stream)
  {
    payload := map["model" := Word(model), "max_tokens" := Count(maxTokens), "messages" := Conversation(converted)];
    if stream {
      payload := payload["stream" := Flag(true)];
    }
    if system.Some? && system.value != "" {
      payload := payload["system" := Word(system.value)];
    }
    if decls.Some? {
      payload := payload["tools" := ToolSchemas(decls.value)];
    }
    if choice.Some? {
      payload := payload["tool_choice" := ChoiceField(choice.value)];
    }
    if temperature.Some? {
      payload := payload["temperature" := Opaque(temperature.value)];
    }
  }

  /** The payload before the keyword arguments: model, max_tokens and messages, then each optional
      entry whose condition holds. */
  function Fields(model: string, maxTokens: int, system: Option<string>, converted: seq<WireMessage>,
                  decls: Option<seq<Declaration>>, choice: Option<Choice>, temperature: Option<Json>, stream: bool)
    : map<string, Field>
  {
    var base := map["model" := Word(model), "max_tokens" := Count(maxTokens), "messages" := Conversation(converted)];
    var streamed := if stream then base["stream" := Flag(true)] else base;
    var prompted := if Truthy(system) then streamed["system" := Word(system.value)] else streamed;
    var tooled := if decls.Some? then prompted["tools" := ToolSchemas(decls.value)] else prompted;
    var chosen := if choice.Some? then tooled["tool_choice" := ChoiceField(choice.value)] else tooled;
    if temperature.Some? then chosen["temperature" := Opaque(temperature.value)] else chosen
  }

  /** Which keys the payload has before the keyword arguments: model, max_tokens and messages
      always; "stream" only when streaming; "system" only for a non-empty system prompt; "tools"
      when tools were given; "tool_choice" only when the choice maps to something; "temperature"
      when given. */
  lemma FieldsKeys(model: string, maxTokens: int, system: Option<string>, converted: seq<WireMessage>,
                   decls: Option<seq<Declaration>>, choice: Option<Choice>, temperature: Option<Json>, stream: bool)
    ensures forall k :: k in Fields(model, maxTokens, system, converted, decls, choice, temperature, stream) <==>
      || k == "model" || k == "max_tokens" || k == "messages"
      || (k == "stream" && stream)
      || (k == "system" && Truthy(system))
      || (k == "tools" && decls.Some?)
      || (k == "tool_choice" && choice.Some?)
      || (k == "temperature" && temperature.Some?)
  {
  }

  /** The fixed entries carry the model, the token limit and the translated messages, and the
      system prompt when it is not empty. */
  lemma FieldsRequired(model: string, maxTokens: int, system: Option<string>, converted: seq<WireMessage>,
                       decls: Option<seq<Declaration>>, choice: Option<Choice>, temperature: Option<Json>, stream: bool)
    ensures var f := Fields(model, maxTokens, system, converted, decls, choice, temperature, stream);
      && "model" in f && f["model"] == Word(model)
      && "max_tokens" in f && f["max_tokens"] == Count(maxTokens)
      && "messages" in f && f["messages"] == Conversation(converted)
      && (Truthy(system) ==> "system" in f && f["system"] == Word(system.value))
  {
  }

  /** The optional entries carry the streaming flag, the declarations, the mapped choice and the
      temperature, each as given. */
  lemma FieldsOptional(model: string, maxTokens: int, system: Option<string>, converted: seq<WireMessage>,
                       decls: Option<seq<Declaration>>, choice: Option<Choice>, temperature: Option<Json>, stream: bool)
    ensures var f := Fields(model, maxTokens, system, converted, decls, choice, temperature, stream);
      && (stream ==> "stream" in f && f["stream"] == Flag(true))
      && (decls.Some? ==> "tools" in f && f["tools"] == ToolSchemas(decls.value))
      && (choice.Some? ==> "tool_choice" in f && f["tool_choice"] == ChoiceField(choice.value))
      && (temperature.Some? ==> "temperature" in f && f["temperature"] == Opaque(temperature.value))
  {
  }

  // ---------------------------------------------------------------- response normalisation

  /** A content block of a Messages-API response. */
  datatype ResponseBlock = ResponseBlock(
    blockType: Option<string>, text: Option<string>, id: Option<string>, name: Option<string>, input: Option<Json>)

  datatype ResponseUsage = ResponseUsage(inputTokens: Option<int>, outputTokens: Option<int>)

  /** A decoded Messages-API response; only these keys are read. */
  datatype Response = Response(
    id: Option<string>, model: Option<string>, content: Option<seq<ResponseBlock>>,
    stopReason: Option<string>, usage: Option<ResponseUsage>)

  /** The text of the text blocks, concatenated in order (a text block without text adds nothing). */
  function BlockText(blocks: seq<ResponseBlock>): string
    decreases |blocks|
  {
    if blocks == [] then ""
    else
      var b := blocks[|blocks| - 1];
      BlockText(blocks[..|blocks| - 1]) + (if b.blockType == Some("text") then b.text.GetOr("") else "")
  }

  /** The unified call of a `tool_use` block: its id and name, and its input (default `{}`) as
      already-structured arguments. */
  function BlockCall(b: ResponseBlock): ToolCall {
    ToolCall(b.id, b.name, Some(Structured(b.input.GetOr(EmptyObject))), None)
  }

  /** The calls of the `tool_use` blocks, in order. */
  function BlockCalls(blocks: seq<ResponseBlock>): seq<ToolCall>
    decreases |blocks|
  {
    if blocks == [] then []
    else
      var b := blocks[|blocks| - 1];
      BlockCalls(blocks[..|blocks| - 1]) + (if b.blockType == Some("tool_use") then [BlockCall(b)] else [])
  }

  /** There are calls exactly when some block is a `tool_use` block. */
  lemma {:induction false} CallsIffToolUse(blocks: seq<ResponseBlock>)
    ensures BlockCalls(blocks) != [] <==> exists i :: 0 <= i < |blocks| && blocks[i].blockType == Some("tool_use")
    decreases |blocks|
  {
    if blocks != [] {
      var init := blocks[..|blocks| - 1];
      CallsIffToolUse(init);
      if exists i :: 0 <= i < |init| && init[i].blockType == Some("tool_use") {
        var i :| 0 <= i < |init| && init[i].blockType == Some("tool_use");
        assert blocks[i] == init[i];
      }
      if exists i :: 0 <= i < |blocks| && blocks[i].blockType == Some("tool_use") {
        var i :| 0 <= i < |blocks| && blocks[i].blockType == Some("tool_use");
        if i < |init| {
          assert init[i] == blocks[i];
        }
      }
    }
  }

  /** `_normalize_response`: the blocks are read in one loop that concatenates the text and
      collects the calls; the content is None when no text was found, the "tool_calls" key is
      present exactly when some block is a `tool_use` block, and the total is input plus output
      tokens, each 0 when missing. */
  method NormalizeResponse(r: Response) returns (c: ChatCompletion)
    ensures var blocks := r.content.GetOr([]);
      && c.message.role == "assistant"
      && c.message.content == (if BlockText(blocks) == "" then None else Some(BlockText(blocks)))
      && (c.message.toolCalls.Some? <==> exists i :: 0 <= i < |blocks| && blocks[i].blockType == Some("tool_use"))
      && (c.message.toolCalls.Some? ==> c.message.toolCalls.value == BlockCalls(blocks))
      && c.message.toolCallId.None? && c.message.name.None?
    ensures c.id == r.id && c.model == r.model && c.finishReason == r.stopReason
    ensures var u := r.usage.GetOr(ResponseUsage(None, None));
      && c.usage.promptTokens == u.inputTokens.GetOr(0)
      && c.usage.completionTokens == u.outputTokens.GetOr(0)
      && c.usage.totalTokens == c.usage.promptTokens + c.usage.completionTokens
  {
    var blocks := r.content.GetOr([]);
    var content := "";
    var calls: seq<ToolCall> := [];
    var i := 0;
    while i < |blocks|
      invariant 0 <= i <= |blocks|
      invariant content == BlockText(blocks[..i])
      invariant calls == BlockCalls(blocks[..i])
    {
      assert blocks[..i + 1][..i] == blocks[..i];
      var b := blocks[i];
      if b.blockType == Some("text") {
        content := content + b.text.GetOr("");
      } else if b.blockType == Some("tool_use") {
        calls := calls + [ToolCall(b.id, b.name, Some(Structured(b.input.GetOr(EmptyObject))), None)];
      }
      i := i + 1;
    }
    assert blocks[..i] == blocks;
    CallsIffToolUse(blocks);
    var message := Message("assistant", if content != "" then Some(content) else None,
                           if calls != [] then Some(calls) else None, None, None);
    var u := r.usage.GetOr(ResponseUsage(None, None));
    var prompt, completion := u.inputTokens.GetOr(0), u.outputTokens.GetOr(0);
    c := ChatCompletion(r.id, r.model, message, r.stopReason, Usage(prompt, completion, prompt + completion));
  }

  // ---------------------------------------------------------------- the stream

  /** The `delta` of a `content_block_delta` event. */
  datatype EventDelta = EventDelta(deltaType: Option<string>, text: Option<string>, partialJson: Option<string>)

  /** The `content_block` of a `content_block_start` event. */
  datatype StartBlock = StartBlock(blockType: Option<string>, id: Option<string>, name: Option<string>)

  /** A decoded stream event; only these keys are read. */
  datatype Frame = Frame(eventType: Option<string>, delta: Option<EventDelta>, contentBlock: Option<StartBlock>)

  /** `event.get("delta", {})` and `event.get("content_block", {})`. */
  function DeltaOf(f: Frame): EventDelta {
    f.delta.GetOr(EventDelta(None, None, None))
  }

  function StartOf(f: Frame): StartBlock {
    f.contentBlock.GetOr(StartBlock(None, None, None))
  }

  predicate IsDelta(f: Frame) {
    f.eventType == Some("content_block_delta")
  }

  /** A `text_delta` with non-empty text. */
  predicate IsTextDelta(f: Frame) {
    IsDelta(f) && DeltaOf(f).deltaType == Some("text_delta") && Truthy(DeltaOf(f).text)
  }

  /** An `input_json_delta` carrying a `partial_json` entry. */
  predicate IsArgumentDelta(f: Frame) {
    IsDelta(f) && DeltaOf(f).deltaType == Some("input_json_delta") && DeltaOf(f).partialJson.Some?
  }

  /** A `tool_use` block start that is honoured: tools were given. */
  predicate IsToolStart(hasTools: bool, f: Frame) {
    f.eventType == Some("content_block_start") && hasTools && StartOf(f).blockType == Some("tool_use")
  }

  predicate IsStop(f: Frame) {
    f.eventType == Some("content_block_stop")
  }

  /** The call a stop emits: the accumulated arguments parsed when they are not empty and parse,
      and otherwise kept as the text. */
  function Finalize(parse: string -> Option<Json>, p: PartialCall): (tc: ToolCall)
    ensures tc.id == Some(p.id) && tc.name == Some(p.name) && tc.thoughtSignature.None?
    ensures p.arguments != "" && parse(p.arguments).Some? ==> tc.arguments == Some(Structured(parse(p.arguments).value))
    ensures p.arguments == "" || parse(p.arguments).None? ==> tc.arguments == Some(Raw(p.arguments))
  {
    var args := if p.arguments != "" && parse(p.arguments).Some? then Structured(parse(p.arguments).value) else Raw(p.arguments);
    ToolCall(Some(p.id), Some(p.name), Some(args), None)
  }

  /** One event of the stream: the call that is open afterwards and what is yielded. */
  function Step(parse: string -> Option<Json>, hasTools: bool, open: Option<PartialCall>, f: Frame)
    : (r: (Option<PartialCall>, seq<StreamingEvent>))
    ensures |r.1| <= 1
    ensures r.1 != [] && r.1[0].Content? <==> IsTextDelta(f)
    ensures r.1 != [] && r.1[0].ToolCallEvent? <==> IsStop(f) && open.Some?
  {
    if IsDelta(f) then
      var delta := DeltaOf(f);
      if delta.deltaType == Some("text_delta") then
        (open, if Truthy(delta.text) then [Content(delta.text.value)] else [])
      else if delta.deltaType == Some("input_json_delta") && open.Some? && delta.partialJson.Some? then
        (Some(open.value.(arguments := open.value.arguments + delta.partialJson.value)), [])
      else (open, [])
    else if f.eventType == Some("content_block_start") && hasTools then
      var block := StartOf(f);
      if block.blockType == Some("tool_use") then (Some(PartialCall(block.id.GetOr(""), block.name.GetOr(""), "")), [])
      else (open, [])
    else if IsStop(f) && open.Some? then
      (None, [ToolCallEvent(Finalize(parse, open.value), ToolCallsReason)])
    else (open, [])
  }

  /** A reconstruction so far: the call being assembled, if any, and the events yielded. */
  datatype Progress = Progress(open: Option<PartialCall>, events: seq<StreamingEvent>)

  function Run(parse: string -> Option<Json>, hasTools: bool, frames: seq<Frame>): Progress
    decreases |frames|
  {
    if frames == [] then Progress(None, [])
    else
      var before := Run(parse, hasTools, frames[..|frames| - 1]);
      var (open, more) := Step(parse, hasTools, before.open, frames[|frames| - 1]);
      Progress(open, before.events + more)
  }

  /** The texts of the non-empty text deltas, in order. */
  function TextDeltas(frames: seq<Frame>): seq<string>
    decreases |frames|
  {
    if frames == [] then []
    else
      var f := frames[|frames| - 1];
      TextDeltas(frames[..|frames| - 1]) + (if IsTextDelta(f) then [DeltaOf(f).text.value] else [])
  }

  /** Every non-empty text delta is yielded as one content event with its text, in order, whatever
      state the tool call is in; nothing else yields content. */
  lemma {:induction false} TextPassesThrough(parse: string -> Option<Json>, hasTools: bool, frames: seq<Frame>)
    ensures Texts(Run(parse, hasTools, frames).events) == TextDeltas(frames)
    decreases |frames|
  {
    if frames != [] {
      var init := frames[..|frames| - 1];
      TextPassesThrough(parse, hasTools, init);
      var before := Run(parse, hasTools, init);
      var more := Step(parse, hasTools, before.open, frames[|frames| - 1]).1;
      TextsAppend(before.events, more);
      if more != [] {
        assert more == [more[0]];
      }
    }
  }

  /** The argument text of a run of events: the `partial_json` of each argument delta, in order. */
  function Fragments(frames: seq<Frame>): string
    decreases |frames|
  {
    if frames == [] then ""
    else
      Fragments(frames[..|frames| - 1]) + Fragment(frames[|frames| - 1])
  }

  /** Events that neither open nor close a call. */
  predicate Quiet(hasTools: bool, f: Frame) {
    !IsToolStart(hasTools, f) && !IsStop(f)
  }

  /** While a call is open, quiet events append their argument fragments to it, and nothing else
      changes it. */
  lemma {:induction false} OpenCallAccumulates(parse: string -> Option<Json>, hasTools: bool, pre: seq<Frame>, mid: seq<Frame>)
    requires Run(parse, hasTools, pre).open.Some?
    requires forall i :: 0 <= i < |mid| ==> Quiet(hasTools, mid[i])
    ensures var p := Run(parse, hasTools, pre).open.value;
      Run(parse, hasTools, pre + mid).open == Some(p.(arguments := p.arguments + Fragments(mid)))
    decreases |mid|
  {
    var p := Run(parse, hasTools, pre).open.value;
    if mid == [] {
      assert pre + mid == pre;
      assert p.arguments + "" == p.arguments;
    } else {
      var init, f := mid[..|mid| - 1], mid[|mid| - 1];
      var q := p.(arguments := p.arguments + Fragments(init));
      calc {
        Run(parse, hasTools, pre + mid).open;
        == { assert pre + mid == (pre + init) + [f]; }
        Run(parse, hasTools, (pre + init) + [f]).open;
        == { RunSnoc(parse, hasTools, pre + init, f); }
        Step(parse, hasTools, Run(parse, hasTools, pre + init).open, f).0;
        == { OpenCallAccumulates(parse, hasTools, pre, init); }
        Step(parse, hasTools, Some(q), f).0;
        == { assert Quiet(hasTools, f); QuietStep(parse, hasTools, q, f); }
        Some(q.(arguments := q.arguments + Fragment(f)));
        == { assert Fragments(mid) == Fragments(init) + Fragment(f);
             assert q.arguments + Fragment(f) == p.arguments + Fragments(mid); }
        Some(p.(arguments := p.arguments + Fragments(mid)));
      }
    }
  }

  /** The argument text one frame contributes: its `partial_json` for an argument delta. */
  function Fragment(f: Frame): string {
    if IsArgumentDelta(f) then DeltaOf(f).partialJson.value else ""
  }

  /** A quiet frame leaves an open call open and appends its fragment to its arguments. */
  lemma QuietStep(parse: string -> Option<Json>, hasTools: bool, q: PartialCall, f: Frame)
    requires Quiet(hasTools, f)
    ensures Step(parse, hasTools, Some(q), f).0 == Some(q.(arguments := q.arguments + Fragment(f)))
  {
    if !IsArgumentDelta(f) {
      assert q.arguments + "" == q.arguments;
    }
  }

  /** A honoured `tool_use` start opens a fresh call with its id and name and empty arguments,
      discarding any call that was open; it yields nothing. */
  lemma StartOpensFreshCall(parse: string -> Option<Json>, hasTools: bool, pre: seq<Frame>, start: Frame)
    requires IsToolStart(hasTools, start)
    ensures Run(parse, hasTools, pre + [start]).open == Some(PartialCall(StartOf(start).id.GetOr(""), StartOf(start).name.GetOr(""), ""))
    ensures Run(parse, hasTools, pre + [start]).events == Run(parse, hasTools, pre).events
  {
    assert (pre + [start])[..|pre|] == pre;
  }

  /** A stop while a call is open yields exactly that call, finalised, with finish reason
      "tool_calls", and closes it; a stop while none is open yields nothing. */
  lemma StopEmitsOpenCall(parse: string -> Option<Json>, hasTools: bool, pre: seq<Frame>, stop: Frame)
    requires IsStop(stop)
    ensures Run(parse, hasTools, pre + [stop]).open.None?
    ensures Run(parse, hasTools, pre).open.Some? ==>
      Run(parse, hasTools, pre + [stop]).events
        == Run(parse, hasTools, pre).events + [ToolCallEvent(Finalize(parse, Run(parse, hasTools, pre).open.value), ToolCallsReason)]
    ensures Run(parse, hasTools, pre).open.None? ==> Run(parse, hasTools, pre + [stop]).events == Run(parse, hasTools, pre).events
  {
    assert (pre + [stop])[..|pre|] == pre;
  }

  /** A call is only yielded at a stop: a call still open when the stream ends is dropped. */
  lemma {:induction false} NoStopNoNewCalls(parse: string -> Option<Json>, hasTools: bool, pre: seq<Frame>, post: seq<Frame>)
    requires forall i :: 0 <= i < |post| ==> !IsStop(post[i])
    ensures Calls(Run(parse, hasTools, pre + post).events) == Calls(Run(parse, hasTools, pre).events)
    decreases |post|
  {
    if post == [] {
      assert pre + post == pre;
    } else {
      var init, last := post[..|post| - 1], post[|post| - 1];
      NoStopNoNewCalls(parse, hasTools, pre, init);
      assert pre + post == (pre + init) + [last];
      RunSnoc(parse, hasTools, pre + init, last);
      var before := Run(parse, hasTools, pre + init);
      var more := Step(parse, hasTools, before.open, last).1;
      CallsAppend(before.events, more);
      NoCallWithoutStop(parse, hasTools, before.open, last);
    }
  }

  /** A frame other than a stop yields no call. */
  lemma NoCallWithoutStop(parse: string -> Option<Json>, hasTools: bool, open: Option<PartialCall>, f: Frame)
    requires !IsStop(f)
    ensures Calls(Step(parse, hasTools, open, f).1) == []
  {
    var more := Step(parse, hasTools, open, f).1;
    if more != [] {
      assert more == [more[0]];
    }
  }

  /** Without tools no call is ever opened, so none is yielded. */
  lemma {:induction false} NoToolsNoToolCalls(parse: string -> Option<Json>, frames: seq<Frame>)
    ensures Run(parse, false, frames).open.None?
    ensures Calls(Run(parse, false, frames).events) == []
    decreases |frames|
  {
    if frames != [] {
      var init := frames[..|frames| - 1];
      NoToolsNoToolCalls(parse, init);
      var before := Run(parse, false, init);
      var more := Step(parse, false, before.open, frames[|frames| - 1]).1;
      CallsAppend(before.events, more);
      if more != [] {
        assert more == [more[0]];
      }
    }
  }

  /** One tool call streamed as a `tool_use` start, two argument fragments and a stop: it is yielded
      once, at the stop, with its id and name and the parsed joined arguments. */
  lemma CallFromTwoFragments(parse: string -> Option<Json>, id: string, name: string, first: string, second: string, value: Json)
    requires first + second != "" && parse(first + second) == Some(value)
    ensures Run(parse, true, [
        Frame(Some("content_block_start"), None, Some(StartBlock(Some("tool_use"), Some(id), Some(name)))),
        Frame(Some("content_block_delta"), Some(EventDelta(Some("input_json_delta"), None, Some(first))), None),
        Frame(Some("content_block_delta"), Some(EventDelta(Some("input_json_delta"), None, Some(second))), None),
        Frame(Some("content_block_stop"), None, None)]).events
      == [ToolCallEvent(ToolCall(Some(id), Some(name), Some(Structured(value)), None), ToolCallsReason)]
  {
    var start := Frame(Some("content_block_start"), None, Some(StartBlock(Some("tool_use"), Some(id), Some(name))));
    var d1 := Frame(Some("content_block_delta"), Some(EventDelta(Some("input_json_delta"), None, Some(first))), None);
    var d2 := Frame(Some("content_block_delta"), Some(EventDelta(Some("input_json_delta"), None, Some(second))), None);
    var stop := Frame(Some("content_block_stop"), None, None);
    var partial := PartialCall(id, name, first + second);
    assert Run(parse, true, [start]) == Progress(Some(PartialCall(id, name, "")), []) by {
      RunSnoc(parse, true, [], start);
      assert [] + [start] == [start];
    }
    assert Run(parse, true, [start, d1]) == Progress(Some(PartialCall(id, name, first)), []) by {
      RunSnoc(parse, true, [start], d1);
      assert [start] + [d1] == [start, d1];
      assert "" + first == first;
    }
    assert Run(parse, true, [start, d1, d2]) == Progress(Some(partial), []) by {
      RunSnoc(parse, true, [start, d1], d2);
      assert [start, d1] + [d2] == [start, d1, d2];
    }
    RunSnoc(parse, true, [start, d1, d2], stop);
    assert [start, d1, d2] + [stop] == [start, d1, d2, stop];
    assert Finalize(parse, partial) == ToolCall(Some(id), Some(name), Some(Structured(value)), None);
  }

  /** One more frame is one more step. */
  lemma RunSnoc(parse: string -> Option<Json>, hasTools: bool, frames: seq<Frame>, f: Frame)
    ensures var before := Run(parse, hasTools, frames);
      var step := Step(parse, hasTools, before.open, f);
      Run(parse, hasTools, frames + [f]) == Progress(step.0, before.events + step.1)
  {
    assert (frames + [f])[..|frames|] == frames;
  }

  /** The local state of `chat_stream`: `current_tool_call` (None for `{}`) and `in_tool_call`. */
  class Reconstructor {
    const parse: string -> Option<Json>
    const hasToolCalls: bool
    var currentToolCall: Option<PartialCall>
    var inToolCall: bool

    /** `in_tool_call` is set exactly while `current_tool_call` holds a call. */
    ghost predicate Valid()
      reads this
    {
      inToolCall <==> currentToolCall.Some?
    }

    constructor (parse: string -> Option<Json>, hasToolCalls: bool)
      ensures Valid() && currentToolCall.None?
      ensures this.parse == parse && this.hasToolCalls == hasToolCalls
    {
      this.parse := parse;
      this.hasToolCalls := hasToolCalls;
      currentToolCall := None;
      inToolCall := false;
    }

    /** The body of the event loop. */
    method Feed(f: Frame) returns (events: seq<StreamingEvent>)
      requires Valid()
      modifies this
      ensures Valid()
      ensures (currentToolCall, events) == Step(parse, hasToolCalls, old(currentToolCall), f)
    {
      events := [];
      if f.eventType == Some("content_block_delta") {
        var delta := f.delta.GetOr(EventDelta(None, None, None));
        if delta.deltaType == Some("text_delta") {
          if delta.text.Some? && delta.text.value != "" {
            events := [Content(delta.text.value)];
          }
        } else if delta.deltaType == Some("input_json_delta") {
          if inToolCall && delta.partialJson.Some? {
            var call := currentToolCall.value;
            currentToolCall := Some(call.(arguments := call.arguments + delta.partialJson.value));
          }
        }
      } else if f.eventType == Some("content_block_start") && hasToolCalls {
        var block := f.contentBlock.GetOr(StartBlock(None, None, None));
        if block.blockType == Some("tool_use") {
          inToolCall := true;
          currentToolCall := Some(PartialCall(block.id.GetOr(""), block.name.GetOr(""), ""));
        }
      } else if f.eventType == Some("content_block_stop") && inToolCall {
        inToolCall := false;
        var call := currentToolCall.value;
        var args := Raw(call.arguments);
        if call.arguments != "" {
          var parsed := parse(call.arguments);
          if parsed.Some? {
            args := Structured(parsed.value);
          }
        }
        events := [ToolCallEvent(ToolCall(Some(call.id), Some(call.name), Some(args), None), ToolCallsReason)];
        currentToolCall := None;
      }
    }
  }

  /** `chat_stream`'s loop over the decoded events with a fresh reconstructor: exactly the events
      `Run` describes. */
  method Reconstruct(parse: string -> Option<Json>, hasTools: bool, frames: seq<Frame>) returns (events: seq<StreamingEvent>)
    ensures events == Run(parse, hasTools, frames).events
  {
    var r := new Reconstructor(parse, hasTools);
    events := [];
    var i := 0;
    while i < |frames|
      invariant 0 <= i <= |frames|
      invariant r.Valid() && r.parse == parse && r.hasToolCalls == hasTools
      invariant Run(parse, hasTools, frames[..i]) == Progress(r.currentToolCall, events)
    {
      assert frames[..i + 1][..i] == frames[..i];
      var more := r.Feed(frames[i]);
      events := events + more;
      i := i + 1;
    }
    assert frames[..i] == frames;
  }

  /** An `Anthropic` provider, configured once. */
  class Provider {
    const config: ProviderConfig
    const client: HttpClient.Client

    /** `Anthropic.__init__`: the base URL falls back to the Anthropic endpoint; requests carry the
        API key, the API version and the content type. */
    constructor (apiKey: string, baseUrl: Option<string>)
      ensures config == NewProvider(apiKey, baseUrl, ClassBaseUrl)
      ensures client.Valid()
      ensures client.baseUrl == HttpClient.StripTrailingSlashes(config.baseUrl)
      ensures client.defaultHeaders == map["x-api-key" := apiKey, "anthropic-version" := "2023-06-01", "content-type" := "application/json"]
    {
      var cfg := NewProvider(apiKey, baseUrl, ClassBaseUrl);
      config := cfg;
      client := new HttpClient.Client(cfg.baseUrl, cfg.apiKey,
                                      Some(map["x-api-key" := cfg.apiKey, "anthropic-version" := "2023-06-01", "content-type" := "application/json"]));
    }

    /** `chat_stream`, with the per-event logic as intended: the payload it posts (with "stream"
        true), and then either the error the client raised before anything was yielded, or the
        events reconstructed from the decoded events of the stream. */
    method ChatStream(messages: MessagesInput, model: Option<string>, tools: Option<seq<Tool>>,
                      toolChoice: Option<ToolChoice>, maxTokens: Option<int>, temperature: Option<Json>,
                      kwargs: map<string, Field>, status: int, text: string, body: Option<Json>,
                      lines: seq<string>, decode: string -> Frame, parse: string -> Option<Json>)
      returns (payload: map<string, Field>, r: HttpClient.Result<seq<StreamingEvent>>)
      ensures payload == Fields(model.GetOr(DefaultModel), maxTokens.GetOr(DefaultMaxTokens),
                                Translate(NormalizeMessages(messages)).0, Translate(NormalizeMessages(messages)).1,
                                if tools.Some? then Some(Declarations(tools.value)) else None,
                                if toolChoice.Some? then MapToolChoice(toolChoice.value) else None,
                                temperature, true) + kwargs
      ensures !HttpClient.ResponseOk(status) ==>
        r.Err? && r.error.Api? && Some(r.error.error) == HttpClient.HandleError(status, text, body)
      ensures HttpClient.ResponseOk(status) ==>
        r == HttpClient.Ok(Run(parse, tools.Some?, DecodeAll(decode, HttpClient.DataPayloads(lines))).events)
    {
      payload := BuildPayload(messages, model, tools, toolChoice, maxTokens, temperature, true, kwargs);
      var posted := HttpClient.PostStream(status, text, body, lines);
      if posted.Err? {
        r := HttpClient.Err(posted.error);
        return;
      }
      var events := Reconstruct(parse, tools.Some?, DecodeAll(decode, posted.value));
      r := HttpClient.Ok(events);
    }
  }

  // ---------------------------------------------------------------- the generator as written

  /** `chat_stream` as written: the `import json` inside the generator makes `json` a local name
      of the whole function, so decoding the first event raises UnboundLocalError before anything
      is yielded; an empty stream ends normally. */
  function AsWrittenStream(payloads: seq<string>): (r: (seq<StreamingEvent>, Option<Fault>))
    ensures r.0 == []
    ensures r.1.Some? <==> payloads != []
    ensures r.1.Some? ==> r.1.value == UnboundLocalError
  {
    if payloads == [] then ([], None) else ([], Some(UnboundLocalError))
  }

  /** The discrepancy: a stream holding one text delta yields its text in the intended
      reconstruction, and nothing (an UnboundLocalError) as written. */
  lemma AsWrittenLosesText(parse: string -> Option<Json>, decode: string -> Frame, payload: string)
    requires decode(payload) == Frame(Some("content_block_delta"), Some(EventDelta(Some("text_delta"), Some("Hi"), None)), None)
    ensures AsWrittenStream([payload]) == ([], Some(UnboundLocalError))
    ensures Run(parse, false, [decode(payload)]).events == [Content("Hi")]
  {
    assert [decode(payload)][..0] == [];
  }
}
