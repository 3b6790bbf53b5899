/** The Google Gemini provider (`providers/google.py`): unified messages become role-tagged
    contents made of parts, tools and tool choice are translated, a response is normalised to the
    unified completion, and a stream is turned into events part by part, each function name
    yielding at most one tool call. */
module Google {
  import opened Types
  import opened BaseProvider
  import opened ToolDeclarations
  import HttpClient

  /** The class attribute `default_base_url`. */
  const ClassBaseUrl: string := "https://generativelanguage.googleapis.com/v1beta"

  /** The default of the `model` parameter of `chat` and `chat_stream`. */
  const DefaultModel: string := "gemini-1.5-flash"

  // ---------------------------------------------------------------- contents

  /** A part of a content: text, a function call made by the model, or a function's response. */
  datatype Part =
    | TextPart(text: string)
    | CallPart(name: Option<string>, args: Arguments, thoughtSignature: Option<string>)
    | FunctionResponse(responseName: string, result: Option<string>)

  /** One entry of `contents`: a role, "user" or "model", and its parts. */
  datatype Turn = Turn(role: string, parts: seq<Part>)

  /** Gemini knows two roles: user, system and tool messages are sent as "user", every other
      role as "model". */
  function RoleOf(role: string): (r: string)
    ensures r == "user" <==> role == "user" || role == "system" || role == "tool"
    ensures r == "model" <==> !(role == "user" || role == "system" || role == "tool")
  {
    if role in ["user", "system", "tool"] then "user" else "model"
  }

  /** The `functionCall` part of a tool call: its name and arguments (absent as `{}`), and its
      thought signature only when that is not empty. */
  function CallPartOf(tc: ToolCall): Part {
    CallPart(tc.name, tc.arguments.GetOr(Structured(EmptyObject)), if Truthy(tc.thoughtSignature) then tc.thoughtSignature else None)
  }

  /** The parts of one message. A tool message has exactly one `functionResponse` part, named by
      the message (default "unknown") and holding its content as the result. Any other message
      has a text part first exactly when its content is not empty, then one `functionCall` part
      per tool call, in order; it has no parts, and is dropped, exactly when it has neither. */
  function PartsOf(m: Message): (ps: seq<Part>)
    ensures m.role == "tool" ==> ps == [FunctionResponse(m.name.GetOr("unknown"), m.content)]
    ensures m.role != "tool" ==> |ps| == (if Truthy(m.content) then 1 else 0) + |CallsOf(m)|
    ensures m.role != "tool" ==> (Truthy(m.content) <==> |ps| > 0 && ps[0].TextPart?)
    ensures m.role != "tool" && Truthy(m.content) ==> ps[0] == TextPart(m.content.value)
    ensures m.role != "tool" ==>
      forall i :: 0 <= i < |CallsOf(m)| ==> ps[(if Truthy(m.content) then 1 else 0) + i] == CallPartOf(CallsOf(m)[i])
    ensures ps == [] <==> m.role != "tool" && !Truthy(m.content) && CallsOf(m) == []
  {
    if m.role == "tool" then [FunctionResponse(m.name.GetOr("unknown"), m.content)]
    else
      var calls := CallsOf(m);
      (if Truthy(m.content) then [TextPart(m.content.value)] else [])
        + seq(|calls|, i requires 0 <= i < |calls| => CallPartOf(calls[i]))
  }

  /** The parts loop of `_to_google_contents` for one message. */
  method BuildParts(m: Message) returns (parts: seq<Part>)
    ensures parts == PartsOf(m)
  {
    parts := [];
    if m.content.Some? && m.content.value != "" {
      parts := [TextPart(m.content.value)];
    }
    if m.toolCalls.Some? && m.toolCalls.value != [] {
      var calls := m.toolCalls.value;
      var prefix := parts;
      var i := 0;
      while i < |calls|
        invariant 0 <= i <= |calls|
        invariant |parts| == |prefix| + i
        invariant parts[..|prefix|] == prefix
        invariant forall j :: 0 <= j < i ==> parts[|prefix| + j] == CallPartOf(calls[j])
      {
        var tc := calls[i];
        var signature := if tc.thoughtSignature.Some? && tc.thoughtSignature.value != "" then tc.thoughtSignature else None;
        parts := parts + [CallPart(tc.name, tc.arguments.GetOr(Structured(EmptyObject)), signature)];
        i := i + 1;
      }
    }
    if m.role == "tool" {
      parts := [FunctionResponse(m.name.GetOr("unknown"), m.content)];
    }
    assert parts == PartsOf(m);
  }

  /** `_to_google_contents` as a fold: each message that has parts becomes one turn, in order. */
  function Contents(ms: seq<Message>): seq<Turn> {
    Concat(TurnsOf, ms)
  }

  /** The turn of one message, or none when it has no parts. */
  function TurnsOf(m: Message): seq<Turn> {
    if PartsOf(m) != [] then [Turn(RoleOf(m.role), PartsOf(m))] else []
  }

  /** What each message contributes, laid end to end in message order. */
  function Concat(turns: Message -> seq<Turn>, ms: seq<Message>): seq<Turn>
    decreases |ms|
  {
    if ms == [] then []
    else Concat(turns, ms[..|ms| - 1]) + turns(ms[|ms| - 1])
  }

  /** Contributions are independent of one another: concatenating two lists of messages
      concatenates what they contribute. */
  lemma {:induction false} ConcatAppend(turns: Message -> seq<Turn>, a: seq<Message>, b: seq<Message>)
    ensures Concat(turns, a + b) == Concat(turns, a) + Concat(turns, b)
    decreases |b|
  {
    if b == [] {
      assert a + b == a;
    } else {
      assert (a + b)[..|a + b| - 1] == a + b[..|b| - 1];
      ConcatAppend(turns, a, b[..|b| - 1]);
    }
  }

  /** There are no more turns than messages, and every turn has parts and the role "user" or
      "model". */
  lemma {:induction false} TurnsAreWellFormed(ms: seq<Message>)
    ensures |Contents(ms)| <= |ms|
    ensures forall i :: 0 <= i < |Contents(ms)| ==>
      Contents(ms)[i].parts != [] && (Contents(ms)[i].role == "user" || Contents(ms)[i].role == "model")
    decreases |ms|
  {
    if ms != [] {
      var init := ms[..|ms| - 1];
      TurnsAreWellFormed(init);
      assert Contents(ms) == Contents(init) + TurnsOf(ms[|ms| - 1]);
    }
  }

  /** Converting a list is converting its parts: messages are translated independently and in
      order. */
  lemma ContentsAppend(a: seq<Message>, b: seq<Message>)
    ensures Contents(a + b) == Contents(a) + Contents(b)
  {
    ConcatAppend(TurnsOf, a, b);
  }

  /** One more message adds its turn, if it has parts, at the end. */
  lemma ContentsSnoc(ms: seq<Message>, m: Message)
    ensures Contents(ms + [m]) == Contents(ms) + TurnsOf(m)
  {
    var all := ms + [m];
    assert all[..|all| - 1] == ms && all[|all| - 1] == m;
  }

  /** A tool message always yields exactly one "user" turn holding one `functionResponse` part,
      and a message with neither content nor calls yields nothing. */
  lemma ContentsOfOne(m: Message)
    ensures m.role == "tool" ==> Contents([m]) == [Turn("user", [FunctionResponse(m.name.GetOr("unknown"), m.content)])]
    ensures m.role != "tool" && !Truthy(m.content) && CallsOf(m) == [] ==> Contents([m]) == []
    ensures Truthy(m.content) || CallsOf(m) != [] ==> |Contents([m])| == 1
  {
    ContentsSnoc([], m);
    assert [] + [m] == [m];
  }

  /** The translation loop of `_to_google_contents`. */
  method ToGoogleContents(ms: seq<Message>) returns (contents: seq<Turn>)
    ensures contents == Contents(ms)
  {
    contents := [];
    var i := 0;
    while i < |ms|
      invariant 0 <= i <= |ms|
      invariant contents == Contents(ms[..i])
    {
      assert ms[..i + 1][..i] == ms[..i];
      var m := ms[i];
      var parts := BuildParts(m);
      if parts != [] {
        contents := contents + [Turn(RoleOf(m.role), parts)];
      }
      i := i + 1;
    }
    assert ms[..i] == ms;
  }

  // ---------------------------------------------------------------- tools and tool choice

  /** `_convert_tools_to_google`: the declarations of the function tools, wrapped as the single
      entry `{"functionDeclarations": [...]}` of the tools list. */
  method ConvertToolsToGoogle(tools: seq<Tool>) returns (wrapped: seq<seq<Declaration>>)
    ensures |wrapped| == 1 && wrapped[0] == Declarations(tools)
  {
    var decls := ConvertTools(tools);
    wrapped := [decls];
  }

  /** What `_convert_tool_choice_to_google` returns: a mode name, or a whole
      `{"functionCallingConfig": {"mode": ..., "allowedFunctionNames": [...]}}` object. */
  datatype Converted = ModeName(mode: string) | CallingConfig(mode: string, allowedFunctionNames: seq<string>)

  /** `_convert_tool_choice_to_google`: "auto", "none" and "required" become AUTO, NONE and ANY;
      a pinned function allows that function only, in mode ANY; anything else gives None. */
  function ConvertToolChoice(tc: ToolChoice): (r: Option<Converted>)
    ensures tc == Tag("auto") <==> r == Some(ModeName("AUTO"))
    ensures tc == Tag("none") <==> r == Some(ModeName("NONE"))
    ensures tc == Tag("required") <==> r == Some(ModeName("ANY"))
    ensures (r.Some? && r.value.CallingConfig?) <==> (tc.Pinned? && tc.choiceType == Some("function"))
    ensures r.Some? && r.value.CallingConfig? ==> r.value == CallingConfig("ANY", [tc.functionName])
    ensures r.None? <==>
      ((tc.Tag? && tc.tag != "auto" && tc.tag != "none" && tc.tag != "required") || (tc.Pinned? && tc.choiceType != Some("function")))
  {
    match tc
    case Tag(t) =>
      if t == "auto" then Some(ModeName("AUTO"))
      else if t == "none" then Some(ModeName("NONE"))
      else if t == "required" then Some(ModeName("ANY"))
      else None
    case Pinned(choiceType, name) =>
      if choiceType == Some("function") then Some(CallingConfig("ANY", [name])) else None
  }

  /** The payload's `toolConfig`: `{"functionCallingConfig": {"mode": ..., ...}}`, with the
      allowed names only for a pinned function. */
  datatype ToolConfig = ToolConfig(mode: string, allowedFunctionNames: Option<seq<string>>)

  /** A mode name is wrapped in a `functionCallingConfig`; a whole config is used as it is. */
  function WrapToolConfig(c: Converted): (t: ToolConfig)
    ensures t.mode == c.mode
    ensures c.ModeName? <==> t.allowedFunctionNames.None?
    ensures c.CallingConfig? ==> t.allowedFunctionNames == Some(c.allowedFunctionNames)
  {
    match c
    case ModeName(mode) => ToolConfig(mode, None)
    case CallingConfig(mode, names) => ToolConfig(mode, Some(names))
  }

  /** The tool configuration each tool choice sends: AUTO, NONE or ANY for the three tags, ANY
      restricted to the one function for a pinned function, and none for anything else. */
  lemma ToolConfigOfChoice(tc: ToolChoice)
    ensures tc == Tag("auto") ==> ConvertToolChoice(tc).Some? && WrapToolConfig(ConvertToolChoice(tc).value) == ToolConfig("AUTO", None)
    ensures tc == Tag("none") ==> ConvertToolChoice(tc).Some? && WrapToolConfig(ConvertToolChoice(tc).value) == ToolConfig("NONE", None)
    ensures tc == Tag("required") ==> ConvertToolChoice(tc).Some? && WrapToolConfig(ConvertToolChoice(tc).value) == ToolConfig("ANY", None)
    ensures tc.Pinned? && tc.choiceType == Some("function") ==>
      ConvertToolChoice(tc).Some? && WrapToolConfig(ConvertToolChoice(tc).value) == ToolConfig("ANY", Some([tc.functionName]))
  {
  }

  // ---------------------------------------------------------------- payload

  /** `generationConfig`: each setting present only when it was given. */
  datatype GenerationConfig = GenerationConfig(temperature: Option<Json>, maxOutputTokens: Option<int>)

  /** A value of the request payload. */
  datatype Field =
    | Conversation(contents: seq<Turn>)
    | Generation(generation: GenerationConfig)
    | ToolList(groups: seq<seq<Declaration>>)
    | Calling(config: ToolConfig)
    | Opaque(value: Json)

  /** The payload of `chat` and `chat_stream` (the model travels in the endpoint, not here): the
      contents, then each optional entry by successive dictionary updates, and the extra keyword
      arguments merged last. */
  method BuildPayload(messages: MessagesInput, tools: Option<seq<Tool>>, toolChoice: Option<ToolChoice>,
                      temperature: Option<Json>, maxTokens: Option<int>, kwargs: map<string, Field>)
    returns (payload: map<string, Field>)
    ensures payload == Fields(Contents(NormalizeMessages(messages)), temperature, maxTokens,
                              if tools.Some? then Some(Declarations(tools.value)) else None,
                              if toolChoice.Some? then ConvertToolChoice(toolChoice.value) else None) + kwargs
    ensures forall k :: k in kwargs ==> payload[k] == kwargs[k]
  {
    var contents := ToGoogleContents(NormalizeMessages(messages));
    payload := map["contents" := Conversation(contents)];
    if temperature.Some? || maxTokens.Some? {
      payload := payload["generationConfig" := Generation(GenerationConfig(temperature, maxTokens))];
    }
    if tools.Some? {
      var wrapped := ConvertToolsToGoogle(tools.value);
      assert wrapped == [Declarations(tools.value)];
      payload := payload["tools" := ToolList(wrapped)];
    }
    if toolChoice.Some? {
      var converted := ConvertToolChoice(toolChoice.value);
      if converted.Some? {
        payload := payload["toolConfig" := Calling(WrapToolConfig(converted.value))];
      }
    }
    payload := payload + kwargs;
  }

  /** The payload before the keyword arguments. */
  function Fields(contents: seq<Turn>, temperature: Option<Json>, maxTokens: Option<int>,
                  decls: Option<seq<Declaration>>, converted: Option<Converted>): map<string, Field>
  {
    var base := map["contents" := Conversation(contents)];
    var generated := if temperature.Some? || maxTokens.Some? then base["generationConfig" := Generation(GenerationConfig(temperature, maxTokens))] else base;
    var tooled := if decls.Some? then generated["tools" := ToolList([decls.value])] else generated;
    if converted.Some? then tooled["toolConfig" := Calling(WrapToolConfig(converted.value))] else tooled
  }

  /** Which keys the payload has before the keyword arguments: "contents" always;
      "generationConfig" only when a temperature or a token limit is given; "tools" when tools are
      given; "toolConfig" only when the tool choice converts to something. */
  lemma FieldsKeys(contents: seq<Turn>, temperature: Option<Json>, maxTokens: Option<int>,
                   decls: Option<seq<Declaration>>, converted: Option<Converted>)
    ensures forall k :: k in Fields(contents, temperature, maxTokens, decls, converted) <==>
      || k == "contents"
      || (k == "generationConfig" && (temperature.Some? || maxTokens.Some?))
      || (k == "tools" && decls.Some?)
      || (k == "toolConfig" && converted.Some?)
  {
  }

  /** The entries carry the translated contents, the generation settings as given (the token limit
      under the name `maxOutputTokens`), the declarations as one group, and the wrapped tool
      configuration. */
  lemma FieldsValues(contents: seq<Turn>, temperature: Option<Json>, maxTokens: Option<int>,
                     decls: Option<seq<Declaration>>, converted: Option<Converted>)
    ensures var f := Fields(contents, temperature, maxTokens, decls, converted);
      && "contents" in f && f["contents"] == Conversation(contents)
      && (temperature.Some? || maxTokens.Some? ==>
            "generationConfig" in f && f["generationConfig"].generation.temperature == temperature
            && f["generationConfig"].generation.maxOutputTokens == maxTokens)
      && (decls.Some? ==> "tools" in f && f["tools"] == ToolList([decls.value]))
      && (converted.Some? ==> "toolConfig" in f && f["toolConfig"] == Calling(WrapToolConfig(converted.value)))
  {
  }

  // ---------------------------------------------------------------- responses and chunks

  /** The `functionCall` of a response part. */
  datatype FunctionCall = FunctionCall(name: Option<string>, args: Option<Json>)

  /** A part of a candidate; only these keys are read. */
  datatype ResponsePart = ResponsePart(text: Option<string>, functionCall: Option<FunctionCall>, thoughtSignature: Option<string>)

  datatype CandidateContent = CandidateContent(parts: Option<seq<ResponsePart>>)

  datatype Candidate = Candidate(content: Option<CandidateContent>, finishReason: Option<string>)

  datatype UsageMetadata = UsageMetadata(promptTokenCount: Option<int>, candidatesTokenCount: Option<int>, totalTokenCount: Option<int>)

  /** A decoded `generateContent` response, and equally one chunk of a streamed one. */
  datatype Generated = Generated(candidates: Option<seq<Candidate>>, usageMetadata: Option<UsageMetadata>)

  /** The parts that are read: those of the first candidate, and only when there is a candidate
      whose content has a non-empty parts list. */
  function CandidateParts(g: Generated): (ps: seq<ResponsePart>)
    ensures g.candidates.None? || g.candidates.value == [] ==> ps == []
    ensures g.candidates.Some? && g.candidates.value != [] ==>
      ps == g.candidates.value[0].content.GetOr(CandidateContent(None)).parts.GetOr([])
  {
    if g.candidates.Some? && g.candidates.value != [] then
      g.candidates.value[0].content.GetOr(CandidateContent(None)).parts.GetOr([])
    else []
  }

  /** The text of a response: the text of every part that has one, concatenated in order. */
  function PartText(parts: seq<ResponsePart>): string
    decreases |parts|
  {
    if parts == [] then ""
    else PartText(parts[..|parts| - 1]) + parts[|parts| - 1].text.GetOr("")
  }

  /** The call of a `functionCall` part that is the `n`-th call of the response. */
  function PositionalCall(p: ResponsePart, n: nat): ToolCall
    requires p.functionCall.Some?
  {
    ToolCall(Some("call_" + NatToString(n)), p.functionCall.value.name,
             Some(Structured(p.functionCall.value.args.GetOr(EmptyObject))), p.thoughtSignature)
  }

  /** Whether a part counts as a call: it has a `functionCall` and no text. */
  predicate IsCallPart(p: ResponsePart) {
    p.text.None? && p.functionCall.Some?
  }

  /** The calls of a response, numbered by their position among the calls. */
  function PartCalls(parts: seq<ResponsePart>): (calls: seq<ToolCall>)
    decreases |parts|
  {
    if parts == [] then []
    else
      var before := PartCalls(parts[..|parts| - 1]);
      var p := parts[|parts| - 1];
      before + (if IsCallPart(p) then [PositionalCall(p, |before|)] else [])
  }

  /** The number of call parts. */
  function CountCallParts(parts: seq<ResponsePart>): nat
    decreases |parts|
  {
    if parts == [] then 0
    else CountCallParts(parts[..|parts| - 1]) + (if IsCallPart(parts[|parts| - 1]) then 1 else 0)
  }

  /** Tool-call ids are positional: the i-th call is "call_i"; there is one call per call part,
      and each carries its part's name and thought signature. */
  lemma {:induction false} CallIdsArePositional(parts: seq<ResponsePart>)
    ensures |PartCalls(parts)| == CountCallParts(parts)
    ensures forall i :: 0 <= i < |PartCalls(parts)| ==> PartCalls(parts)[i].id == Some("call_" + NatToString(i))
    decreases |parts|
  {
    if parts != [] {
      CallIdsArePositional(parts[..|parts| - 1]);
    }
  }

  /** How `_normalize_response` ends: with a completion, or with the exception it raises. */
  datatype Outcome = Completed(completion: ChatCompletion) | Raised(fault: Fault)

  /** `_normalize_response`. A present but empty candidate list passes the first test and then
      makes `[0]` raise IndexError when the finish reason is read. Otherwise the content is the
      concatenated text (None when empty), "tool_calls" is present exactly when there are calls,
      the counts are copied with 0 for a missing one (the total is not summed), and the model is
      the one requested. */
  method NormalizeResponse(g: Generated, model: string) returns (o: Outcome)
    ensures o.Raised? <==> g.candidates == Some([])
    ensures o.Raised? ==> o.fault == IndexError
    ensures o.Completed? ==>
      var c := o.completion;
      var parts := CandidateParts(g);
      && c.id.None? && c.model == Some(model)
      && c.message.role == "assistant"
      && c.message.content == (if PartText(parts) == "" then None else Some(PartText(parts)))
      && (c.message.toolCalls.Some? <==> CountCallParts(parts) > 0)
      && (c.message.toolCalls.Some? ==> c.message.toolCalls.value == PartCalls(parts))
      && c.message.toolCallId.None? && c.message.name.None?
      && c.finishReason == (if g.candidates.Some? then g.candidates.value[0].finishReason else None)
    ensures o.Completed? ==>
      var u := g.usageMetadata.GetOr(UsageMetadata(None, None, None));
      o.completion.usage == Usage(u.promptTokenCount.GetOr(0), u.candidatesTokenCount.GetOr(0), u.totalTokenCount.GetOr(0))
  {
    var parts := CandidateParts(g);
    var content := "";
    var calls: seq<ToolCall> := [];
    var i := 0;
    while i < |parts|
      invariant 0 <= i <= |parts|
      invariant content == PartText(parts[..i])
      invariant calls == PartCalls(parts[..i])
    {
      assert parts[..i + 1][..i] == parts[..i];
      var part := parts[i];
      if part.text.Some? {
        content := content + part.text.value;
      } else if part.functionCall.Some? {
        var fc := part.functionCall.value;
        calls := calls + [ToolCall(Some("call_" + NatToString(|calls|)), fc.name, Some(Structured(fc.args.GetOr(EmptyObject))), part.thoughtSignature)];
      }
      i := i + 1;
    }
    assert parts[..i] == parts;
    CallIdsArePositional(parts);
    if g.candidates == Some([]) {
      return Raised(IndexError);
    }
    var finishReason := if g.candidates.Some? then g.candidates.value[0].finishReason else None;
    var u := g.usageMetadata.GetOr(UsageMetadata(None, None, None));
    var message := Message("assistant", if content != "" then Some(content) else None,
                           if calls != [] then Some(calls) else None, None, None);
    var usage := Usage(u.promptTokenCount.GetOr(0), u.candidatesTokenCount.GetOr(0), u.totalTokenCount.GetOr(0));
    o := Completed(ChatCompletion(None, Some(model), message, finishReason, usage));
  }

  // ---------------------------------------------------------------- the stream

  /** The parts of a stream, chunk after chunk, each chunk contributing the parts that are read. */
  function StreamParts(chunks: seq<Generated>): seq<ResponsePart>
    decreases |chunks|
  {
    if chunks == [] then []
    else StreamParts(chunks[..|chunks| - 1]) + CandidateParts(chunks[|chunks| - 1])
  }

  /** The id a streamed call gets: "call_" and its name, "unknown" when it has none. */
  function StreamId(fc: FunctionCall): string {
    "call_" + fc.name.GetOr("unknown")
  }

  /** The event of a streamed call: complete at once, with its arguments as given. */
  function StreamedCall(p: ResponsePart): StreamingEvent
    requires p.functionCall.Some?
  {
    var fc := p.functionCall.value;
    ToolCallEvent(ToolCall(Some(StreamId(fc)), fc.name, Some(Structured(fc.args.GetOr(EmptyObject))), p.thoughtSignature), ToolCallsReason)
  }

  /** A part that yields a call: tools were given, it has no text, it has a `functionCall`, and
      no call with its id was yielded before. */
  predicate YieldsCall(hasTools: bool, emitted: set<string>, p: ResponsePart) {
    hasTools && IsCallPart(p) && StreamId(p.functionCall.value) !in emitted
  }

  /** A stream so far: the ids yielded (`tool_calls_emitted`) and the events. */
  datatype Progress = Progress(emitted: set<string>, events: seq<StreamingEvent>)

  /** One part: a text part yields its text, even an empty one; a call part yields its call
      unless its id was already yielded; nothing else yields anything. */
  function PartStep(hasTools: bool, emitted: set<string>, p: ResponsePart): (r: (set<string>, seq<StreamingEvent>))
    ensures p.text.Some? ==> r == (emitted, [Content(p.text.value)])
    ensures YieldsCall(hasTools, emitted, p) ==> r == (emitted + {StreamId(p.functionCall.value)}, [StreamedCall(p)])
    ensures p.text.None? && !YieldsCall(hasTools, emitted, p) ==> r == (emitted, [])
  {
    if p.text.Some? then (emitted, [Content(p.text.value)])
    else if p.functionCall.Some? && hasTools then
      var id := StreamId(p.functionCall.value);
      if id !in emitted then (emitted + {id}, [StreamedCall(p)]) else (emitted, [])
    else (emitted, [])
  }

  /** The events of a stream of parts. */
  function Run(hasTools: bool, parts: seq<ResponsePart>): Progress
    decreases |parts|
  {
    if parts == [] then Progress({}, [])
    else
      var before := Run(hasTools, parts[..|parts| - 1]);
      var (emitted, more) := PartStep(hasTools, before.emitted, parts[|parts| - 1]);
      Progress(emitted, before.events + more)
  }

  /** The texts of the parts that have one, empty ones included, in order. */
  function PartTexts(parts: seq<ResponsePart>): seq<string>
    decreases |parts|
  {
    if parts == [] then []
    else PartTexts(parts[..|parts| - 1]) + (if parts[|parts| - 1].text.Some? then [parts[|parts| - 1].text.value] else [])
  }

  /** Every text part yields one content event with its text, in order, and nothing else yields
      content. */
  lemma {:induction false} TextsAreTextParts(hasTools: bool, parts: seq<ResponsePart>)
    ensures Texts(Run(hasTools, parts).events) == PartTexts(parts)
    decreases |parts|
  {
    if parts != [] {
      var init := parts[..|parts| - 1];
      TextsAreTextParts(hasTools, init);
      var before := Run(hasTools, init);
      TextsAppend(before.events, PartStep(hasTools, before.emitted, parts[|parts| - 1]).1);
    }
  }

  /** Every call yielded has an id that was recorded, every id recorded belongs to a call yielded,
      and no two calls share an id. */
  ghost predicate IdsMatchCalls(pr: Progress) {
    var calls := Calls(pr.events);
    && (forall i :: 0 <= i < |calls| ==> calls[i].id.Some? && calls[i].id.value in pr.emitted)
    && (forall id :: id in pr.emitted ==> exists i :: 0 <= i < |calls| && calls[i].id == Some(id))
    && (forall i, j :: 0 <= i < j < |calls| ==> calls[i].id != calls[j].id)
  }

  /** The ids recorded are exactly the ids of the calls yielded, and no id is yielded twice. */
  lemma {:induction false} CallIdsAreDistinct(hasTools: bool, parts: seq<ResponsePart>)
    ensures IdsMatchCalls(Run(hasTools, parts))
    decreases |parts|
  {
    if parts != [] {
      var init := parts[..|parts| - 1];
      CallIdsAreDistinct(hasTools, init);
      var before := Run(hasTools, init);
      var step := PartStep(hasTools, before.emitted, parts[|parts| - 1]);
      assert Run(hasTools, parts) == Progress(step.0, before.events + step.1);
      IdsStep(hasTools, before, parts[|parts| - 1]);
    }
  }

  /** One part keeps the ids recorded matching the calls yielded. */
  lemma IdsStep(hasTools: bool, before: Progress, p: ResponsePart)
    requires IdsMatchCalls(before)
    ensures var step := PartStep(hasTools, before.emitted, p);
      IdsMatchCalls(Progress(step.0, before.events + step.1))
  {
    var step := PartStep(hasTools, before.emitted, p);
    var more := step.1;
    CallsAppend(before.events, more);
    var old_calls := Calls(before.events);
    var calls := Calls(before.events + more);
    if YieldsCall(hasTools, before.emitted, p) {
      assert Calls(more) == [StreamedCall(p).toolCall];
      assert calls == old_calls + [StreamedCall(p).toolCall];
      forall id | id in step.0
        ensures exists i :: 0 <= i < |calls| && calls[i].id == Some(id)
      {
        if id in before.emitted {
          var i :| 0 <= i < |old_calls| && old_calls[i].id == Some(id);
          assert calls[i] == old_calls[i];
        } else {
          assert calls[|calls| - 1].id == Some(id);
        }
      }
    } else {
      assert Calls(more) == [] by {
        if more != [] {
          assert more == [Content(p.text.value)];
        }
      }
      assert calls == old_calls;
    }
  }

  /** Without tools no call is yielded. */
  lemma {:induction false} NoToolsNoToolCalls(parts: seq<ResponsePart>)
    ensures Calls(Run(false, parts).events) == []
    decreases |parts|
  {
    if parts != [] {
      var init := parts[..|parts| - 1];
      NoToolsNoToolCalls(init);
      var before := Run(false, init);
      var more := PartStep(false, before.emitted, parts[|parts| - 1]).1;
      CallsAppend(before.events, more);
      assert Calls(more) == [] by {
        if more != [] {
          assert more == [Content(parts[|parts| - 1].text.value)];
        }
      }
    }
  }

  /** A later call part whose id was already yielded is suppressed: it adds no event, however its
      arguments differ. The first call part with a new id is yielded at once. */
  lemma RepeatedNameSuppressed(hasTools: bool, pre: seq<ResponsePart>, p: ResponsePart)
    requires IsCallPart(p)
    ensures StreamId(p.functionCall.value) in Run(hasTools, pre).emitted ==>
      Run(hasTools, pre + [p]) == Run(hasTools, pre)
    ensures hasTools && StreamId(p.functionCall.value) !in Run(hasTools, pre).emitted ==>
      Run(hasTools, pre + [p]).events == Run(hasTools, pre).events + [StreamedCall(p)]
  {
    assert (pre + [p])[..|pre|] == pre;
    assert Run(hasTools, pre).events + [] == Run(hasTools, pre).events;
  }

  /** The local state of `chat_stream`: `has_tool_calls` and the `tool_calls_emitted` set. */
  class Streamer {
    const hasToolCalls: bool
    var toolCallsEmitted: set<string>

    constructor (hasToolCalls: bool)
      ensures this.hasToolCalls == hasToolCalls && toolCallsEmitted == {}
    {
      this.hasToolCalls := hasToolCalls;
      toolCallsEmitted := {};
    }

    /** The body of the inner loop over one part. */
    method FeedPart(part: ResponsePart) returns (events: seq<StreamingEvent>)
      modifies this
      ensures (toolCallsEmitted, events) == PartStep(hasToolCalls, old(toolCallsEmitted), part)
    {
      events := [];
      if part.text.Some? {
        events := [Content(part.text.value)];
      } else if part.functionCall.Some? && hasToolCalls {
        var fc := part.functionCall.value;
        var toolId := "call_" + fc.name.GetOr("unknown");
        if toolId !in toolCallsEmitted {
          toolCallsEmitted := toolCallsEmitted + {toolId};
          events := [ToolCallEvent(ToolCall(Some(toolId), fc.name, Some(Structured(fc.args.GetOr(EmptyObject))), part.thoughtSignature), ToolCallsReason)];
        }
      }
    }
  }

  /** `chat_stream`'s loops over the decoded chunks and their parts with a fresh set of yielded
      ids: exactly the events `Run` describes for all the parts of the stream. */
  method StreamEvents(hasTools: bool, chunks: seq<Generated>) returns (events: seq<StreamingEvent>)
    ensures events == Run(hasTools, StreamParts(chunks)).events
  {
    var s := new Streamer(hasTools);
    events := [];
    var i := 0;
    while i < |chunks|
      invariant 0 <= i <= |chunks|
      invariant s.hasToolCalls == hasTools
      invariant Run(hasTools, StreamParts(chunks[..i])) == Progress(s.toolCallsEmitted, events)
    {
      StreamPartsStep(chunks, i);
      var seen := StreamParts(chunks[..i]);
      var parts := CandidateParts(chunks[i]);
      var j := 0;
      assert seen + parts[..j] == seen;
      while j < |parts|
        invariant 0 <= j <= |parts|
        invariant s.hasToolCalls == hasTools
        invariant Run(hasTools, seen + parts[..j]) == Progress(s.toolCallsEmitted, events)
      {
        RunPartStep(hasTools, seen, parts, j);
        var more := s.FeedPart(parts[j]);
        events := events + more;
        j := j + 1;
      }
      assert parts[..j] == parts;
      i := i + 1;
    }
    assert chunks[..i] == chunks;
  }

  /** One more chunk adds its parts at the end. */
  lemma StreamPartsStep(chunks: seq<Generated>, i: nat)
    requires i < |chunks|
    ensures StreamParts(chunks[..i + 1]) == StreamParts(chunks[..i]) + CandidateParts(chunks[i])
  {
    assert chunks[..i + 1][..i] == chunks[..i];
  }

  /** One more part of the current chunk is one more `PartStep`. */
  lemma RunPartStep(hasTools: bool, seen: seq<ResponsePart>, parts: seq<ResponsePart>, j: nat)
    requires j < |parts|
    ensures var before := Run(hasTools, seen + parts[..j]);
      var step := PartStep(hasTools, before.emitted, parts[j]);
      Run(hasTools, seen + parts[..j + 1]) == Progress(step.0, before.events + step.1)
  {
    assert (seen + parts[..j + 1])[..|seen| + j] == seen + parts[..j];
  }

  /** A `Google` provider, configured once. */
  class Provider {
    const config: ProviderConfig
    const client: HttpClient.Client

    /** `Google.__init__`: the base URL falls back to the Gemini endpoint; the API key travels in
        the endpoint, so the only default header is the content type. */
    constructor (apiKey: string, baseUrl: Option<string>)
      ensures config == NewProvider(apiKey, baseUrl, ClassBaseUrl)
      ensures client.Valid()
      ensures client.baseUrl == HttpClient.StripTrailingSlashes(config.baseUrl)
      ensures client.defaultHeaders == map["content-type" := "application/json"]
    {
      var cfg := NewProvider(apiKey, baseUrl, ClassBaseUrl);
      config := cfg;
      client := new HttpClient.Client(cfg.baseUrl, cfg.apiKey, Some(map["content-type" := "application/json"]));
    }

    /** `chat_stream`: the payload it posts, and then either the error the client raised before
        anything was yielded, or the events of all the parts of the decoded chunks. */
    method ChatStream(messages: MessagesInput, tools: Option<seq<Tool>>, toolChoice: Option<ToolChoice>,
                      temperature: Option<Json>, maxTokens: Option<int>, kwargs: map<string, Field>,
                      status: int, text: string, body: Option<Json>, lines: seq<string>, decode: string -> Generated)
      returns (payload: map<string, Field>, r: HttpClient.Result<seq<StreamingEvent>>)
      ensures payload == Fields(Contents(NormalizeMessages(messages)), temperature, maxTokens,
                                if tools.Some? then Some(Declarations(tools.value)) else None,
                                if toolChoice.Some? then ConvertToolChoice(toolChoice.value) else None) + kwargs
      ensures !HttpClient.ResponseOk(status) ==>
        r.Err? && r.error.Api? && Some(r.error.error) == HttpClient.HandleError(status, text, body)
      ensures HttpClient.ResponseOk(status) ==>
        r == HttpClient.Ok(Run(tools.Some?, StreamParts(DecodeAll(decode, HttpClient.DataPayloads(lines)))).events)
    {
      payload := BuildPayload(messages, tools, toolChoice, temperature, maxTokens, kwargs);
      var posted := HttpClient.PostStream(status, text, body, lines);
      if posted.Err? {
        r := HttpClient.Err(posted.error);
        return;
      }
      var events := StreamEvents(tools.Some?, DecodeAll(decode, posted.value));
      r := HttpClient.Ok(events);
    }
  }
}
