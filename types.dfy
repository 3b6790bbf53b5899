/** The vendor-neutral data model shared by every provider: messages, tools, tool calls,
    streaming events and completions (the typed dictionaries of `_types.py`). */
module Types {

  datatype Option<+T> = None | Some(value: T) {
    /** `d.get(key, default)`: the value when present, the default otherwise. */
    function GetOr(default: T): T {
      match this
      case Some(v) => v
      case None => default
    }
  }

  /** A decoded JSON value. Objects are maps: no code modelled here observes key order. */
  datatype Json =
    | Null
    | Bool(b: bool)
    | Num(n: real)
    | Str(s: string)
    | Arr(items: seq<Json>)
    | Obj(fields: map<string, Json>)

  /** The empty JSON object `{}`, the default of several `.get(..., {})` look-ups. */
  const EmptyObject: Json := Obj(map[])

  /** Tool-call arguments: the JSON text as received, or the value it was decoded to. */
  datatype Arguments = Raw(text: string) | Structured(value: Json)

  /** A tool call. Every field is optional, as in the source's `total=False` dictionaries. */
  datatype ToolCall = ToolCall(
    id: Option<string>,
    name: Option<string>,
    arguments: Option<Arguments>,
    thoughtSignature: Option<string>)

  /** A chat message. An absent `tool_calls` and an empty one behave alike everywhere except in a
      normalised response, where the key is present exactly when there are calls. */
  datatype Message = Message(
    role: string,
    content: Option<string>,
    toolCalls: Option<seq<ToolCall>>,
    toolCallId: Option<string>,
    name: Option<string>)

  /** The calls of a message, absent read as none. */
  function CallsOf(m: Message): seq<ToolCall> {
    m.toolCalls.GetOr([])
  }

  datatype ToolFunction = ToolFunction(name: Option<string>, description: Option<string>, parameters: Option<Json>)

  /** A tool offered to the model, `{"type": ..., "function": {...}}`. */
  datatype Tool = Tool(toolType: Option<string>, func: Option<ToolFunction>)

  /** `"auto"`, `"none"`, `"required"` (or any other string), or a dictionary that may pin one function. */
  datatype ToolChoice = Tag(tag: string) | Pinned(choiceType: Option<string>, functionName: string)

  /** The one finish reason every reconstructor attaches to a completed tool call. */
  const ToolCallsReason: string := "tool_calls"

  /** One event of a unified stream: a piece of text, or one completed tool call. */
  datatype StreamingEvent = Content(text: string) | ToolCallEvent(toolCall: ToolCall, finishReason: string)

  datatype Usage = Usage(promptTokens: int, completionTokens: int, totalTokens: int)

  /** A normalised non-streaming response: one choice holding the assistant message. */
  datatype ChatCompletion = ChatCompletion(
    id: Option<string>,
    model: Option<string>,
    message: Message,
    finishReason: Option<string>,
    usage: Usage)

  /** A tool call whose name and argument text are still being assembled from a stream. */
  datatype PartialCall = PartialCall(id: string, name: string, arguments: string)

  /** Python exceptions that escape the modelled code. */
  datatype Fault = IndexError | UnboundLocalError

  /** Python truthiness of an optional string: present and not empty. */
  predicate Truthy(s: Option<string>) {
    s.Some? && s.value != ""
  }

  /** The texts of the content events of a stream, in order. */
  function Texts(events: seq<StreamingEvent>): (texts: seq<string>)
    ensures |texts| <= |events|
  {
    if events == [] then []
    else (if events[0].Content? then [events[0].text] else []) + Texts(events[1..])
  }

  /** The tool calls of the tool-call events of a stream, in order. */
  function Calls(events: seq<StreamingEvent>): (calls: seq<ToolCall>)
    ensures |calls| <= |events|
  {
    if events == [] then []
    else (if events[0].ToolCallEvent? then [events[0].toolCall] else []) + Calls(events[1..])
  }

  lemma {:induction false} TextsAppend(a: seq<StreamingEvent>, b: seq<StreamingEvent>)
    ensures Texts(a + b) == Texts(a) + Texts(b)
  {
    if a != [] {
      assert (a + b)[1..] == a[1..] + b;
      TextsAppend(a[1..], b);
    } else {
      assert a + b == b;
    }
  }

  lemma {:induction false} CallsAppend(a: seq<StreamingEvent>, b: seq<StreamingEvent>)
    ensures Calls(a + b) == Calls(a) + Calls(b)
  {
    if a != [] {
      assert (a + b)[1..] == a[1..] + b;
      CallsAppend(a[1..], b);
    } else {
      assert a + b == b;
    }
  }

  /** A stream of tool-call events only: its calls are the events' calls, one for one. */
  lemma {:induction false} CallsOfToolEvents(es: seq<StreamingEvent>)
    requires forall i :: 0 <= i < |es| ==> es[i].ToolCallEvent?
    ensures |Calls(es)| == |es|
    ensures forall i :: 0 <= i < |es| ==> Calls(es)[i] == es[i].toolCall
  {
    if es != [] {
      CallsOfToolEvents(es[1..]);
      assert Calls(es) == [es[0].toolCall] + Calls(es[1..]);
    }
  }

  /** A stream of content events only carries no tool call. */
  lemma {:induction false} NoCallsInContent(es: seq<StreamingEvent>)
    requires forall i :: 0 <= i < |es| ==> es[i].Content?
    ensures Calls(es) == []
  {
    if es != [] {
      NoCallsInContent(es[1..]);
    }
  }

  /** A stream of tool-call events only carries no text. */
  lemma {:induction false} NoTextInCalls(es: seq<StreamingEvent>)
    requires forall i :: 0 <= i < |es| ==> es[i].ToolCallEvent?
    ensures Texts(es) == []
  {
    if es != [] {
      NoTextInCalls(es[1..]);
    }
  }

  /** The payloads of a stream, each decoded with `json.loads` (here the parameter `decode`). */
  function DecodeAll<F>(decode: string -> F, payloads: seq<string>): (decoded: seq<F>)
    ensures |decoded| == |payloads|
    ensures forall i :: 0 <= i < |payloads| ==> decoded[i] == decode(payloads[i])
  {
    seq(|payloads|, i requires 0 <= i < |payloads| => decode(payloads[i]))
  }

  /** Decimal rendering of a natural number, as `f"{n}"`. */
  function NatToString(n: nat): (s: string)
    ensures |s| >= 1
    ensures forall i :: 0 <= i < |s| ==> '0' <= s[i] <= '9'
    decreases n
  {
    if n < 10 then [Digit(n)] else NatToString(n / 10) + [Digit(n % 10)]
  }

  function Digit(d: nat): (c: char)
    requires d < 10
    ensures '0' <= c <= '9'
  {
    ['0', '1', '2', '3', '4', '5', '6', '7', '8', '9'][d]
  }
}
