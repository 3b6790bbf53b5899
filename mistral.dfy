/** The Mistral provider (`providers/mistral.py`): the OpenAI chat-completions format with a fixed
    endpoint, a default model on both entry points, and streamed content yielded exactly as
    received. */
module Mistral {
  import opened Types
  import opened BaseProvider
  import HttpClient
  import opened ChatCompletions

  /** The class attribute `default_base_url`. */
  const ClassBaseUrl: string := "https://api.mistral.ai/v1"

  /** The default of the `model` parameter of `chat` and `chat_stream`. */
  const DefaultModel: string := "mistral-small-latest"

  /** Content is yielded as it arrived: the identity in place of a normalising hook. */
  function Verbatim(s: string): string {
    s
  }

  /** The content text of each chunk, exactly as it arrived, skipping empty and absent content. */
  function DeltaContents(chunks: seq<Chunk>): seq<string>
    requires NoneRaise(chunks)
    decreases |chunks|
  {
    if chunks == [] then []
    else
      var delta := FirstChoice(chunks[|chunks| - 1]).value.delta;
      DeltaContents(chunks[..|chunks| - 1]) + (if Truthy(delta.content) then [delta.content.value] else [])
  }

  /** The content events of a Mistral stream carry the delta texts unchanged and in order. */
  lemma ContentVerbatim(hasTools: bool, chunks: seq<Chunk>)
    requires NoneRaise(chunks)
    ensures Texts(Run(Verbatim, hasTools, chunks).events) == DeltaContents(chunks)
  {
    ContentIsEveryDelta(Verbatim, hasTools, chunks);
    AllTextVerbatim(chunks);
  }

  lemma {:induction false} AllTextVerbatim(chunks: seq<Chunk>)
    requires NoneRaise(chunks)
    ensures AllText(Verbatim, chunks) == DeltaContents(chunks)
    decreases |chunks|
  {
    if chunks != [] {
      var init := chunks[..|chunks| - 1];
      assert NoneRaise(init) by {
        assert forall i :: 0 <= i < |init| ==> init[i] == chunks[i];
      }
      AllTextVerbatim(init);
    }
  }

  /** A `Mistral` provider, configured once. */
  class Provider {
    const config: ProviderConfig
    const client: HttpClient.Client

    /** `Mistral.__init__`: the base URL falls back to the Mistral endpoint; requests carry a bearer token. */
    constructor (apiKey: string, baseUrl: Option<string>)
      ensures config == NewProvider(apiKey, baseUrl, ClassBaseUrl)
      ensures client.Valid()
      ensures client.baseUrl == HttpClient.StripTrailingSlashes(config.baseUrl)
      ensures client.defaultHeaders == map["Authorization" := "Bearer " + apiKey]
    {
      var cfg := NewProvider(apiKey, baseUrl, ClassBaseUrl);
      config := cfg;
      client := new HttpClient.Client(cfg.baseUrl, cfg.apiKey, Some(map["Authorization" := "Bearer " + apiKey]));
    }

    /** `chat`: the payload it posts, and the decoded response returned as it came, or the error
        the client raised. */
    method Chat(messages: MessagesInput, model: Option<string>, tools: Option<seq<Tool>>,
                toolChoice: Option<ToolChoice>, temperature: Option<Json>, maxTokens: Option<int>,
                kwargs: map<string, Value>, status: int, text: string, body: Option<Json>)
      returns (payload: map<string, Value>, response: HttpClient.Result<Json>)
      ensures payload == Fields(model.GetOr(DefaultModel), NormalizeMessages(messages), tools, toolChoice,
                                temperature, maxTokens, false) + kwargs
      ensures HttpClient.ResponseOk(status) && body.Some? ==> response == HttpClient.Ok(body.value)
      ensures HttpClient.ResponseOk(status) && body.None? ==> response == HttpClient.Err(HttpClient.BodyNotJson)
      ensures !HttpClient.ResponseOk(status) ==>
        response.Err? && response.error.Api? && Some(response.error.error) == HttpClient.HandleError(status, text, body)
    {
      payload := BuildPayload(model.GetOr(DefaultModel), NormalizeMessages(messages), tools, toolChoice,
                              temperature, maxTokens, false, kwargs);
      response := HttpClient.Post(status, text, body);
    }

    /** `chat_stream`: the payload it posts (with "stream": True), and the client's error or the
        events reconstructed, with verbatim content, from the decoded chunks. */
    method ChatStream(messages: MessagesInput, model: Option<string>, tools: Option<seq<Tool>>,
                      toolChoice: Option<ToolChoice>, temperature: Option<Json>, maxTokens: Option<int>,
                      kwargs: map<string, Value>, status: int, text: string, body: Option<Json>,
                      lines: seq<string>, decode: string -> Chunk)
      returns (payload: map<string, Value>, r: HttpClient.Result<(seq<StreamingEvent>, Option<Fault>)>)
      ensures payload == Fields(model.GetOr(DefaultModel), NormalizeMessages(messages), tools, toolChoice,
                                temperature, maxTokens, true) + kwargs
      ensures !HttpClient.ResponseOk(status) ==>
        r.Err? && r.error.Api? && Some(r.error.error) == HttpClient.HandleError(status, text, body)
      ensures HttpClient.ResponseOk(status) ==>
        var run := Run(Verbatim, tools.Some?, DecodeAll(decode, HttpClient.DataPayloads(lines)));
        r == HttpClient.Ok((run.events, run.fault))
    {
      payload := BuildPayload(model.GetOr(DefaultModel), NormalizeMessages(messages), tools, toolChoice,
                              temperature, maxTokens, true, kwargs);
      r := StreamEvents(Verbatim, tools.Some?, status, text, body, lines, decode);
    }
  }
}
