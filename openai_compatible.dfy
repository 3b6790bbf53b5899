/** The generic provider for endpoints that speak the OpenAI chat-completions format
    (`providers/openai_compatible.py`): its configuration, the request payload of `chat` and
    `chat_stream`, and the streaming loop that feeds decoded chunks to the shared buffer. */
module OpenAICompatible {
  import opened Types
  import opened BaseProvider
  import HttpClient
  import opened ChatCompletions

  /** The class attributes `default_base_url` and `default_model`: both empty. */
  const ClassBaseUrl: string := ""
  const ClassModel: string := ""

  /** `default_model or self.default_model`. */
  function ResolveDefaultModel(ctorModel: Option<string>): string {
    if Truthy(ctorModel) then ctorModel.value else ClassModel
  }

  /** `model or self._default_model`. */
  function PayloadModel(model: Option<string>, defaultModel: string): string {
    if Truthy(model) then model.value else defaultModel
  }

  /** The model a request names: the one passed when it is not empty, otherwise the constructor's
      default model when that is not empty, otherwise the class default (the empty string). */
  lemma ModelFallback(model: Option<string>, ctorModel: Option<string>)
    ensures Truthy(model) ==> PayloadModel(model, ResolveDefaultModel(ctorModel)) == model.value
    ensures !Truthy(model) && Truthy(ctorModel) ==> PayloadModel(model, ResolveDefaultModel(ctorModel)) == ctorModel.value
    ensures !Truthy(model) && !Truthy(ctorModel) ==> PayloadModel(model, ResolveDefaultModel(ctorModel)) == ""
  {
  }

  /** The default headers: a bearer token, then the extra headers, which win on a collision. */
  function DefaultHeaders(apiKey: string, extraHeaders: Option<map<string, string>>): (h: map<string, string>)
    ensures h.Keys == {"Authorization"} + extraHeaders.GetOr(map[]).Keys
    ensures forall k :: k in extraHeaders.GetOr(map[]) ==> h[k] == extraHeaders.GetOr(map[])[k]
    ensures "Authorization" !in extraHeaders.GetOr(map[]) ==> h["Authorization"] == "Bearer " + apiKey
  {
    map["Authorization" := "Bearer " + apiKey] + extraHeaders.GetOr(map[])
  }

  /** An `OpenAICompatible` provider. It is configured once and not changed afterwards; the streamed
      content is passed through `normalize`, the `_normalize_streaming_content` hook. */
  class Provider {
    const config: ProviderConfig
    const defaultModel: string
    const client: HttpClient.Client
    const normalize: string -> string

    /** `OpenAICompatible.__init__`. */
    constructor (apiKey: string, baseUrl: string, defaultModel: Option<string>,
                 extraHeaders: Option<map<string, string>>, normalize: string -> string)
      ensures config == NewProvider(apiKey, Some(baseUrl), ClassBaseUrl)
      ensures this.defaultModel == ResolveDefaultModel(defaultModel)
      ensures client.Valid()
      ensures client.baseUrl == HttpClient.StripTrailingSlashes(config.baseUrl)
      ensures client.defaultHeaders == DefaultHeaders(apiKey, extraHeaders)
      ensures this.normalize == normalize
    {
      var cfg := NewProvider(apiKey, Some(baseUrl), ClassBaseUrl);
      config := cfg;
      this.defaultModel := ResolveDefaultModel(defaultModel);
      client := new HttpClient.Client(cfg.baseUrl, cfg.apiKey, Some(DefaultHeaders(apiKey, extraHeaders)));
      this.normalize := normalize;
    }

    /** `chat`: the payload it posts, and the decoded response returned as it came (no
        normalisation), or the error the client raised. */
    method Chat(messages: MessagesInput, model: Option<string>, tools: Option<seq<Tool>>,
                toolChoice: Option<ToolChoice>, temperature: Option<Json>, maxTokens: Option<int>,
                kwargs: map<string, Value>, status: int, text: string, body: Option<Json>)
      returns (payload: map<string, Value>, response: HttpClient.Result<Json>)
      ensures payload == Fields(PayloadModel(model, defaultModel), NormalizeMessages(messages), tools, toolChoice,
                                temperature, maxTokens, false) + kwargs
      ensures HttpClient.ResponseOk(status) && body.Some? ==> response == HttpClient.Ok(body.value)
      ensures HttpClient.ResponseOk(status) && body.None? ==> response == HttpClient.Err(HttpClient.BodyNotJson)
      ensures !HttpClient.ResponseOk(status) ==>
        response.Err? && response.error.Api? && Some(response.error.error) == HttpClient.HandleError(status, text, body)
    {
      payload := BuildPayload(PayloadModel(model, defaultModel), NormalizeMessages(messages), tools, toolChoice,
                              temperature, maxTokens, false, kwargs);
      response := HttpClient.Post(status, text, body);
    }

    /** `chat_stream`: the payload it posts (with "stream": True), and then either the error the
        client raised before anything was yielded, or the events reconstructed from the decoded
        chunks with the exception, if any, that ended the stream. */
    method ChatStream(messages: MessagesInput, model: Option<string>, tools: Option<seq<Tool>>,
                      toolChoice: Option<ToolChoice>, temperature: Option<Json>, maxTokens: Option<int>,
                      kwargs: map<string, Value>, status: int, text: string, body: Option<Json>,
                      lines: seq<string>, decode: string -> Chunk)
      returns (payload: map<string, Value>, r: HttpClient.Result<(seq<StreamingEvent>, Option<Fault>)>)
      ensures payload == Fields(PayloadModel(model, defaultModel), NormalizeMessages(messages), tools, toolChoice,
                                temperature, maxTokens, true) + kwargs
      ensures !HttpClient.ResponseOk(status) ==>
        r.Err? && r.error.Api? && Some(r.error.error) == HttpClient.HandleError(status, text, body)
      ensures HttpClient.ResponseOk(status) ==>
        var run := Run(normalize, tools.Some?, DecodeAll(decode, HttpClient.DataPayloads(lines)));
        r == HttpClient.Ok((run.events, run.fault))
    {
      payload := BuildPayload(PayloadModel(model, defaultModel), NormalizeMessages(messages), tools, toolChoice,
                              temperature, maxTokens, true, kwargs);
      r := StreamEvents(normalize, tools.Some?, status, text, body, lines, decode);
    }
  }
}
