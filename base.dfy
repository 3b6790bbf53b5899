/** What every provider shares (`providers/_base.py`): the credential and endpoint it is built
    with, and the sugar that lets a caller pass one string instead of a message list. */
module BaseProvider {
  import opened Types

  /** The `messages` argument of `chat` and `chat_stream`: one string or a list of messages. */
  datatype MessagesInput = Text(text: string) | List(messages: seq<Message>)

  /** `_normalize_messages`: a string becomes a single user message, a list is used as given. */
  function NormalizeMessages(input: MessagesInput): (ms: seq<Message>)
    ensures input.Text? ==>
      && |ms| == 1
      && ms[0].role == "user"
      && ms[0].content == Some(input.text)
      && ms[0].toolCalls.None? && ms[0].toolCallId.None? && ms[0].name.None?
    ensures input.List? ==> ms == input.messages
  {
    match input
    case Text(s) => [Message("user", Some(s), None, None, None)]
    case List(messages) => messages
  }

  /** The two fields `BaseProvider.__init__` sets. */
  datatype ProviderConfig = ProviderConfig(apiKey: string, baseUrl: string)

  /** `BaseProvider.__init__`: the key is kept as given; a missing or empty `base_url` falls back
      to the provider class's `default_base_url`. */
  function NewProvider(apiKey: string, baseUrl: Option<string>, defaultBaseUrl: string): (p: ProviderConfig)
    ensures p.apiKey == apiKey
    ensures Truthy(baseUrl) ==> p.baseUrl == baseUrl.value
    ensures !Truthy(baseUrl) ==> p.baseUrl == defaultBaseUrl
  {
    ProviderConfig(apiKey, if Truthy(baseUrl) then baseUrl.value else defaultBaseUrl)
  }
}
