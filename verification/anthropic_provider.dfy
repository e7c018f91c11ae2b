/** The cloud-messages provider: system prompt in a separate field, reply as content blocks. */
module Anthropic {
  import opened Wrappers
  import opened Settings
  import opened Base
  import opened Wire

  /** The SDK client, holding the key it was built with. */
  datatype Client = Client(apiKey: string)

  datatype Provider = Provider(base: BaseProvider, client: Option<Client>, model: string)

  const NotConfigured: string := "Anthropic não está configurado"
  const ImageRefusal: string := "Geração de imagens não é suportada pelo Claude. Por favor, use OpenAI para esta funcionalidade."

  /** The arguments of the messages call. */
  datatype MessagesRequest = MessagesRequest(model: string, maxTokens: nat, system: string, messages: seq<WireMessage>)

  /** The constructor: a client exists exactly when the configured key is non-empty. */
  function New(cfg: Config): (p: Provider)
    ensures p.base == NewBaseProvider("Anthropic")
    ensures p.client.Some? <==> Truthy(cfg.anthropicApiKey)
    ensures p.client.Some? ==> p.client.value.apiKey == cfg.anthropicApiKey.value
    ensures p.model == cfg.anthropicModel
  {
    Provider(NewBaseProvider("Anthropic"),
             if Truthy(cfg.anthropicApiKey) then Some(Client(cfg.anthropicApiKey.value)) else None,
             cfg.anthropicModel)
  }

  /** `is_available`: the constructor built a client. */
  predicate IsAvailable(p: Provider) {
    p.client.Some?
  }

  /** A freshly constructed provider is available exactly when the API key is set and non-empty. */
  lemma Availability(cfg: Config)
    ensures IsAvailable(New(cfg)) <==> Truthy(cfg.anthropicApiKey)
  {
  }

  /** The request: the messages unchanged in order, the system prompt in its own field. */
  function RequestFor(p: Provider, messages: seq<Message>, t: ModelType): MessagesRequest {
    MessagesRequest(p.model, MaxTokens(t), p.base.GetSystemPrompt(t), Wired(messages))
  }

  /** What the request carries, for a constructed provider: no system record among the
      messages, which are exactly the caller's. */
  lemma RequestShape(cfg: Config, messages: seq<Message>, t: ModelType)
    ensures var req := RequestFor(New(cfg), messages, t);
      && req.system == PromptTable()[t]
      && |req.messages| == |messages|
      && Unwired(req.messages) == messages
      && req.maxTokens == (if t == Summarization then 1000 else 2000)
      && req.model == cfg.anthropicModel
  {
  }

  /** `chat_completion`. `create` is the messages call: its reply is the list of content blocks,
      and its errors propagate unchanged. */
  method ChatCompletion(p: Provider, messages: seq<Message>, t: ModelType,
                        create: MessagesRequest -> Result<seq<ContentBlock>>)
    returns (r: Result<Reply>)
    ensures !IsAvailable(p) ==> r == Failure(NotConfigured)
    ensures IsAvailable(p) && t == ImageCreation ==> r == Success(Reply(ImageRefusal, None))
    ensures IsAvailable(p) && t != ImageCreation ==>
      match create(RequestFor(p, messages, t))
      case Success(blocks) => r == Success(Reply(JoinedText(blocks), None))
      case Failure(e) => r == Failure(e)
  {
    if !IsAvailable(p) {
      return Failure(NotConfigured);
    }
    if t == ImageCreation {
      return Success(Reply(ImageRefusal, None));
    }
    var systemPrompt := p.base.GetSystemPrompt(t);
    var anthropicMessages := AppendWired([], messages);
    assert anthropicMessages == Wired(messages);
    var maxTokens := 2000;
    if t == Summarization {
      maxTokens := 1000;
    }
    var response := create(MessagesRequest(p.model, maxTokens, systemPrompt, anthropicMessages));
    match response {
      case Failure(e) => return Failure(e);
      case Success(blocks) =>
        var content := JoinTextBlocks(blocks);
        return Success(Reply(content, None));
    }
  }

  /** The fixed model list: six distinct names, the default model among them. */
  function ListModels(): (names: seq<string>)
    ensures |names| == 6
    ensures "claude-3-5-sonnet-20241022" in names
    ensures forall i, j :: 0 <= i < j < |names| ==> names[i] != names[j]
  {
    ["claude-3-5-sonnet-20241022", "claude-3-5-haiku-20241022", "claude-3-5-sonnet-20240620",
     "claude-3-opus-20240229", "claude-3-sonnet-20240229", "claude-3-haiku-20240307"]
  }
}
