/** The local-daemon provider: availability is a live probe, the system prompt is the first
    element of the message array, and no token budget is sent. */
module Ollama {
  import opened Wrappers
  import opened Settings
  import opened Base
  import opened Wire

  datatype Provider = Provider(base: BaseProvider, baseUrl: string, model: string)

  const NotAvailable: string := "Ollama não está disponível. Certifique-se de que o serviço está rodando."
  const ImageRefusal: string := "Geração de imagens não é suportada pelo Ollama. Por favor, use OpenAI para esta funcionalidade."
  const ErrorPrefix: string := "Erro ao chamar Ollama: "

  /** One entry of the `models` list of the tags endpoint; `name` is None when the key is missing. */
  datatype ModelEntry = ModelEntry(name: Option<string>)

  /** The parsed body of the tags endpoint; `models` is None when the key is missing. */
  datatype TagsBody = TagsBody(models: Option<seq<ModelEntry>>)

  /** The outcome of one GET to the tags endpoint: no response at all (connection error,
      timeout), or a status code with a body that parsed as JSON or did not. */
  datatype TagsProbe = Unreachable | Replied(status: int, body: Option<TagsBody>)

  /** The JSON payload of the chat call; it has no token budget field. */
  datatype Payload = Payload(model: string, messages: seq<WireMessage>, stream: bool)

  /** `{"content": ...}` of the reply's `message`; each key may be missing. */
  datatype ReplyMessage = ReplyMessage(content: Option<string>)
  datatype ChatResponse = ChatResponse(message: Option<ReplyMessage>)

  /** The constructor keeps the configured endpoint and model. */
  function New(cfg: Config): (p: Provider)
    ensures p.base == NewBaseProvider("Ollama")
    ensures p.baseUrl == cfg.ollamaBaseUrl && p.model == cfg.ollamaModel
  {
    Provider(NewBaseProvider("Ollama"), cfg.ollamaBaseUrl, cfg.ollamaModel)
  }

  /** `is_available`: the probe answered with status 200; a failed probe reads as false. */
  function IsAvailable(probe: TagsProbe): (available: bool)
    ensures available <==> probe.Replied? && probe.status == 200
  {
    match probe
    case Unreachable => false
    case Replied(status, _) => status == 200
  }

  /** The payload: the system record, then every message in order, not streamed. */
  function PayloadFor(p: Provider, messages: seq<Message>, t: ModelType): Payload {
    Payload(p.model, [SystemMessage(p.base.GetSystemPrompt(t))] + Wired(messages), false)
  }

  lemma PayloadShape(cfg: Config, messages: seq<Message>, t: ModelType)
    ensures var payload := PayloadFor(New(cfg), messages, t);
      && |payload.messages| == |messages| + 1
      && payload.messages[0] == WireMessage("system", PromptTable()[t])
      && Unwired(payload.messages[1..]) == messages
      && !payload.stream
      && payload.model == cfg.ollamaModel
  {
  }

  /** `message.content` of the reply, "" when either key is missing. */
  function ReplyContent(response: ChatResponse): (content: string)
    ensures response.message.Some? && response.message.value.content.Some? ==>
              content == response.message.value.content.value
    ensures response.message.None? || response.message.value.content.None? ==> content == ""
  {
    response.message.GetOr(ReplyMessage(None)).content.GetOr("")
  }

  /** `chat_completion`. `probe` is the tags probe made by the availability check at the start of
      the call, `post` the chat call with its status check and parsing; any failure of `post`
      is reported with the provider's prefix. */
  method ChatCompletion(p: Provider, messages: seq<Message>, t: ModelType,
                        probe: TagsProbe, post: (string, Payload) -> Result<ChatResponse>)
    returns (r: Result<Reply>)
    ensures !IsAvailable(probe) ==> r == Failure(NotAvailable)
    ensures IsAvailable(probe) && t == ImageCreation ==> r == Success(Reply(ImageRefusal, None))
    ensures IsAvailable(probe) && t != ImageCreation ==>
      match post(p.baseUrl + "/api/chat", PayloadFor(p, messages, t))
      case Success(response) => r == Success(Reply(ReplyContent(response), None))
      case Failure(e) => r == Failure(ErrorPrefix + e)
  {
    if !IsAvailable(probe) {
      return Failure(NotAvailable);
    }
    if t == ImageCreation {
      return Success(Reply(ImageRefusal, None));
    }
    var systemPrompt := p.base.GetSystemPrompt(t);
    var formattedMessages := AppendWired([], messages);
    assert formattedMessages == Wired(messages);
    var payload := Payload(p.model, [SystemMessage(systemPrompt)] + formattedMessages, false);
    var response := post(p.baseUrl + "/api/chat", payload);
    match response {
      case Failure(e) => return Failure(ErrorPrefix + e);
      case Success(result) => return Success(Reply(ReplyContent(result), None));
    }
  }

  /** The list used when the daemon cannot be asked. */
  const FallbackModels: seq<string> :=
    ["llama3.1", "llama3", "llama2", "mistral", "mixtral", "codellama",
     "phi3", "phi", "gemma2", "gemma", "qwen2.5", "neural-chat"]

  /** Whether a probe gives the daemon's own list: status 200 and a body that parsed. */
  predicate Listed(probe: TagsProbe) {
    probe.Replied? && probe.status == 200 && probe.body.Some?
  }

  /** `list_models`: the daemon's names (each "" when missing) when it answers, else the fallback. */
  function ListModels(probe: TagsProbe): (names: seq<string>)
    ensures Listed(probe) ==>
      var entries := probe.body.value.models.GetOr([]);
      |names| == |entries| &&
      forall i :: 0 <= i < |entries| ==> names[i] == entries[i].name.GetOr("")
    ensures !Listed(probe) ==> names == FallbackModels
  {
    if Listed(probe) then
      var entries := probe.body.value.models.GetOr([]);
      seq(|entries|, i requires 0 <= i < |entries| => entries[i].name.GetOr(""))
    else
      FallbackModels
  }

  /** The fallback holds twelve distinct names, the default model among them; a daemon that is
      available but whose reply lacks `models` lists nothing. */
  lemma ListModelsCases(probe: TagsProbe)
    ensures |FallbackModels| == 12 && "llama3.1" in FallbackModels
    ensures forall i, j :: 0 <= i < j < |FallbackModels| ==> FallbackModels[i] != FallbackModels[j]
    ensures !IsAvailable(probe) ==> ListModels(probe) == FallbackModels
    ensures Listed(probe) && probe.body.value.models.None? ==> ListModels(probe) == []
  {
  }
}
