/** The cloud-completion provider: the only one with an image branch. */
module OpenAI {
  import opened Wrappers
  import opened Settings
  import opened Base
  import opened Wire

  /** The SDK client, holding the key it was built with. */
  datatype Client = Client(apiKey: string)

  /** A constructed provider: the shared base state, the client (absent without a key) and the
      configured chat model. */
  datatype Provider = Provider(base: BaseProvider, client: Option<Client>, model: string)

  const NotConfigured: string := "OpenAI não está configurado"
  const PromptRequired: string := "Prompt necessário para geração de imagem"
  const ImageModel: string := "dall-e-3"
  const ImageSize: string := "1024x1024"

  /** The arguments of the image-generation call. */
  datatype ImageRequest = ImageRequest(model: string, prompt: string, n: nat, size: string)

  /** The arguments of the chat-completion call (the fixed temperature is not modelled). */
  datatype ChatRequest = ChatRequest(model: string, messages: seq<WireMessage>, maxTokens: nat)

  /** The constructor: a client exists exactly when the configured key is non-empty. */
  function New(cfg: Config): (p: Provider)
    ensures p.base == NewBaseProvider("OpenAI")
    ensures p.client.Some? <==> Truthy(cfg.openaiApiKey)
    ensures p.client.Some? ==> p.client.value.apiKey == cfg.openaiApiKey.value
    ensures p.model == cfg.openaiModel
  {
    Provider(NewBaseProvider("OpenAI"),
             if Truthy(cfg.openaiApiKey) then Some(Client(cfg.openaiApiKey.value)) else None,
             cfg.openaiModel)
  }

  /** `is_available`: the constructor built a client. */
  predicate IsAvailable(p: Provider) {
    p.client.Some?
  }

  /** A freshly constructed provider is available exactly when the API key is set and non-empty. */
  lemma Availability(cfg: Config)
    ensures IsAvailable(New(cfg)) <==> Truthy(cfg.openaiApiKey)
  {
  }

  /** The caption of a generated image. */
  function ImageCaption(prompt: string): string {
    "Imagem gerada baseada em: \"" + prompt + "\""
  }

  /** The image request for a prompt: one image of the fixed size from the image model. */
  function ImageRequestFor(prompt: string): ImageRequest {
    ImageRequest(ImageModel, prompt, 1, ImageSize)
  }

  /** The chat request: the system prompt first, then every message in order, with the
      task type's token budget. */
  function ChatRequestFor(p: Provider, messages: seq<Message>, t: ModelType): ChatRequest {
    ChatRequest(p.model, [SystemMessage(p.base.GetSystemPrompt(t))] + Wired(messages), MaxTokens(t))
  }

  /** What the chat request carries, for a constructed provider. */
  lemma ChatRequestShape(cfg: Config, messages: seq<Message>, t: ModelType)
    ensures var req := ChatRequestFor(New(cfg), messages, t);
      && |req.messages| == |messages| + 1
      && req.messages[0] == WireMessage("system", PromptTable()[t])
      && Unwired(req.messages[1..]) == messages
      && req.maxTokens == (if t == Summarization then 1000 else 2000)
      && req.model == cfg.openaiModel
  {
  }

  /** `chat_completion`. The image branch uses the last message as the prompt; the image and chat
      calls are the oracles `generateImage` and `createChat`, whose errors propagate unchanged. */
  method ChatCompletion(p: Provider, messages: seq<Message>, t: ModelType,
                        generateImage: ImageRequest -> Result<string>,
                        createChat: ChatRequest -> Result<string>)
    returns (r: Result<Reply>)
    ensures !IsAvailable(p) ==> r == Failure(NotConfigured)
    ensures IsAvailable(p) && t == ImageCreation && messages == [] ==> r == Failure(PromptRequired)
    ensures IsAvailable(p) && t == ImageCreation && messages != [] ==>
      var prompt := messages[|messages| - 1].content;
      match generateImage(ImageRequestFor(prompt))
      case Success(url) => r == Success(Reply(ImageCaption(prompt), Some(url)))
      case Failure(e) => r == Failure(e)
    ensures IsAvailable(p) && t != ImageCreation ==>
      match createChat(ChatRequestFor(p, messages, t))
      case Success(content) => r == Success(Reply(content, None))
      case Failure(e) => r == Failure(e)
  {
    if !IsAvailable(p) {
      return Failure(NotConfigured);
    }
    if t == ImageCreation {
      if messages == [] {
        return Failure(PromptRequired);
      }
      var last := messages[|messages| - 1];
      var response := generateImage(ImageRequest(ImageModel, last.content, 1, ImageSize));
      match response {
        case Failure(e) => return Failure(e);
        case Success(url) => return Success(Reply(ImageCaption(last.content), Some(url)));
      }
    }
    var systemPrompt := p.base.GetSystemPrompt(t);
    var openaiMessages := AppendWired([SystemMessage(systemPrompt)], messages);
    var maxTokens := 2000;
    if t == Summarization {
      maxTokens := 1000;
    }
    var response := createChat(ChatRequest(p.model, openaiMessages, maxTokens));
    match response {
      case Failure(e) => return Failure(e);
      case Success(content) => return Success(Reply(content, None));
    }
  }

  /** The fixed model list: seven distinct names, among them the image model and the default chat model. */
  function ListModels(): (names: seq<string>)
    ensures |names| == 7
    ensures ImageModel in names && "gpt-4o" in names
    ensures forall i, j :: 0 <= i < j < |names| ==> names[i] != names[j]
  {
    ["gpt-4o", "gpt-4o-mini", "gpt-4-turbo", "gpt-4", "gpt-3.5-turbo", "dall-e-3", "whisper-1"]
  }
}
