/** The managed-gateway provider: messages as typed text blocks inside a JSON body. */
module Bedrock {
  import opened Wrappers
  import opened Settings
  import opened Base
  import opened Wire

  /** The runtime client, holding the credentials and region it was built with. */
  datatype Client = Client(accessKeyId: string, secretAccessKey: string, region: string)

  datatype Provider = Provider(base: BaseProvider, client: Option<Client>, modelId: string)

  const NotConfigured: string := "AWS Bedrock não está configurado"
  const ImageRefusal: string := "Geração de imagens não é suportada pelo AWS Bedrock. Por favor, use OpenAI para esta funcionalidade."
  const ErrorPrefix: string := "Erro ao chamar AWS Bedrock: "
  const AnthropicVersion: string := "bedrock-2023-05-31"

  /** `{"role": ..., "content": [{"type": "text", "text": ...}]}`. */
  datatype BedrockMessage = BedrockMessage(role: string, content: seq<ContentBlock>)

  /** The JSON body of the invoke call. */
  datatype RequestBody = RequestBody(anthropicVersion: string, maxTokens: nat, system: string, messages: seq<BedrockMessage>)

  /** The parsed reply body; `content` is None when the key is missing. */
  datatype ResponseBody = ResponseBody(content: Option<seq<ContentBlock>>)

  /** The constructor: a client exists exactly when both keys are non-empty. */
  function New(cfg: Config): (p: Provider)
    ensures p.base == NewBaseProvider("AWS Bedrock")
    ensures p.client.Some? <==> Truthy(cfg.awsAccessKeyId) && Truthy(cfg.awsSecretAccessKey)
    ensures p.client.Some? ==> p.client.value == Client(cfg.awsAccessKeyId.value, cfg.awsSecretAccessKey.value, cfg.awsRegion)
    ensures p.modelId == cfg.awsBedrockModel
  {
    Provider(NewBaseProvider("AWS Bedrock"),
             if Truthy(cfg.awsAccessKeyId) && Truthy(cfg.awsSecretAccessKey)
             then Some(Client(cfg.awsAccessKeyId.value, cfg.awsSecretAccessKey.value, cfg.awsRegion))
             else None,
             cfg.awsBedrockModel)
  }

  /** `is_available`: the constructor built a client. */
  predicate IsAvailable(p: Provider) {
    p.client.Some?
  }

  /** A freshly constructed provider is available exactly when the access key and the secret key are set and non-empty. */
  lemma Availability(cfg: Config)
    ensures IsAvailable(New(cfg)) <==> Truthy(cfg.awsAccessKeyId) && Truthy(cfg.awsSecretAccessKey)
  {
  }

  /** A message wrapped as one typed text block. */
  function Format(m: Message): BedrockMessage {
    BedrockMessage(m.role, [TextBlock(m.content)])
  }

  /** Every message formatted, in order; joining a formatted message's blocks as a reply is
      joined gives back the original content. */
  function Formatted(ms: seq<Message>): (fs: seq<BedrockMessage>)
    ensures |fs| == |ms|
    ensures forall i :: 0 <= i < |ms| ==> fs[i].role == ms[i].role && JoinedText(fs[i].content) == ms[i].content
  {
    seq(|ms|, i requires 0 <= i < |ms| => Format(ms[i]))
  }

  /** The loop that builds `formatted_messages`. */
  method FormatMessages(ms: seq<Message>) returns (out: seq<BedrockMessage>)
    ensures out == Formatted(ms)
  {
    out := [];
    var i := 0;
    while i < |ms|
      invariant 0 <= i <= |ms|
      invariant out == Formatted(ms[..i])
    {
      out := out + [BedrockMessage(ms[i].role, [ContentBlock(Some("text"), Some(ms[i].content))])];
      i := i + 1;
    }
    assert ms[..i] == ms;
  }

  /** The request body for a call. */
  function BodyFor(p: Provider, messages: seq<Message>, t: ModelType): RequestBody {
    RequestBody(AnthropicVersion, MaxTokens(t), p.base.GetSystemPrompt(t), Formatted(messages))
  }

  /** What the body carries, for a constructed provider. */
  lemma BodyShape(cfg: Config, messages: seq<Message>, t: ModelType)
    ensures var body := BodyFor(New(cfg), messages, t);
      && body.anthropicVersion == "bedrock-2023-05-31"
      && body.system == PromptTable()[t]
      && body.maxTokens == (if t == Summarization then 1000 else 2000)
      && |body.messages| == |messages|
      && forall i :: 0 <= i < |messages| ==>
           body.messages[i] == BedrockMessage(messages[i].role, [ContentBlock(Some("text"), Some(messages[i].content))])
  {
  }

  /** The content of a reply: its text blocks joined, "" when the `content` key is missing. */
  function ReplyContent(body: ResponseBody): (text: string)
    ensures body.content.None? ==> text == ""
    ensures body.content.Some? ==> text == JoinedText(body.content.value)
    ensures body.content.Some? &&
            (forall i :: 0 <= i < |body.content.value| ==> body.content.value[i].blockType != Some("text"))
            ==> text == ""
  {
    var blocks := body.content.GetOr([]);
    if forall i :: 0 <= i < |blocks| ==> blocks[i].blockType != Some("text") then
      JoinedTextSkipsNonText(blocks);
      JoinedText(blocks)
    else
      JoinedText(blocks)
  }

  /** `chat_completion`. `invoke` is the model call together with the parsing of its reply;
      any failure there is reported with the provider's prefix. */
  method ChatCompletion(p: Provider, messages: seq<Message>, t: ModelType,
                        invoke: (string, RequestBody) -> Result<ResponseBody>)
    returns (r: Result<Reply>)
    ensures !IsAvailable(p) ==> r == Failure(NotConfigured)
    ensures IsAvailable(p) && t == ImageCreation ==> r == Success(Reply(ImageRefusal, None))
    ensures IsAvailable(p) && t != ImageCreation ==>
      match invoke(p.modelId, BodyFor(p, messages, t))
      case Success(body) => r == Success(Reply(ReplyContent(body), None))
      case Failure(e) => r == Failure(ErrorPrefix + e)
  {
    if !IsAvailable(p) {
      return Failure(NotConfigured);
    }
    if t == ImageCreation {
      return Success(Reply(ImageRefusal, None));
    }
    var systemPrompt := p.base.GetSystemPrompt(t);
    var formattedMessages := FormatMessages(messages);
    var maxTokens := 2000;
    if t == Summarization {
      maxTokens := 1000;
    }
    var body := RequestBody(AnthropicVersion, maxTokens, systemPrompt, formattedMessages);
    var response := invoke(p.modelId, body);
    match response {
      case Failure(e) => return Failure(ErrorPrefix + e);
      case Success(responseBody) =>
        var content := JoinTextBlocks(responseBody.content.GetOr([]));
        return Success(Reply(content, None));
    }
  }

  /** The fixed model list: eight distinct identifiers. */
  function ListModels(): (names: seq<string>)
    ensures |names| == 8
    ensures forall i, j :: 0 <= i < j < |names| ==> names[i] != names[j]
  {
    ["anthropic.claude-3-5-sonnet-20240620-v2:0", "anthropic.claude-3-5-haiku-20241022-v1:0",
     "anthropic.claude-3-opus-20240229-v1:0", "anthropic.claude-3-sonnet-20240229-v1:0",
     "anthropic.claude-3-haiku-20240307-v1:0", "amazon.titan-text-premier-v1:0",
     "amazon.titan-text-express-v1", "amazon.titan-text-lite-v1"]
  }
}
