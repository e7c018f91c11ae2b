/** The single-backend chat service behind the HTTP front end, with its fixed prompt templates. */
module LLMService {
  import opened Wrappers
  import opened Settings
  import opened Wire

  /** The asynchronous SDK client, holding the key it was built with. */
  datatype Client = Client(apiKey: string)

  datatype Service = Service(client: Option<Client>, model: string)

  const ServiceModel: string := "gpt-4-turbo-preview"
  const NotConfigured: string := "OpenAI API key not configured"

  /** The sampling temperature, carried through unchanged and never inspected. */
  datatype Temperature = Temperature(literal: string)
  const DefaultTemperature: Temperature := Temperature("0.7")

  /** The constructor: a client exists exactly when the key is non-empty. */
  function New(apiKey: Option<string>): (s: Service)
    ensures s.client.Some? <==> Truthy(apiKey)
    ensures s.model == ServiceModel
  {
    Service(if Truthy(apiKey) then Some(Client(apiKey.value)) else None, ServiceModel)
  }

  /** The keyword arguments of the completion call; `maxTokens` is None when the key is absent. */
  datatype Kwargs = Kwargs(model: string, messages: seq<WireMessage>, temperature: Temperature,
                           stream: bool, maxTokens: Option<int>)

  /** Python truthiness of an optional integer: present and not zero. */
  predicate TruthyInt(n: Option<int>) {
    n.Some? && n.value != 0
  }

  /** The kwargs `chat` builds: the four fixed keys, and `max_tokens` only when it is truthy. */
  function KwargsFor(svc: Service, messages: seq<WireMessage>, stream: bool, temperature: Temperature,
                     maxTokens: Option<int>): (k: Kwargs)
    ensures k.model == svc.model && k.messages == messages
    ensures k.temperature == temperature && k.stream == stream
    ensures k.maxTokens.Some? <==> TruthyInt(maxTokens)
    ensures k.maxTokens.Some? ==> k.maxTokens == maxTokens
  {
    Kwargs(svc.model, messages, temperature, stream, if TruthyInt(maxTokens) then maxTokens else None)
  }

  datatype Usage = Usage(promptTokens: int, completionTokens: int, totalTokens: int)

  /** The part of the SDK's non-streamed response object that `chat` reads
      (`choices[0].message.content`, `model`, `usage`). It is kept apart from `ChatResult`, the
      dict `chat` returns, so that `Chat`'s contract can show the fields being copied across. */
  datatype Completion = Completion(content: string, model: string, usage: Usage)

  /** `{"content", "model", "usage"}` of a non-streamed answer. */
  datatype ChatResult = ChatResult(content: string, model: string, usage: Usage)

  /** A whole answer, or the text chunks a stream yields. */
  datatype ChatOutcome = Complete(result: ChatResult) | Streamed(chunks: seq<string>)

  /** A delta is yielded when it is truthy: present and not empty. */
  predicate Yielded(delta: Option<string>) {
    delta.Some? && delta.value != ""
  }

  /** The deltas a stream yields, in arrival order. */
  function YieldedDeltas(deltas: seq<Option<string>>): (chunks: seq<string>)
    ensures |chunks| <= |deltas|
    ensures forall i :: 0 <= i < |chunks| ==> chunks[i] != ""
    decreases |deltas|
  {
    if deltas == [] then []
    else (if Yielded(deltas[0]) then [deltas[0].value] else []) + YieldedDeltas(deltas[1..])
  }

  /** Filtering deltas distributes over concatenation, so arrival order is kept. */
  lemma {:induction false} YieldedDeltasAppend(a: seq<Option<string>>, b: seq<Option<string>>)
    ensures YieldedDeltas(a + b) == YieldedDeltas(a) + YieldedDeltas(b)
    decreases |a|
  {
    if a == [] {
      assert a + b == b;
    } else {
      assert (a + b)[1..] == a[1..] + b;
      YieldedDeltasAppend(a[1..], b);
    }
  }

  /** Every yielded chunk is non-empty, and together they spell the whole streamed text
      (a missing delta counting as ""). */
  lemma {:induction false} YieldedDeltasKeepText(deltas: seq<Option<string>>)
    ensures forall c :: c in YieldedDeltas(deltas) ==> c != ""
    ensures Concat(YieldedDeltas(deltas)) ==
            Concat(seq(|deltas|, i requires 0 <= i < |deltas| => deltas[i].GetOr("")))
    decreases |deltas|
  {
    if deltas != [] {
      var all := seq(|deltas|, i requires 0 <= i < |deltas| => deltas[i].GetOr(""));
      var tail := seq(|deltas[1..]|, i requires 0 <= i < |deltas[1..]| => deltas[1..][i].GetOr(""));
      assert all[1..] == tail;
      YieldedDeltasKeepText(deltas[1..]);
      if Yielded(deltas[0]) {
        assert Concat([deltas[0].value] + YieldedDeltas(deltas[1..])) ==
               deltas[0].value + Concat(YieldedDeltas(deltas[1..])) by {
          assert ([deltas[0].value] + YieldedDeltas(deltas[1..]))[1..] == YieldedDeltas(deltas[1..]);
        }
      } else {
        assert [] + YieldedDeltas(deltas[1..]) == YieldedDeltas(deltas[1..]);
        assert all[0] == "";
      }
    }
  }

  /** The stream generator: yields each truthy delta, in order. */
  method StreamChunks(deltas: seq<Option<string>>) returns (out: seq<string>)
    ensures out == YieldedDeltas(deltas)
  {
    out := [];
    var i := 0;
    while i < |deltas|
      invariant 0 <= i <= |deltas|
      invariant out == YieldedDeltas(deltas[..i])
    {
      var delta := deltas[i];
      if delta.Some? && delta.value != "" {
        out := out + [delta.value];
      }
      YieldedDeltasAppend(deltas[..i], [deltas[i]]);
      assert deltas[..i + 1] == deltas[..i] + [deltas[i]];
      assert YieldedDeltas([deltas[i]]) == (if Yielded(deltas[i]) then [deltas[i].value] else []) by {
        assert [deltas[i]][1..] == [];
      }
      i := i + 1;
    }
    assert deltas[..i] == deltas;
  }

  /** `chat`. `create` is the non-streamed completion call and `createStream` the streamed one,
      giving each chunk's delta content; their errors propagate unchanged. */
  method Chat(svc: Service, messages: seq<WireMessage>, stream: bool, temperature: Temperature,
              maxTokens: Option<int>,
              create: Kwargs -> Result<Completion>,
              createStream: Kwargs -> Result<seq<Option<string>>>)
    returns (r: Result<ChatOutcome>)
    ensures svc.client.None? ==> r == Failure(NotConfigured)
    ensures svc.client.Some? && !stream ==>
      match create(KwargsFor(svc, messages, stream, temperature, maxTokens))
      case Success(c) => r == Success(Complete(ChatResult(c.content, c.model, c.usage)))
      case Failure(e) => r == Failure(e)
    ensures svc.client.Some? && stream ==>
      match createStream(KwargsFor(svc, messages, stream, temperature, maxTokens))
      case Success(deltas) => r == Success(Streamed(YieldedDeltas(deltas)))
      case Failure(e) => r == Failure(e)
  {
    if svc.client.None? {
      return Failure(NotConfigured);
    }
    var kwargs := Kwargs(svc.model, messages, temperature, stream, None);
    if maxTokens.Some? && maxTokens.value != 0 {
      kwargs := kwargs.(maxTokens := maxTokens);
    }
    if stream {
      var response := createStream(kwargs);
      match response {
        case Failure(e) => return Failure(e);
        case Success(deltas) =>
          var chunks := StreamChunks(deltas);
          return Success(Streamed(chunks));
      }
    } else {
      var response := create(kwargs);
      match response {
        case Failure(e) => return Failure(e);
        case Success(c) =>
          return Success(Complete(ChatResult(c.content, c.model,
                                             Usage(c.usage.promptTokens, c.usage.completionTokens, c.usage.totalTokens))));
      }
    }
  }

  const DocumentSystemPrompt: string := "Você é um assistente especializado em análise de documentos. Analise o documento fornecido e responda às perguntas de forma clara e objetiva."
  const ReviewSystemPrompt: string := "Você é um revisor de código experiente. Analise o código fornecido e forneça feedback sobre qualidade, segurança, performance e melhores práticas."
  const DataSystemPrompt: string := "Você é um analista de dados especializado. Analise os dados fornecidos e forneça insights relevantes, estatísticas e visualizações quando apropriado."

  /** The user message of `analyze_document`. */
  function DocumentPrompt(document: string, query: string): string {
    "Documento:\n" + document + "\n\nPergunta: " + query
  }

  /** The system message of `generate_code`, naming the language. */
  function CodeSystemPrompt(language: string): string {
    "Você é um assistente especializado em programação. Gere código " + language + " limpo, bem documentado e seguindo as melhores práticas."
  }

  /** The user message of `review_code`: the code in a fence tagged with the language. */
  function ReviewPrompt(code: string, language: string): string {
    "Linguagem: " + language + "\n\nCódigo:\n```" + language + "\n" + code + "\n```"
  }

  /** The user message of `analyze_data`. */
  function DataPrompt(data: string, query: string): string {
    "Dados:\n" + data + "\n\nAnálise solicitada: " + query
  }

  /** Each template carries its inputs verbatim at fixed offsets, so they can be read back. */
  lemma TemplatesCarryInputs(text: string, query: string, language: string)
    ensures var p := DocumentPrompt(text, query);
      p[11..11 + |text|] == text && p[|p| - |query|..] == query
    ensures var p := CodeSystemPrompt(language);
      p[63..63 + |language|] == language
    ensures var p := ReviewPrompt(text, language);
      && p[11..11 + |language|] == language
      && p[|p| - 4 - |text|..|p| - 4] == text
      && p[|p| - 4..] == "\n```"
    ensures var p := DataPrompt(text, query);
      p[7..7 + |text|] == text && p[|p| - |query|..] == query
  {
  }

  /** The two messages of `analyze_document`. */
  function AnalyzeDocumentMessages(document: string, query: string): seq<WireMessage> {
    [SystemMessage(DocumentSystemPrompt), WireMessage("user", DocumentPrompt(document, query))]
  }

  /** The two messages of `generate_code`: the description is sent verbatim. */
  function GenerateCodeMessages(description: string, language: string): seq<WireMessage> {
    [SystemMessage(CodeSystemPrompt(language)), WireMessage("user", description)]
  }

  function ReviewCodeMessages(code: string, language: string): seq<WireMessage> {
    [SystemMessage(ReviewSystemPrompt), WireMessage("user", ReviewPrompt(code, language))]
  }

  function AnalyzeDataMessages(data: string, query: string): seq<WireMessage> {
    [SystemMessage(DataSystemPrompt), WireMessage("user", DataPrompt(data, query))]
  }

  /** What every template call hands to the completion call: a non-streamed request with the
      default temperature and no `max_tokens`. */
  function TemplateKwargs(svc: Service, messages: seq<WireMessage>): (k: Kwargs)
    ensures k == KwargsFor(svc, messages, false, DefaultTemperature, None)
    ensures !k.stream && k.maxTokens.None?
  {
    Kwargs(svc.model, messages, DefaultTemperature, false, None)
  }

  /** `analyze_document`: `chat` on the two messages with the defaults. */
  method AnalyzeDocument(svc: Service, document: string, query: string,
                         create: Kwargs -> Result<Completion>,
                         createStream: Kwargs -> Result<seq<Option<string>>>)
    returns (r: Result<ChatOutcome>)
    ensures svc.client.None? ==> r == Failure(NotConfigured)
    ensures svc.client.Some? ==>
      match create(TemplateKwargs(svc, AnalyzeDocumentMessages(document, query)))
      case Success(c) => r == Success(Complete(ChatResult(c.content, c.model, c.usage)))
      case Failure(e) => r == Failure(e)
  {
    r := Chat(svc, AnalyzeDocumentMessages(document, query), false, DefaultTemperature, None, create, createStream);
  }

  /** `generate_code`, with the language defaulting to "python". */
  method GenerateCode(svc: Service, description: string,
                      create: Kwargs -> Result<Completion>,
                      createStream: Kwargs -> Result<seq<Option<string>>>,
                      language: string := "python")
    returns (r: Result<ChatOutcome>)
    ensures svc.client.None? ==> r == Failure(NotConfigured)
    ensures svc.client.Some? ==>
      match create(TemplateKwargs(svc, GenerateCodeMessages(description, language)))
      case Success(c) => r == Success(Complete(ChatResult(c.content, c.model, c.usage)))
      case Failure(e) => r == Failure(e)
  {
    r := Chat(svc, GenerateCodeMessages(description, language), false, DefaultTemperature, None, create, createStream);
  }

  /** `review_code`, with the language defaulting to "python". */
  method ReviewCode(svc: Service, code: string,
                    create: Kwargs -> Result<Completion>,
                    createStream: Kwargs -> Result<seq<Option<string>>>,
                    language: string := "python")
    returns (r: Result<ChatOutcome>)
    ensures svc.client.None? ==> r == Failure(NotConfigured)
    ensures svc.client.Some? ==>
      match create(TemplateKwargs(svc, ReviewCodeMessages(code, language)))
      case Success(c) => r == Success(Complete(ChatResult(c.content, c.model, c.usage)))
      case Failure(e) => r == Failure(e)
  {
    r := Chat(svc, ReviewCodeMessages(code, language), false, DefaultTemperature, None, create, createStream);
  }

  /** `analyze_data`. */
  method AnalyzeData(svc: Service, data: string, query: string,
                     create: Kwargs -> Result<Completion>,
                     createStream: Kwargs -> Result<seq<Option<string>>>)
    returns (r: Result<ChatOutcome>)
    ensures svc.client.None? ==> r == Failure(NotConfigured)
    ensures svc.client.Some? ==>
      match create(TemplateKwargs(svc, AnalyzeDataMessages(data, query)))
      case Success(c) => r == Success(Complete(ChatResult(c.content, c.model, c.usage)))
      case Failure(e) => r == Failure(e)
  {
    r := Chat(svc, AnalyzeDataMessages(data, query), false, DefaultTemperature, None, create, createStream);
  }
}
