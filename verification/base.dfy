/** The shared value model of every provider: task types, messages and the system-prompt table. */
module Base {
  import opened Wrappers

  /** The closed set of task types; each carries the string value the history file stores. */
  datatype ModelType = CodeReview | TextCompletion | Summarization | SpeechToText | ImageCreation
  {
    function Value(): string {
      match this
      case CodeReview => "code-review"
      case TextCompletion => "text-completion"
      case Summarization => "summarization"
      case SpeechToText => "speech-to-text"
      case ImageCreation => "image-creation"
    }
  }

  /** The members in declaration order. */
  const AllModelTypes: seq<ModelType> :=
    [CodeReview, TextCompletion, Summarization, SpeechToText, ImageCreation]

  /** The enumeration has exactly five members, each with a value of its own. */
  lemma AllModelTypesListed()
    ensures |AllModelTypes| == 5
    ensures forall t: ModelType :: t in AllModelTypes
    ensures forall i, j :: 0 <= i < j < |AllModelTypes| ==>
              AllModelTypes[i].Value() != AllModelTypes[j].Value()
  {
    forall t: ModelType ensures t in AllModelTypes {
      match t
      case CodeReview => assert AllModelTypes[0] == t;
      case TextCompletion => assert AllModelTypes[1] == t;
      case Summarization => assert AllModelTypes[2] == t;
      case SpeechToText => assert AllModelTypes[3] == t;
      case ImageCreation => assert AllModelTypes[4] == t;
    }
  }

  /** Lookup by value, as `ModelType(value)` does when a stored interaction is reopened. */
  function FromValue(s: string): (t: Option<ModelType>)
    ensures t.Some? ==> t.value.Value() == s
    ensures t.None? ==> forall m: ModelType :: m.Value() != s
  {
    if s == "code-review" then Some(CodeReview)
    else if s == "text-completion" then Some(TextCompletion)
    else if s == "summarization" then Some(Summarization)
    else if s == "speech-to-text" then Some(SpeechToText)
    else if s == "image-creation" then Some(ImageCreation)
    else None
  }

  /** Storing a task type by its value and looking it up again gives the same task type. */
  lemma ValueRoundTrip(t: ModelType)
    ensures FromValue(t.Value()) == Some(t)
  {
  }

  /** One conversational turn; the fields are kept exactly as given. */
  datatype Message = Message(role: string, content: string)

  /** The fallback of the prompt lookup. */
  const DefaultSystemPrompt: string := "You are a helpful AI assistant."

  const CodeReviewPrompt: string := "You are an expert code reviewer. Provide detailed feedback, suggestions, and improvements for the code provided. Focus on best practices, performance, security, and maintainability."
  const TextCompletionPrompt: string := "You are a helpful AI assistant that completes text in a coherent and contextually appropriate manner."
  const SummarizationPrompt: string := "You are an expert at summarizing content. Provide concise, accurate summaries that capture the key points and main ideas."
  const SpeechToTextPrompt: string := "You are a speech-to-text transcription expert."
  const ImageCreationPrompt: string := "You are an image generation assistant."

  /** The table every provider fills in at construction. */
  function PromptTable(): map<ModelType, string> {
    map[
      CodeReview := CodeReviewPrompt,
      TextCompletion := TextCompletionPrompt,
      Summarization := SummarizationPrompt,
      SpeechToText := SpeechToTextPrompt,
      ImageCreation := ImageCreationPrompt
    ]
  }

  /** The table has an entry for every task type. */
  lemma PromptTableTotal()
    ensures forall t: ModelType :: t in PromptTable()
  {
    forall t: ModelType ensures t in PromptTable() {
      match t
      case CodeReview =>
      case TextCompletion =>
      case Summarization =>
      case SpeechToText =>
      case ImageCreation =>
    }
  }

  /** The state every provider inherits: its display name and its prompt table. */
  datatype BaseProvider = BaseProvider(providerName: string, systemPrompts: map<ModelType, string>)
  {
    /** The table entry for `t`, or the default prompt when the table has none. */
    function GetSystemPrompt(t: ModelType): (p: string)
      ensures t in systemPrompts ==> p == systemPrompts[t]
      ensures t !in systemPrompts ==> p == DefaultSystemPrompt
    {
      if t in systemPrompts then systemPrompts[t] else DefaultSystemPrompt
    }
  }

  /** The base constructor: keeps the name and installs a table with an entry for every task type. */
  function NewBaseProvider(providerName: string): (b: BaseProvider)
    ensures b.providerName == providerName
    ensures forall t: ModelType :: t in b.systemPrompts
    ensures b.systemPrompts == PromptTable()
  {
    PromptTableTotal();
    BaseProvider(providerName, PromptTable())
  }

  /** A constructed provider never falls back to the default prompt, and the five prompts differ,
      so the system prompt of a request identifies its task type. */
  lemma SystemPromptIdentifiesType(name: string, t1: ModelType, t2: ModelType)
    ensures NewBaseProvider(name).GetSystemPrompt(t1) == PromptTable()[t1]
    ensures NewBaseProvider(name).GetSystemPrompt(t1) != DefaultSystemPrompt
    ensures NewBaseProvider(name).GetSystemPrompt(t1) == NewBaseProvider(name).GetSystemPrompt(t2) ==> t1 == t2
  {
  }
}
