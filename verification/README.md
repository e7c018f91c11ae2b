# Multi-provider LLM portal core, modelled in Dafny

This project models the core of a small portal that lets a user chat with one of four
large-language-model backends and keeps the last conversations in a local file. It covers:

- **the provider layer**: the task types (`ModelType`) and their system-prompt table, and the four
  providers: a cloud completion API (OpenAI), a cloud messages API (Anthropic), a managed gateway
  (AWS Bedrock) and a local daemon (Ollama). For each provider the model covers how availability is
  decided, the order of the checks in `chat_completion`, the image branch or the fixed refusal,
  the request each provider builds, how the reply is normalised to `{content, image_url?}`, and
  `list_models`;
- **the provider registry**: the lazily filled cache keyed by the lower-cased name, the
  availability listing and the list of selectable names;
- **the history store**: a newest-first list of interactions kept in a backing file and cut to a
  configured maximum;
- **the chat service**: the single-backend service behind the HTTP front end, with the kwargs it
  builds, its stream filter and its four prompt templates.

Calls into vendor SDKs and HTTP endpoints are function-typed parameters. Each one stands for an
opaque oracle from the request the code builds to the vendor's answer or error. The tags probe of
the local daemon is a value of type `Ollama.TagsProbe`. The clock's timestamp is a `now`
parameter. Whether the history file can be opened for writing is a `writable` parameter.

Files and modules, one per source file:

| file | module | source |
|---|---|---|
| base.dfy | `Base` | providers/base.py |
| wire.dfy | `Wire` | the message conversion, token budget and text-block join that every provider repeats |
| openai_provider.dfy | `OpenAI` | providers/openai_provider.py |
| anthropic_provider.dfy | `Anthropic` | providers/anthropic_provider.py |
| bedrock_provider.dfy | `Bedrock` | providers/bedrock_provider.py |
| ollama_provider.dfy | `Ollama` | providers/ollama_provider.py |
| provider_factory.dfy | `Factory` | utils/provider_factory.py |
| history.dfy | `History` | utils/history.py |
| llm_service.dfy | `LLMService` | llm_service.py |
| settings.dfy, wrappers.dfy | `Settings`, `Wrappers` | the configuration values the constructors read; Option/Result |

Providers never change after construction, so each one is a datatype. The registry cache and the
history manager are updated in place, so each is a class with a mutable field (`providers`, a
`map`; `file`, the backing store). Their methods carry `modifies` clauses. A raised `ValueError`
is `Failure(message)`, with the source's message text.

The model follows the code on these points:

- Not every provider wraps vendor errors. OpenAI and Anthropic let the SDK's exception through
  unchanged. Only Bedrock (`"Erro ao chamar AWS Bedrock: "`) and Ollama
  (`"Erro ao chamar Ollama: "`) add a prefix to the message.
- A credential counts as set by Python truthiness (`if key:`). A key set to the empty string
  leaves a provider without a client, so it is unavailable.
- Only Ollama and OpenAI put the system prompt into the message list. Anthropic and Bedrock send it
  in a separate `system` field.
- Constructing the Ollama provider does not probe the daemon. Only `is_available` and
  `list_models` do.
- The history is cut with Python's slice `[:max_history]`. A maximum of 0 stores nothing, not
  even the new record. A negative maximum drops that many records from the end. The stored list
  is therefore bounded by the maximum only when the maximum is non-negative.

## Model

| member | source | states |
|---|---|---|
| `Base.AllModelTypesListed` | providers/base.py:9-15 | the enumeration has exactly five members and their string values are pairwise distinct |
| `Base.FromValue` | providers/base.py:9-15 | lookup by value returns a member with that value, and None only when no member has it |
| `Base.ValueRoundTrip` | providers/base.py:9-15 | a task type stored by its value is found again by lookup on that value (the history keeps `model_type.value`) |
| `Base.PromptTableTotal` | providers/base.py:28-34 | the prompt table has an entry for every task type |
| `Base.NewBaseProvider` | providers/base.py:26-34 | the constructor keeps the provider name as given and installs a table defined for every task type |
| `Base.BaseProvider.GetSystemPrompt` | providers/base.py:66-68 | the table entry for the type, or "You are a helpful AI assistant." when the table lacks it |
| `Base.SystemPromptIdentifiesType` | providers/base.py:28-34 | a constructed provider never falls back to the default prompt, and different task types get different prompts |
| `Wire.Wired` | providers/anthropic_provider.py:41-46 | the converted list has the input's length, and each record copies the role and content of the message at the same index |
| `Wire.UnwiredWired` | providers/anthropic_provider.py:41-46 | the conversion loses nothing: the records give back exactly the messages |
| `Wire.AppendWired` | providers/openai_provider.py:54-59 | the append loop yields the initial records followed by every message converted, in order |
| `Wire.MaxTokens` | providers/openai_provider.py:62-64 | the budget is 1000 exactly for summarization and 2000 for every other type (the same rule is at anthropic_provider.py:49-51 and bedrock_provider.py:56-58) |
| `Wire.JoinedTextAppend` | providers/anthropic_provider.py:61-64 | joining text blocks distributes over concatenation of block lists, so the blocks are joined in order |
| `Wire.JoinedTextSkipsNonText` | providers/anthropic_provider.py:61-64 | blocks whose type is not "text" contribute nothing |
| `Wire.JoinedTextOfTextBlocks` | providers/bedrock_provider.py:77-80 | a reply of text blocks only is the in-order concatenation of their texts |
| `Wire.JoinTextBlocks` | providers/anthropic_provider.py:61-64 | the accumulation loop returns the joined text of all blocks (same loop at bedrock_provider.py:77-80) |
| `OpenAI.New` | providers/openai_provider.py:12-20 | a client exists, so the provider is available, exactly when the API key is non-empty; the name is "OpenAI" |
| `OpenAI.Availability` | providers/openai_provider.py:18-20 | `is_available` of a constructed provider is true exactly when the API key is set and non-empty |
| `OpenAI.ChatRequestShape` | providers/openai_provider.py:51-64 | the chat request has one record more than the input: the task type's system prompt first, then the messages unchanged and in order; the budget follows the summarization rule |
| `OpenAI.ChatCompletion` | providers/openai_provider.py:22-75 | unavailable means the "not configured" error before any other branch; an image request without messages fails with "Prompt necessário…"; otherwise the last message is the prompt of one 1024x1024 image and the reply is the caption plus the URL; the chat path returns only the content; vendor errors pass through |
| `OpenAI.ListModels` | providers/openai_provider.py:77-87 | seven distinct names, including the image model and the default chat model |
| `Anthropic.New` | providers/anthropic_provider.py:12-20 | available exactly when the API key is non-empty |
| `Anthropic.Availability` | providers/anthropic_provider.py:18-20 | `is_available` of a constructed provider is true exactly when the API key is set and non-empty |
| `Anthropic.RequestShape` | providers/anthropic_provider.py:38-58 | the system prompt goes in its own field, and the messages are the input's, same length and order |
| `Anthropic.ChatCompletion` | providers/anthropic_provider.py:22-68 | unavailable means the error before the image check; an image request gets the fixed refusal whatever the client would answer; otherwise the content is the joined text blocks of the reply |
| `Anthropic.ListModels` | providers/anthropic_provider.py:70-79 | six distinct names, including the default model |
| `Bedrock.New` | providers/bedrock_provider.py:13-26 | available exactly when both the access key and the secret key are non-empty |
| `Bedrock.Availability` | providers/bedrock_provider.py:24-26 | `is_available` of a constructed provider is true exactly when both the access key and the secret key are set and non-empty |
| `Bedrock.Formatted` | providers/bedrock_provider.py:46-53 | one formatted message per input message with the same role, whose text blocks join back to the original content |
| `Bedrock.FormatMessages` | providers/bedrock_provider.py:48-53 | the loop builds exactly the formatted list |
| `Bedrock.BodyShape` | providers/bedrock_provider.py:56-66 | the body carries version "bedrock-2023-05-31", the task type's prompt, the summarization budget rule and each message as a single typed text block, in order |
| `Bedrock.ReplyContent` | providers/bedrock_provider.py:77-80 | the reply text is the join of the `content` blocks (`Wire.JoinedText`): "" when the key is missing, and "" when no block has type "text" |
| `Bedrock.ChatCompletion` | providers/bedrock_provider.py:28-86 | unavailable means the error before the image check; an image request gets the fixed refusal; otherwise the content is the joined text blocks ("" without a `content` key), and any invoke or parse failure becomes "Erro ao chamar AWS Bedrock: " + message |
| `Bedrock.ListModels` | providers/bedrock_provider.py:88-99 | eight distinct identifiers |
| `Ollama.New` | providers/ollama_provider.py:12-14 | the constructor keeps the configured endpoint and model |
| `Ollama.IsAvailable` | providers/ollama_provider.py:16-22 | available exactly when the probe answered with status 200; an unreachable daemon is unavailable |
| `Ollama.PayloadShape` | providers/ollama_provider.py:40-58 | the payload is the system record followed by the messages unchanged and in order, not streamed, and has no token budget |
| `Ollama.ReplyContent` | providers/ollama_provider.py:68-71 | the content of the reply's message, or "" when either key is missing |
| `Ollama.ChatCompletion` | providers/ollama_provider.py:24-73 | an unreachable daemon gives the error even for image requests; an image request to an available daemon gets the refusal; a failed call becomes "Erro ao chamar Ollama: " + message |
| `Ollama.ListModels` | providers/ollama_provider.py:75-98 | with a 200 answer that parses, the daemon's names in order, each "" when missing; otherwise the fallback list |
| `Ollama.ListModelsCases` | providers/ollama_provider.py:84-98 | the fallback holds twelve distinct names including the default model; an unavailable daemon always gets it; an answer without `models` lists nothing |
| `Factory.Lower` | utils/provider_factory.py:25 | lower-casing keeps the length and lowers each character |
| `Factory.LowerIdempotent` | utils/provider_factory.py:25 | a name and its lower-cased form select the same cache key |
| `Factory.Construct` | utils/provider_factory.py:27-37 | a provider is constructed exactly for the five recognised keys; any other key gives None |
| `Factory.BedrockAliases` | utils/provider_factory.py:32-37 | "aws_bedrock" and "bedrock" (and "AWS_Bedrock" after lower-casing) construct the Bedrock provider, while "AWS Bedrock" lower-cases to "aws bedrock" and gives None |
| `Factory.ProviderFactory.constructor` | utils/provider_factory.py:17 | the cache starts empty |
| `Factory.ProviderFactory.GetProvider` | utils/provider_factory.py:20-39 | the result is what the lower-cased name constructs; a cached entry is returned as it is and the cache stays unchanged; an unrecognised name gives None and changes nothing; a new entry is only ever added, never replaced or removed |
| `Factory.LookupTwice` | utils/provider_factory.py:20-39 | a second lookup of a name, in any letter case, returns the instance the first one cached |
| `Factory.AvailableProviders` | utils/provider_factory.py:41-54 | exactly the keys OpenAI, Anthropic, AWS Bedrock and Ollama, in that order, each mapped to what its credentials or the daemon probe say; the registry cache is not involved |
| `Factory.Listing` | utils/provider_factory.py:44-50 | the listing has four entries with pairwise distinct keys, and each key is the name the listed provider gives its base class |
| `Factory.ListedAvailability` | utils/provider_factory.py:51-54 | `is_available` of each listed provider is true exactly when its credentials are set and non-empty, or for the local daemon when the probe answers 200 |
| `Factory.ProviderList` | utils/provider_factory.py:56-60 | a name is listed exactly when the listing maps it to true; the list is no longer than the listing |
| `Factory.ProviderListAppend` | utils/provider_factory.py:59-60 | the filter keeps the listing's order |
| `Factory.ProviderListMatchesConfig` | utils/provider_factory.py:41-60 | each provider is selectable exactly when it is configured (for Ollama, when the probe answers 200) |
| `Factory.ListedBedrockNameNotFound` | utils/provider_factory.py:44-50 | the listing's display name "AWS Bedrock" finds no provider in `get_provider` |
| `Factory.ConstructListed` | utils/provider_factory.py:27-37 | the lookup with "aws bedrock" accepted as a third Bedrock alias; it agrees with the original on every recognised key |
| `Factory.ListedNamesResolve` | utils/provider_factory.py:44-50 | with the corrected lookup, every display name of the listing selects the provider listed under it |
| `History.Load` | utils/history.py:18-27 | a missing or unreadable file reads as the empty list; otherwise the stored list |
| `History.SliceTo` | utils/history.py:63-64 | the cut is a prefix of the list: of length min(n, len) for n ≥ 0, and it drops -n elements from the end for n < 0 |
| `History.Added` | utils/history.py:57-64 | the list `add_interaction` stores has at most one more record than before, and holds only the new record and old records with a different id: nothing is invented and the replaced record is gone |
| `History.WithoutId` | utils/history.py:57-58 | the filtered list holds exactly the records whose id differs |
| `History.WithoutIdAppend` | utils/history.py:57-58 | the filter keeps the relative order of the surviving records |
| `History.WithoutIdAbsent` | utils/history.py:57-58 | filtering an id no record has changes nothing |
| `History.WithoutIdUnique` | utils/history.py:57-58 | filtering keeps ids unique |
| `History.WithoutIdRemovesOne` | utils/history.py:57-58 | with unique ids, filtering removes exactly the record with that id |
| `History.AddedHead` | utils/history.py:48-64 | with room for one record, the new record heads the stored list and no other record has its id |
| `History.AddedBounded` | utils/history.py:63-64 | the stored length is at most a non-negative maximum |
| `History.AddedUnique` | utils/history.py:57-64 | unique ids before an add stay unique after it |
| `History.AddedEvictsOldest` | utils/history.py:60-64 | adding a new id gives the new record followed by the newest max-1 old records: the oldest are evicted |
| `History.AddedReplaces` | utils/history.py:57-64 | with unique ids and the list within the maximum, adding an existing id moves its record to the front with the new contents, keeps the others in order, and keeps the length |
| `History.FirstIndex` | utils/history.py:72-78 | the index of the first record with the id, or the length when none has it |
| `History.Find` | utils/history.py:72-78 | `get_interaction` as a value: None exactly when no record has the id; otherwise the record at the first index holding the id |
| `History.FindAfterAdd` | utils/history.py:72-78 | after an add, looking its id up gives exactly the record just added |
| `History.HistoryManager.constructor` | utils/history.py:14-16 | keeps the configured maximum and the file |
| `History.HistoryManager.Save` | utils/history.py:29-35 | the file holds the new list, or is unchanged when it cannot be written |
| `History.HistoryManager.AddInteraction` | utils/history.py:37-66 | the file holds the new record followed by the old records without its id, in order, cut to the maximum; unique ids and the length bound are preserved |
| `History.HistoryManager.GetHistory` | utils/history.py:68-70 | returns what loading the file gives, empty for a missing or unreadable file |
| `History.HistoryManager.GetInteraction` | utils/history.py:72-78 | returns the first record with the id, and None exactly when no record has it |
| `History.HistoryManager.ClearHistory` | utils/history.py:80-82 | afterwards the file holds the empty list |
| `History.ClearThenGet` | utils/history.py:68-82 | clearing and then reading gives the empty list |
| `History.AddSameIdTwice` | utils/history.py:37-66 | adding id "a1" twice to an empty store leaves one record, with the later messages |
| `LLMService.New` | llm_service.py:11-14 | a client exists exactly when the key is non-empty; the model is "gpt-4-turbo-preview" |
| `LLMService.KwargsFor` | llm_service.py:38-46 | the kwargs always carry model, messages, temperature and stream; `max_tokens` is present exactly when it is truthy (None and 0 are omitted) |
| `LLMService.YieldedDeltasAppend` | llm_service.py:48-53 | the stream filter keeps arrival order |
| `LLMService.YieldedDeltas` | llm_service.py:48-53 | the stream yields at most one chunk per delta, and never an empty chunk |
| `LLMService.YieldedDeltasKeepText` | llm_service.py:48-53 | every yielded chunk is non-empty, and together the chunks spell the whole streamed text |
| `LLMService.StreamChunks` | llm_service.py:48-53 | the generator yields exactly the non-empty delta contents, in order |
| `LLMService.Chat` | llm_service.py:16-64 | no client gives "OpenAI API key not configured"; the non-streamed result copies the content, the model and the three token counts of the response; the streamed result is the filtered chunks |
| `LLMService.TemplatesCarryInputs` | llm_service.py:84-156 | each template carries its inputs verbatim at fixed offsets (document, query, language, fenced code, data) |
| `LLMService.TemplateKwargs` | llm_service.py:88 | the templates call `chat` non-streamed, with the default temperature and no `max_tokens` |
| `LLMService.AnalyzeDocument` | llm_service.py:66-88 | sends the system message and the "Documento:…Pergunta:" user message, and returns what `chat` returns |
| `LLMService.GenerateCode` | llm_service.py:90-112 | the language (default "python") goes into the system prompt and the description is sent verbatim |
| `LLMService.ReviewCode` | llm_service.py:114-136 | the user message names the language and fences the code with it |
| `LLMService.AnalyzeData` | llm_service.py:138-160 | sends the system message and the "Dados:…Análise solicitada:" user message |

## Findings

| source | as written | input that shows it | evidently intended | confidence | as-written member | corrected member |
|---|---|---|---|---|---|---|
| utils/provider_factory.py:44-50 | the listing names the Bedrock provider "AWS Bedrock", and the front end (app.py:47-60) hands the selected name to `get_provider`, which recognises only "aws_bedrock" and "bedrock" | selecting "AWS Bedrock": `"AWS Bedrock".lower()` is "aws bedrock", so `get_provider` returns None | every name the listing offers selects the provider listed under it | high (not executed) | `Factory.ListedBedrockNameNotFound` | `Factory.ListedNamesResolve` (over `Factory.ConstructListed`) |

The registry class `Factory.ProviderFactory` keeps the lookup as written (`Factory.Construct`).
The corrected lookup `Factory.ConstructListed` is what the listing's names need.

## Left out

- Vendor SDK and HTTP behaviour: the completion, messages, image, invoke and chat calls and the tags probe are oracles. The model says only what is sent to them and what is done with their answer.
- The interactive front end (app.py), the HTTP front end, the static UI script and the test file are not part of this model. Only the listing-to-lookup hand-off is reflected, in the finding above.
- config.py is not part of this model beyond the values the constructors read (`Settings.Config`). `Config.validate` tests `is not None`, while the providers test truthiness; the model follows the providers.
- JSON (de)serialisation of the history file: the file is `Missing`, `Unreadable` or a typed list of records. A file that parses but holds records without an `id` key would make `add_interaction` raise a KeyError; that is not modelled. Partial writes are not modelled either: a failed save leaves the file unchanged.
- History messages are modelled as role/content pairs. The extra keys the front end stores with them (timestamp, image URL) are not modelled.
- Timestamps and uuid ids are parameters. Concurrent read-modify-write races on the history file are not modelled, because the model is sequential.
- Exception classes are not distinguished. A failure carries only the message of the `ValueError` the code raises, or of the exception a vendor SDK raised.
- `Factory.Lower`: lowers ASCII letters only, not the full Unicode case mapping of `str.lower()`.
- The floating-point temperature is an opaque value (`LLMService.Temperature`), and the OpenAI provider's fixed temperature 0.7 is not part of `OpenAI.ChatRequest`.
- Contents that SDKs may return as null are not modelled: message content is a string, and a text block's text is a string or absent.
- `LLMService.Chat`: the streamed path is modelled as a whole result. Python raises the call's error lazily while the caller iterates, possibly after some chunks have been yielded; the model does not capture that.
- The `async` execution of the HTTP service, and the streamed response framing (`[DONE]` marker), are not modelled.
- `ModelType` members, `Message` and the provider records are plain Dafny datatypes. Their fields hold exactly what they were constructed with, so no member states it.
