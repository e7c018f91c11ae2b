/** The provider registry: a lazily filled cache keyed by lower-cased name, and the
    availability listing. */
module Factory {
  import opened Wrappers
  import opened Settings
  import OpenAI
  import Anthropic
  import Bedrock
  import Ollama

  /** An instance of one of the four providers. */
  datatype AnyProvider =
    | OpenAIProvider(openai: OpenAI.Provider)
    | AnthropicProvider(anthropic: Anthropic.Provider)
    | BedrockProvider(bedrock: Bedrock.Provider)
    | OllamaProvider(ollama: Ollama.Provider)

  /** `is_available()` of any provider; `probe` is what the local daemon's probe returns. */
  function IsAvailable(p: AnyProvider, probe: Ollama.TagsProbe): bool {
    match p
    case OpenAIProvider(q) => OpenAI.IsAvailable(q)
    case AnthropicProvider(q) => Anthropic.IsAvailable(q)
    case BedrockProvider(q) => Bedrock.IsAvailable(q)
    case OllamaProvider(_) => Ollama.IsAvailable(probe)
  }

  /** The name a provider gives its base class. */
  function ProviderName(p: AnyProvider): string {
    match p
    case OpenAIProvider(q) => q.base.providerName
    case AnthropicProvider(q) => q.base.providerName
    case BedrockProvider(q) => q.base.providerName
    case OllamaProvider(q) => q.base.providerName
  }

  /** `str.lower()` on one character (ASCII letters only). */
  function LowerChar(c: char): char {
    if 'A' <= c <= 'Z' then (c as int + 32) as char else c
  }

  /** `str.lower()`. */
  function Lower(s: string): (r: string)
    ensures |r| == |s|
    ensures forall i :: 0 <= i < |s| ==> r[i] == LowerChar(s[i])
  {
    seq(|s|, i requires 0 <= i < |s| => LowerChar(s[i]))
  }

  /** Lower-casing twice is lower-casing once, so a name and its lower-cased form select the
      same cache key. */
  lemma LowerIdempotent(s: string)
    ensures Lower(Lower(s)) == Lower(s)
  {
  }

  /** The names the lookup recognises. */
  const KnownNames: set<string> := {"openai", "anthropic", "aws_bedrock", "bedrock", "ollama"}

  /** The `if/elif` chain of `get_provider`: the provider a cache key constructs, None for an
      unrecognised key. */
  function Construct(key: string, cfg: Config): (p: Option<AnyProvider>)
    ensures p.Some? <==> key in KnownNames
  {
    if key == "openai" then Some(OpenAIProvider(OpenAI.New(cfg)))
    else if key == "anthropic" then Some(AnthropicProvider(Anthropic.New(cfg)))
    else if key == "aws_bedrock" || key == "bedrock" then Some(BedrockProvider(Bedrock.New(cfg)))
    else if key == "ollama" then Some(OllamaProvider(Ollama.New(cfg)))
    else None
  }

  /** Both Bedrock aliases construct the Bedrock provider; the listing's own name for it does not. */
  lemma BedrockAliases(cfg: Config)
    ensures Construct("aws_bedrock", cfg) == Some(BedrockProvider(Bedrock.New(cfg)))
    ensures Construct("bedrock", cfg) == Some(BedrockProvider(Bedrock.New(cfg)))
    ensures Construct(Lower("AWS_Bedrock"), cfg) == Some(BedrockProvider(Bedrock.New(cfg)))
    ensures Lower("AWS Bedrock") == "aws bedrock" && Construct(Lower("AWS Bedrock"), cfg) == None
  {
  }

  /** The process-wide cache of provider instances, as an explicit object. */
  class ProviderFactory {
    const cfg: Config
    var providers: map<string, AnyProvider>

    /** Every cached entry is the provider its key constructs. */
    ghost predicate Valid()
      reads this
    {
      forall k :: k in providers ==> Construct(k, cfg) == Some(providers[k])
    }

    constructor (cfg: Config)
      ensures Valid()
      ensures this.cfg == cfg && providers == map[]
    {
      this.cfg := cfg;
      providers := map[];
    }

    /** `get_provider`: the cached instance under the lower-cased name, constructed and cached on
        first use; None for an unrecognised name, which leaves the cache unchanged. An existing
        entry is never replaced, and nothing is removed. */
    method GetProvider(name: string) returns (p: Option<AnyProvider>)
      requires Valid()
      modifies this
      ensures Valid()
      ensures p == Construct(Lower(name), cfg)
      ensures Lower(name) in old(providers) ==> p == Some(old(providers)[Lower(name)])
      ensures Lower(name) in old(providers) || p.None? ==> providers == old(providers)
      ensures Lower(name) !in old(providers) && p.Some? ==> providers == old(providers)[Lower(name) := p.value]
      ensures forall k :: k in old(providers) ==> k in providers && providers[k] == old(providers)[k]
    {
      var key := Lower(name);
      if key !in providers {
        if key == "openai" {
          providers := providers[key := OpenAIProvider(OpenAI.New(cfg))];
        } else if key == "anthropic" {
          providers := providers[key := AnthropicProvider(Anthropic.New(cfg))];
        } else if key == "aws_bedrock" || key == "bedrock" {
          providers := providers[key := BedrockProvider(Bedrock.New(cfg))];
        } else if key == "ollama" {
          providers := providers[key := OllamaProvider(Ollama.New(cfg))];
        } else {
          return None;
        }
      }
      p := Some(providers[key]);
    }
  }

  /** A client of the registry: a second lookup of the same name, in any letter case, returns
      the instance cached by the first and adds nothing. */
  method LookupTwice(f: ProviderFactory, name: string) returns (first: Option<AnyProvider>, second: Option<AnyProvider>)
    requires f.Valid()
    modifies f
    ensures first == second
    ensures first.Some? ==> Lower(name) in f.providers && f.providers[Lower(name)] == first.value
  {
    first := f.GetProvider(name);
    ghost var cached := f.providers;
    LowerIdempotent(name);
    second := f.GetProvider(Lower(name));
    assert f.providers == cached;
  }

  /** The fresh instances `get_available_providers` builds, under their display names. */
  function Listing(cfg: Config): (r: seq<(string, AnyProvider)>)
    ensures |r| == 4
    ensures forall i :: 0 <= i < |r| ==> ProviderName(r[i].1) == r[i].0
    ensures forall i, j :: 0 <= i < j < |r| ==> r[i].0 != r[j].0
  {
    [("OpenAI", OpenAIProvider(OpenAI.New(cfg))),
     ("Anthropic", AnthropicProvider(Anthropic.New(cfg))),
     ("AWS Bedrock", BedrockProvider(Bedrock.New(cfg))),
     ("Ollama", OllamaProvider(Ollama.New(cfg)))]
  }

  /** `get_available_providers`: the four display names in order, each with what its
      credentials, or for the local daemon the probe, say about availability. */
  function AvailableProviders(cfg: Config, probe: Ollama.TagsProbe): (r: seq<(string, bool)>)
    ensures |r| == 4
    ensures r[0] == ("OpenAI", Truthy(cfg.openaiApiKey))
    ensures r[1] == ("Anthropic", Truthy(cfg.anthropicApiKey))
    ensures r[2] == ("AWS Bedrock", Truthy(cfg.awsAccessKeyId) && Truthy(cfg.awsSecretAccessKey))
    ensures r[3] == ("Ollama", probe.Replied? && probe.status == 200)
  {
    var listing := Listing(cfg);
    seq(|listing|, i requires 0 <= i < |listing| => (listing[i].0, IsAvailable(listing[i].1, probe)))
  }

  /** `get_provider_list`: the names whose value is true, in order. */
  function ProviderList(available: seq<(string, bool)>): (names: seq<string>)
    ensures |names| <= |available|
    ensures forall n :: n in names <==> exists i :: 0 <= i < |available| && available[i] == (n, true)
    decreases |available|
  {
    if available == [] then []
    else
      var rest := ProviderList(available[1..]);
      assert forall n :: (exists i :: 1 <= i < |available| && available[i] == (n, true)) ==>
                         (exists i :: 0 <= i < |available[1..]| && available[1..][i] == (n, true)) by {
        forall n | exists i :: 1 <= i < |available| && available[i] == (n, true)
          ensures exists i :: 0 <= i < |available[1..]| && available[1..][i] == (n, true)
        {
          var i :| 1 <= i < |available| && available[i] == (n, true);
          assert available[1..][i - 1] == (n, true);
        }
      }
      if available[0].1 then [available[0].0] + rest else rest
  }

  /** Filtering keeps order: the list of a concatenation is the concatenation of the lists. */
  lemma {:induction false} ProviderListAppend(a: seq<(string, bool)>, b: seq<(string, bool)>)
    ensures ProviderList(a + b) == ProviderList(a) + ProviderList(b)
    decreases |a|
  {
    if a == [] {
      assert a + b == b;
    } else {
      assert (a + b)[1..] == a[1..] + b;
      ProviderListAppend(a[1..], b);
    }
  }

  /** Each listed provider is available exactly when its credentials are set and non-empty, or
      for the local daemon when the probe answers 200. */
  lemma ListedAvailability(cfg: Config, probe: Ollama.TagsProbe)
    ensures IsAvailable(Listing(cfg)[0].1, probe) <==> Truthy(cfg.openaiApiKey)
    ensures IsAvailable(Listing(cfg)[1].1, probe) <==> Truthy(cfg.anthropicApiKey)
    ensures IsAvailable(Listing(cfg)[2].1, probe) <==> Truthy(cfg.awsAccessKeyId) && Truthy(cfg.awsSecretAccessKey)
    ensures IsAvailable(Listing(cfg)[3].1, probe) <==> probe.Replied? && probe.status == 200
  {
  }

  /** The selectable providers are exactly the configured ones. */
  lemma ProviderListMatchesConfig(cfg: Config, probe: Ollama.TagsProbe)
    ensures var names := ProviderList(AvailableProviders(cfg, probe));
      && ("OpenAI" in names <==> Truthy(cfg.openaiApiKey))
      && ("Anthropic" in names <==> Truthy(cfg.anthropicApiKey))
      && ("AWS Bedrock" in names <==> Truthy(cfg.awsAccessKeyId) && Truthy(cfg.awsSecretAccessKey))
      && ("Ollama" in names <==> Ollama.IsAvailable(probe))
  {
  }

  /** The display name under which the listing offers a provider is not a name `get_provider`
      recognises: "AWS Bedrock" is listed, lower-cases to "aws bedrock", and looks up nothing. */
  lemma ListedBedrockNameNotFound(cfg: Config, probe: Ollama.TagsProbe)
    ensures AvailableProviders(cfg, probe)[2].0 == "AWS Bedrock"
    ensures Construct(Lower(AvailableProviders(cfg, probe)[2].0), cfg) == None
  {
    BedrockAliases(cfg);
  }

  /** The lookup with the listing's Bedrock name accepted as a third alias. */
  function ConstructListed(key: string, cfg: Config): (p: Option<AnyProvider>)
    ensures key in KnownNames ==> p == Construct(key, cfg)
    ensures p.Some? <==> key in KnownNames || key == "aws bedrock"
  {
    if key == "aws bedrock" then Some(BedrockProvider(Bedrock.New(cfg))) else Construct(key, cfg)
  }

  /** With the corrected lookup, every display name of the listing selects the very provider
      listed under it. */
  lemma ListedNamesResolve(cfg: Config)
    ensures forall i :: 0 <= i < |Listing(cfg)| ==>
              ConstructListed(Lower(Listing(cfg)[i].0), cfg) == Some(Listing(cfg)[i].1)
  {
  }
}
