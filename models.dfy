/** The records and enumerations the backend exchanges (backend/models.py).
    Timestamps are abstract clock readings (`nat`); temperatures are carried as
    opaque `real` values whose bounds are not modelled. */
module Models {
  import opened Wrappers

  /** Which web-search backend a request selects. */
  datatype SearchProvider = SearXNG | Brave | DuckDuckGo {
    function Value(): string {
      match this
      case SearXNG => "searxng"
      case Brave => "brave"
      case DuckDuckGo => "duckduckgo"
    }
  }

  /** The author of a chat message. */
  datatype MessageRole = User | Assistant | System {
    function Value(): string {
      match this
      case User => "user"
      case Assistant => "assistant"
      case System => "system"
    }
  }

  /** The kinds of OpenAI-compatible endpoints a provider entry can describe. */
  datatype APIProviderType =
    | OpenAI | Anthropic | Ollama | Groq | Together | Mistral | OpenRouter | XAI | Custom
  {
    function Value(): string {
      match this
      case OpenAI => "openai"
      case Anthropic => "anthropic"
      case Ollama => "ollama"
      case Groq => "groq"
      case Together => "together"
      case Mistral => "mistral"
      case OpenRouter => "openrouter"
      case XAI => "xai"
      case Custom => "custom"
    }
  }

  /** Validation of a `SearchProvider` field: exactly the three enumeration values are accepted. */
  function ParseSearchProvider(s: string): (r: Option<SearchProvider>)
    ensures r.Some? ==> r.value.Value() == s
    ensures r.None? ==> s != SearXNG.Value() && s != Brave.Value() && s != DuckDuckGo.Value()
  {
    if s == "searxng" then Some(SearXNG)
    else if s == "brave" then Some(Brave)
    else if s == "duckduckgo" then Some(DuckDuckGo)
    else None
  }

  /** Validation of a `MessageRole` field: exactly user, assistant and system are accepted. */
  function ParseMessageRole(s: string): (r: Option<MessageRole>)
    ensures r.Some? ==> r.value.Value() == s
    ensures r.None? ==> s != User.Value() && s != Assistant.Value() && s != System.Value()
  {
    if s == "user" then Some(User)
    else if s == "assistant" then Some(Assistant)
    else if s == "system" then Some(System)
    else None
  }

  /** Validation of an `APIProviderType` field: exactly the nine enumeration values are accepted. */
  function ParseAPIProviderType(s: string): (r: Option<APIProviderType>)
    ensures r.Some? ==> r.value.Value() == s
    ensures r.None? ==> forall t: APIProviderType :: t.Value() != s
  {
    if s == "openai" then Some(OpenAI)
    else if s == "anthropic" then Some(Anthropic)
    else if s == "ollama" then Some(Ollama)
    else if s == "groq" then Some(Groq)
    else if s == "together" then Some(Together)
    else if s == "mistral" then Some(Mistral)
    else if s == "openrouter" then Some(OpenRouter)
    else if s == "xai" then Some(XAI)
    else if s == "custom" then Some(Custom)
    else None
  }

  /** Each enumeration value survives a round trip through its wire string, so the
      wire strings of distinct values differ. */
  lemma EnumRoundTrip(p: SearchProvider, r: MessageRole, t: APIProviderType)
    ensures ParseSearchProvider(p.Value()) == Some(p)
    ensures ParseMessageRole(r.Value()) == Some(r)
    ensures ParseAPIProviderType(t.Value()) == Some(t)
  {
  }

  /** A search hit as the search providers return it: title, url and snippet, each
      defaulting to "" when the provider omits it. */
  datatype Source = Source(title: string, url: string, snippet: string)

  datatype ChatMessage = ChatMessage(
    id: string,
    role: MessageRole,
    content: string,
    sources: Option<seq<Source>>,
    tokenCount: Option<int>)

  datatype ChatSession = ChatSession(
    id: string,
    name: string,
    model: string,
    messages: seq<ChatMessage>,
    createdAt: nat,
    updatedAt: nat,
    temperature: real,
    maxTokens: int,
    systemPrompt: string,
    totalTokensUsed: int)

  const DefaultSystemPrompt: string := "You are a helpful AI assistant."
  const DefaultMaxTokens: int := 2048

  /** A session built from its required fields only: every other field takes the
      declared default. */
  function NewChatSession(id: string, name: string, model: string, now: nat): (s: ChatSession)
    ensures s.id == id && s.name == name && s.model == model
    ensures s.messages == [] && s.totalTokensUsed == 0
    ensures s.maxTokens == 2048 && s.systemPrompt == "You are a helpful AI assistant."
    ensures s.temperature == 0.7
  {
    ChatSession(id, name, model, [], now, now, 0.7, DefaultMaxTokens, DefaultSystemPrompt, 0)
  }

  /** The only bound the model keeps from `LLMParameters`: `max_tokens` lies in 1..32000. */
  type LLMMaxTokens = n: int | 1 <= n <= 32000 witness 2048

  datatype LLMParameters = LLMParameters(maxTokens: LLMMaxTokens, systemPrompt: string)

  /** Field validation of an `LLMParameters` record. */
  function NewLLMParameters(maxTokens: int, systemPrompt: string): (r: Option<LLMParameters>)
    ensures r.Some? <==> 1 <= maxTokens <= 32000
    ensures r.Some? ==> r.value.maxTokens == maxTokens && r.value.systemPrompt == systemPrompt
  {
    if 1 <= maxTokens <= 32000 then Some(LLMParameters(maxTokens, systemPrompt)) else None
  }

  datatype PromptPreset = PromptPreset(
    id: string,
    name: string,
    description: string,
    systemPrompt: string,
    temperature: real,
    maxTokens: int,
    icon: string,
    category: string)

  datatype APIProvider = APIProvider(
    id: string,
    name: string,
    providerType: APIProviderType,
    apiBase: string,
    apiKey: string,
    enabled: bool,
    models: seq<string>)

  /** A provider built from its required fields only. */
  function NewAPIProvider(id: string, name: string, providerType: APIProviderType, apiBase: string): (p: APIProvider)
    ensures p.enabled && p.apiKey == "" && p.models == []
    ensures p.id == id && p.name == name && p.providerType == providerType && p.apiBase == apiBase
  {
    APIProvider(id, name, providerType, apiBase, "", true, [])
  }

  datatype DeepResearchRequest = DeepResearchRequest(
    query: string,
    maxIterations: int,
    searchProvider: SearchProvider)

  /** A research request from its JSON fields: `max_iterations` defaults to 5 and is
      not bounded below; the search provider defaults to DuckDuckGo. */
  function NewDeepResearchRequest(query: string, maxIterations: Option<int>, provider: Option<SearchProvider>)
    : (r: DeepResearchRequest)
    ensures maxIterations.None? ==> r.maxIterations == 5
    ensures maxIterations.Some? ==> r.maxIterations == maxIterations.value
    ensures provider.None? ==> r.searchProvider == DuckDuckGo
    ensures provider.Some? ==> r.searchProvider == provider.value
  {
    DeepResearchRequest(query, maxIterations.GetOr(5), provider.GetOr(DuckDuckGo))
  }
}
