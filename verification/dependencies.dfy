/** The process-wide state of utils/dependencies.py: the Hugging Face client
    handle, the chat-model handle and the per-user conversation map, with
    their initialisation at startup, their accessors and their cleanup at
    shutdown. Client construction is reduced to the values the handles are
    built from; a constructor that raises is the oracle `buildFault`. */
module Dependencies {
  import opened Errors
  import Config
  import opened ChatUtils

  datatype HfClient = HfClient(token: string, timeout: int)

  /** The LangChain chat-model classes the initialisation chooses from. */
  datatype LlmFamily = GoogleGenerativeAI | OpenAI | Anthropic

  datatype LlmClient = LlmClient(family: LlmFamily, model: string, maxTokens: int, apiKey: string)

  /** The module globals `_hf_client`, `_llm_chain`, `_conversation_memory`. */
  datatype Deps = Deps(hfClient: Option<HfClient>, llm: Option<LlmClient>, conversations: map<string, History>)

  /** The globals as the module defines them on import. */
  const Unset: Deps := Deps(None, None, map[])

  const DefaultUserId: string := "default"
  const HfNotInitialised: string := "HuggingFace client not initialized"
  const LlmNotInitialised: string := "LLM not initialized"

  /** What Python 3.11 and later say when the `else` branch of
      `initialize_clients` reads `ChatOpenAI`: the name is local to the
      function, because the `openai` branch imports it, and nothing has
      bound it on the way to the `else` branch. */
  const UnboundChatOpenAI: string := "cannot access local variable 'ChatOpenAI' where it is not associated with a value"

  /** The provider names with a branch of their own. */
  const NamedProviders: set<string> := {"germini", "openai", "anthropic"}

  /** The provider selection AS WRITTEN: "germini", "openai" and "anthropic"
      pick their class; any other provider reaches the `else` branch, which
      raises `UnboundLocalError` instead of building an OpenAI model. */
  function SelectLlmFamilyAsWritten(provider: string): (r: Result<LlmFamily>)
    ensures r.Raise? <==> provider !in NamedProviders
    ensures r.Raise? ==> r.exc == Exc(UnboundLocalError, UnboundChatOpenAI)
    ensures provider == "openai" ==> r == Ok(OpenAI)
  {
    if provider == "germini" then Ok(GoogleGenerativeAI)
    else if provider == "openai" then Ok(OpenAI)
    else if provider == "anthropic" then Ok(Anthropic)
    else Raise(Exc(UnboundLocalError, UnboundChatOpenAI))
  }

  /** The provider selection as evidently intended: the `else` branch falls
      back to OpenAI, so selection never fails. */
  function SelectLlmFamily(provider: string): (r: LlmFamily)
    ensures r == GoogleGenerativeAI <==> provider == "germini"
    ensures r == Anthropic <==> provider == "anthropic"
    ensures provider !in NamedProviders ==> r == OpenAI
  {
    if provider == "germini" then GoogleGenerativeAI
    else if provider == "anthropic" then Anthropic
    else OpenAI
  }

  /** The two selections agree wherever the written one succeeds, and the
      written one fails exactly on providers outside the three named ones. */
  lemma SelectionAgreesOnNamedProviders(provider: string)
    ensures SelectLlmFamilyAsWritten(provider).Ok? <==> provider in NamedProviders
    ensures SelectLlmFamilyAsWritten(provider).Ok? ==> SelectLlmFamilyAsWritten(provider).value == SelectLlmFamily(provider)
  {
  }

  /** The discrepancy on a concrete input: "cohere" is a provider the settings
      accept, yet the written selection raises on it. */
  lemma CohereProviderFailsAsWritten()
    ensures Config.Valid(Config.Defaults.(llmProvider := "cohere"))
    ensures SelectLlmFamilyAsWritten("cohere") == Raise(Exc(UnboundLocalError, UnboundChatOpenAI))
    ensures SelectLlmFamily("cohere") == OpenAI
  {
  }

  /** The Google branch is unreachable from valid settings: "germini" is not a
      value the `llm_provider` field accepts. */
  lemma GoogleBranchUnreachable(s: Config.Settings)
    requires Config.Valid(s)
    ensures SelectLlmFamily(s.llmProvider) != GoogleGenerativeAI
    ensures SelectLlmFamilyAsWritten(s.llmProvider) != Ok(GoogleGenerativeAI)
  {
  }

  function NewHfClient(s: Config.Settings): HfClient {
    HfClient(s.huggingfaceApiKey, s.hfTimeout)
  }

  function NewLlmClient(family: LlmFamily, s: Config.Settings): LlmClient {
    LlmClient(family, s.llmModel, s.llmMaxTokens, s.llmApiKey)
  }

  /** `initialize_clients` AS WRITTEN. The HF handle is set first; then the
      chat model is selected and built. A failure there propagates with the
      HF handle already set and the chat-model handle as it was. */
  function InitializeClientsAsWritten(d: Deps, s: Config.Settings, buildFault: Option<Exc>): (r: (Deps, Outcome))
    ensures r.0.hfClient == Some(NewHfClient(s)) && r.0.conversations == d.conversations
    ensures r.1.Pass? <==> s.llmProvider in NamedProviders && buildFault.None?
    ensures r.1.Pass? ==> r.0.llm == Some(NewLlmClient(SelectLlmFamily(s.llmProvider), s))
    ensures r.1.Fail? ==> r.0.llm == d.llm
  {
    var d1 := d.(hfClient := Some(NewHfClient(s)));
    match SelectLlmFamilyAsWritten(s.llmProvider)
    case Raise(e) => (d1, Fail(e))
    case Ok(family) =>
      match buildFault
      case Some(e) => (d1, Fail(e))
      case None => (d1.(llm := Some(NewLlmClient(family, s))), Pass)
  }

  /** `initialize_clients` with the provider fallback as intended; it fails
      only when the chosen constructor raises. */
  function InitializeClients(d: Deps, s: Config.Settings, buildFault: Option<Exc>): (r: (Deps, Outcome))
    ensures r.0.hfClient == Some(NewHfClient(s)) && r.0.conversations == d.conversations
    ensures r.1.Pass? <==> buildFault.None?
    ensures r.1.Pass? ==> r.0.llm == Some(NewLlmClient(SelectLlmFamily(s.llmProvider), s))
    ensures r.1.Fail? ==> r.0.llm == d.llm && r.1.exc == buildFault.value
  {
    var d1 := d.(hfClient := Some(NewHfClient(s)));
    match buildFault
    case Some(e) => (d1, Fail(e))
    case None => (d1.(llm := Some(NewLlmClient(SelectLlmFamily(s.llmProvider), s))), Pass)
  }

  /** On the providers with a branch of their own the corrected
      initialisation is the written one. */
  lemma InitializeClientsAgrees(d: Deps, s: Config.Settings, buildFault: Option<Exc>)
    requires s.llmProvider in NamedProviders
    ensures InitializeClientsAsWritten(d, s, buildFault) == InitializeClients(d, s, buildFault)
  {
  }

  /** `cleanup_clients`: both handles dropped, every conversation forgotten. */
  function CleanupClients(d: Deps): (r: Deps)
    ensures r.hfClient.None? && r.llm.None? && |r.conversations| == 0
  {
    Deps(None, None, map[])
  }

  /** `get_hf_client`. */
  function GetHfClient(d: Deps): (r: Result<HfClient>)
    ensures r.Raise? <==> d.hfClient.None?
    ensures r.Ok? ==> r.value == d.hfClient.value
    ensures r.Raise? ==> r.exc == Exc(RuntimeError, HfNotInitialised)
  {
    match d.hfClient
    case None => Raise(Exc(RuntimeError, HfNotInitialised))
    case Some(c) => Ok(c)
  }

  /** `get_llm`. */
  function GetLlm(d: Deps): (r: Result<LlmClient>)
    ensures r.Raise? <==> d.llm.None?
    ensures r.Ok? ==> r.value == d.llm.value
    ensures r.Raise? ==> r.exc == Exc(RuntimeError, LlmNotInitialised)
  {
    match d.llm
    case None => Raise(Exc(RuntimeError, LlmNotInitialised))
    case Some(c) => Ok(c)
  }

  /** `get_conversation_memory(user_id)`: the user's history, created empty
      and stored on first use. Nothing else changes. */
  function GetConversationMemory(d: Deps, userId: string): (r: (Deps, History))
    ensures userId in r.0.conversations && r.0.conversations[userId] == r.1
    ensures userId in d.conversations ==> r == (d, d.conversations[userId])
    ensures userId !in d.conversations ==> r.1 == [] && r.0.conversations.Keys == d.conversations.Keys + {userId}
    ensures forall u :: u in d.conversations ==> u in r.0.conversations && r.0.conversations[u] == d.conversations[u]
    ensures r.0.hfClient == d.hfClient && r.0.llm == d.llm
  {
    if userId in d.conversations then (d, d.conversations[userId])
    else (d.(conversations := d.conversations[userId := []]), [])
  }

  /** A second lookup of the same user changes nothing and returns the same
      history as the first. */
  lemma GetConversationMemoryIdempotent(d: Deps, userId: string)
    ensures var (d1, h1) := GetConversationMemory(d, userId);
            GetConversationMemory(d1, userId) == (d1, h1)
  {
  }

  /** The lifecycle as written: from the import-time state, initialisation
      always sets the HF handle; it sets the chat-model handle exactly when
      the provider has a branch of its own, and otherwise leaves it unset
      and fails. Cleanup then returns to the import-time state, where both
      accessors raise. */
  lemma Lifecycle(s: Config.Settings)
    ensures var (d1, outcome) := InitializeClientsAsWritten(Unset, s, None);
            && (outcome.Pass? <==> s.llmProvider in NamedProviders)
            && GetHfClient(d1).Ok?
            && (GetLlm(d1).Ok? <==> s.llmProvider in NamedProviders)
            && CleanupClients(d1) == Unset
            && GetHfClient(CleanupClients(d1)).Raise? && GetLlm(CleanupClients(d1)).Raise?
  {
  }

  /** The lifecycle with the corrected initialisation: every provider ends
      with both handles set. */
  lemma LifecycleCorrected(s: Config.Settings)
    ensures var (d1, outcome) := InitializeClients(Unset, s, None);
            && outcome.Pass?
            && GetHfClient(d1).Ok? && GetLlm(d1).Ok?
            && CleanupClients(d1) == Unset
  {
  }
}
