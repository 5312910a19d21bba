/** The application settings of config/settings.py: the fields the core
    reads, their declared bounds and defaults, the byte ceiling for uploads
    and the required-key check run at startup. */
module Config {

  /** The settings the core reads. `allowedAudioFormats` is the configured
      set, listed in the order Python iterates it; it is the order in which
      the invalid-format error message names the formats. */
  datatype Settings = Settings(
    appName: string,
    appVersion: string,
    environment: string,
    debug: bool,
    apiV1Prefix: string,
    huggingfaceApiKey: string,
    whisperModel: string,
    ttsModel: string,
    hfTimeout: int,
    llmProvider: string,
    llmApiKey: string,
    llmModel: string,
    llmMaxTokens: int,
    conversationMemorySize: int,
    maxAudioFileSizeMb: int,
    allowedAudioFormats: seq<string>)

  const Environments: set<string> := {"development", "production"}

  /** The values the `llm_provider` field accepts. */
  const LlmProviders: set<string> := {"openai", "anthropic", "cohere", "huggingface"}

  const DefaultAudioFormats: seq<string> := ["audio/wav", "audio/mpeg", "audio/mp4", "audio/x-m4a"]

  const BytesPerMb: int := 1024 * 1024

  /** The constraints the settings class declares on its fields. */
  predicate Valid(s: Settings) {
    && s.environment in Environments
    && s.llmProvider in LlmProviders
    && s.llmMaxTokens >= 1
    && 1 <= s.conversationMemorySize <= 20
    && 1 <= s.maxAudioFileSizeMb <= 100
    && (forall i, j :: 0 <= i < j < |s.allowedAudioFormats| ==> s.allowedAudioFormats[i] != s.allowedAudioFormats[j])
  }

  /** The settings when no environment variable overrides a default. */
  const Defaults: Settings := Settings(
    appName := "AudioDiary",
    appVersion := "0.1.0",
    environment := "development",
    debug := false,
    apiV1Prefix := "/api/v1",
    huggingfaceApiKey := "",
    whisperModel := "openai/whisper-large-v3",
    ttsModel := "facebook/mms-tts-eng",
    hfTimeout := 60,
    llmProvider := "openai",
    llmApiKey := "",
    llmModel := "gpt-4o-mini",
    llmMaxTokens := 500,
    conversationMemorySize := 5,
    maxAudioFileSizeMb := 25,
    allowedAudioFormats := DefaultAudioFormats)

  /** The defaults satisfy the declared bounds; the window size defaults to 5
      and the accepted upload types are exactly the four audio MIME types. */
  lemma DefaultsValid()
    ensures Valid(Defaults)
    ensures Defaults.conversationMemorySize == 5
    ensures (set f | f in Defaults.allowedAudioFormats) == {"audio/wav", "audio/mpeg", "audio/mp4", "audio/x-m4a"}
  {
  }

  /** The upload ceiling in bytes, `max_audio_file_size_mb` megabytes of
      2^20 bytes each. */
  function MaxAudioFileSizeBytes(s: Settings): (r: int)
    ensures r % BytesPerMb == 0
    ensures r / BytesPerMb == s.maxAudioFileSizeMb
  {
    s.maxAudioFileSizeMb * 1024 * 1024
  }

  /** Within the declared bounds, the ceiling lies between 1 MiB and 100 MiB. */
  lemma MaxAudioFileSizeBytesBounds(s: Settings)
    requires Valid(s)
    ensures 1048576 <= MaxAudioFileSizeBytes(s) <= 104857600
  {
  }

  /** The names of the required API keys that are unset, HF key first. */
  function ValidateRequiredKeys(s: Settings): (missing: seq<string>)
    ensures "HUGGINGFACE_API_KEY" in missing <==> s.huggingfaceApiKey == ""
    ensures "LLM_API_KEY" in missing <==> s.llmApiKey == ""
    ensures missing == [] <==> s.huggingfaceApiKey != "" && s.llmApiKey != ""
    ensures forall m :: m in missing ==> m in {"HUGGINGFACE_API_KEY", "LLM_API_KEY"}
    ensures |missing| == 2 ==> missing == ["HUGGINGFACE_API_KEY", "LLM_API_KEY"]
  {
    (if s.huggingfaceApiKey == "" then ["HUGGINGFACE_API_KEY"] else [])
    + (if s.llmApiKey == "" then ["LLM_API_KEY"] else [])
  }
}
