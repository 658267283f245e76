/**
 * Loading the facade configuration from the process environment: required
 * API keys, provider URLs with fixed defaults, the broker URL, and the fixed
 * timeout and retry settings.
 */
module Config {
  import opened Types

  /** `time.Duration` is a count of nanoseconds. */
  const Second: nat := 1_000_000_000

  const DefaultOpenAIURL: string := "https://api.openai.com/v1/chat/completions"
  const DefaultHuggingFaceURL: string := "https://api-inference.huggingface.co/models/mixtral/mixtral-8x7b"
  const DefaultGeminiURL: string := "https://generativelanguage.googleapis.com/v1beta/models/gemini-pro:generateContent"

  datatype Config = Config(
    openAIKey: string,
    openAIURL: string,
    huggingFaceKey: string,
    huggingFaceURL: string,
    geminiKey: string,
    geminiURL: string,
    rabbitMqUrl: string,
    timeout: nat,     // nanoseconds
    maxRetries: nat,
    retryDelay: nat)  // nanoseconds

  datatype ConfigError = MissingApiKeys | MissingRabbitMqUrl

  /** The process environment; a variable that is not set reads as "". */
  type Env = map<string, string>

  function Getenv(env: Env, name: string): string
  {
    if name in env then env[name] else ""
  }

  /** The configuration as read, before validation and defaulting. */
  function FromEnv(env: Env): Config
  {
    Config(
      Getenv(env, "OPENAI_API_KEY"),
      Getenv(env, "OPENAI_URL"),
      Getenv(env, "HUGGINGFACE_API_KEY"),
      Getenv(env, "HUGGINGFACE_URL"),
      Getenv(env, "GEMINI_API_KEY"),
      Getenv(env, "GEMINI_URL"),
      Getenv(env, "RABBITMQ_URL"),
      10 * Second,
      3,
      1 * Second)
  }

  function OrDefault(url: string, default: string): string
  {
    if url == "" then default else url
  }

  /** Replaces each empty provider URL by its default; nothing else changes. */
  function ApplyDefaults(c: Config): (r: Config)
    ensures r.openAIURL != "" && r.huggingFaceURL != "" && r.geminiURL != ""
    ensures c.openAIURL != "" ==> r.openAIURL == c.openAIURL
    ensures c.huggingFaceURL != "" ==> r.huggingFaceURL == c.huggingFaceURL
    ensures c.geminiURL != "" ==> r.geminiURL == c.geminiURL
    ensures c.openAIURL == "" ==> r.openAIURL == DefaultOpenAIURL
    ensures c.huggingFaceURL == "" ==> r.huggingFaceURL == DefaultHuggingFaceURL
    ensures c.geminiURL == "" ==> r.geminiURL == DefaultGeminiURL
    ensures r.(openAIURL := c.openAIURL, huggingFaceURL := c.huggingFaceURL, geminiURL := c.geminiURL) == c
  {
    c.(openAIURL := OrDefault(c.openAIURL, DefaultOpenAIURL),
       huggingFaceURL := OrDefault(c.huggingFaceURL, DefaultHuggingFaceURL),
       geminiURL := OrDefault(c.geminiURL, DefaultGeminiURL))
  }

  /** Defaulting an already defaulted configuration changes nothing. */
  lemma DefaultsIdempotent(c: Config)
    ensures ApplyDefaults(ApplyDefaults(c)) == ApplyDefaults(c)
  {
  }

  /**
   * LoadConfig: the key check comes first, then URL defaulting, then the
   * broker URL check. The timeout and retry settings are fixed.
   */
  function LoadConfig(env: Env): (r: Result<Config, ConfigError>)
    ensures r == Err(MissingApiKeys) <==>
      Getenv(env, "OPENAI_API_KEY") == "" || Getenv(env, "HUGGINGFACE_API_KEY") == "" || Getenv(env, "GEMINI_API_KEY") == ""
    ensures r == Err(MissingRabbitMqUrl) <==>
      Getenv(env, "OPENAI_API_KEY") != "" && Getenv(env, "HUGGINGFACE_API_KEY") != "" && Getenv(env, "GEMINI_API_KEY") != ""
      && Getenv(env, "RABBITMQ_URL") == ""
    ensures r.Ok? ==>
      && r.value.openAIKey == Getenv(env, "OPENAI_API_KEY") && r.value.openAIKey != ""
      && r.value.huggingFaceKey == Getenv(env, "HUGGINGFACE_API_KEY") && r.value.huggingFaceKey != ""
      && r.value.geminiKey == Getenv(env, "GEMINI_API_KEY") && r.value.geminiKey != ""
      && r.value.rabbitMqUrl == Getenv(env, "RABBITMQ_URL") && r.value.rabbitMqUrl != ""
      && r.value.openAIURL == OrDefault(Getenv(env, "OPENAI_URL"), DefaultOpenAIURL)
      && r.value.huggingFaceURL == OrDefault(Getenv(env, "HUGGINGFACE_URL"), DefaultHuggingFaceURL)
      && r.value.geminiURL == OrDefault(Getenv(env, "GEMINI_URL"), DefaultGeminiURL)
      && r.value.timeout == 10 * Second
      && r.value.maxRetries == 3
      && r.value.retryDelay == Second
  {
    var config := FromEnv(env);
    if config.openAIKey == "" || config.huggingFaceKey == "" || config.geminiKey == "" then
      Err(MissingApiKeys)
    else
      var config := ApplyDefaults(config);
      if config.rabbitMqUrl == "" then Err(MissingRabbitMqUrl)
      else Ok(config)
  }

  /** A loaded configuration is already defaulted. */
  lemma LoadedIsDefaulted(env: Env)
    requires LoadConfig(env).Ok?
    ensures ApplyDefaults(LoadConfig(env).value) == LoadConfig(env).value
  {
  }
}
