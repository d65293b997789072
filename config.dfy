/**
  The server's startup configuration: values read from the environment
  with their defaults, the model chosen for the selected provider, and
  the validation that stops the process on a bad provider or a missing
  credential.
 */
module AppConfig {
  import opened Values

  datatype Port = PortText(text: string) | PortNumber(n: int)

  datatype Config = Config(
    aiProvider: string,
    anthropicApiKey: Option<string>,
    claudeModel: string,
    ollamaBaseUrl: string,
    ollamaModel: string,
    port: Port,
    systemPrompt: string,
    assistantName: string,
    currentModel: string)

  /** `process.env[name] || fallback`: an unset or empty variable takes the fallback. */
  function EnvOr(env: map<string, string>, name: string, fallback: string): string {
    if name in env && env[name] != "" then env[name] else fallback
  }

  predicate IsSet(env: map<string, string>, name: string) {
    name in env && env[name] != ""
  }

  /** The object literal of the configuration, before `currentModel` is assigned. */
  function ReadEnvironment(env: map<string, string>): Config {
    Config(
      EnvOr(env, "AI_PROVIDER", "ollama"),
      if "ANTHROPIC_API_KEY" in env then Some(env["ANTHROPIC_API_KEY"]) else None,
      EnvOr(env, "CLAUDE_MODEL", "claude-3-5-sonnet-20241022"),
      EnvOr(env, "OLLAMA_BASE_URL", "http://localhost:11434"),
      EnvOr(env, "OLLAMA_MODEL", "mistral-small"),
      if IsSet(env, "PORT") then PortText(env["PORT"]) else PortNumber(8080),
      EnvOr(env, "SYSTEM_PROMPT", "default"),
      EnvOr(env, "ASSISTANT_NAME", "AI Assistant"),
      "")
  }

  /** The one assignment after the literal: `config.currentModel = ...`. */
  function WithCurrentModel(c: Config): Config {
    c.(currentModel := if c.aiProvider == "claude" then c.claudeModel else c.ollamaModel)
  }

  /** The configuration module's value. */
  function LoadConfig(env: map<string, string>): (c: Config)
    ensures !IsSet(env, "AI_PROVIDER") ==> c.aiProvider == "ollama"
    ensures !IsSet(env, "SYSTEM_PROMPT") ==> c.systemPrompt == "default"
    ensures !IsSet(env, "ASSISTANT_NAME") ==> c.assistantName == "AI Assistant"
    ensures !IsSet(env, "PORT") ==> c.port == PortNumber(8080)
    ensures IsSet(env, "AI_PROVIDER") ==> c.aiProvider == env["AI_PROVIDER"]
    ensures c.currentModel == (if c.aiProvider == "claude" then c.claudeModel else c.ollamaModel)
  {
    WithCurrentModel(ReadEnvironment(env))
  }

  const MissingKeyError: string := "ANTHROPIC_API_KEY is required when AI_PROVIDER is set to \"claude\""
  const BadProviderError: string := "AI_PROVIDER must be either \"claude\" or \"ollama\""

  predicate HasApiKey(c: Config) {
    c.anthropicApiKey.Some? && c.anthropicApiKey.value != ""
  }

  /** `validateConfig`: `Err` is the message of the error it throws. */
  function ValidateConfig(c: Config): (r: Result<(), string>)
    ensures r.Ok? <==> c.aiProvider == "ollama" || (c.aiProvider == "claude" && HasApiKey(c))
    ensures r.Err? ==> r.error == (if c.aiProvider == "claude" then MissingKeyError else BadProviderError)
  {
    if c.aiProvider == "claude" && !HasApiKey(c) then Err(MissingKeyError)
    else if c.aiProvider !in ["claude", "ollama"] then Err(BadProviderError)
    else Ok(())
  }

  /** With nothing set, the server starts on Ollama with its default model. */
  lemma EmptyEnvironmentStarts()
    ensures ValidateConfig(LoadConfig(map[])).Ok?
    ensures LoadConfig(map[]).currentModel == "mistral-small"
  {
  }

  /** Selecting Claude starts the server exactly when a non-empty key is given, and then uses the Claude model. */
  lemma ClaudeNeedsKey(env: map<string, string>)
    requires IsSet(env, "AI_PROVIDER") && env["AI_PROVIDER"] == "claude"
    ensures ValidateConfig(LoadConfig(env)).Ok? <==> IsSet(env, "ANTHROPIC_API_KEY")
    ensures LoadConfig(env).currentModel == EnvOr(env, "CLAUDE_MODEL", "claude-3-5-sonnet-20241022")
  {
  }
}
