/** The configuration check of internal/config/config.go (`Config.Validate`). */
module Config {
  import opened Wrappers

  /** A GitHub token and the account it is meant for. */
  datatype GitHubToken = GitHubToken(token: string, username: string)

  datatype GitHubConfig = GitHubConfig(tokens: seq<GitHubToken>)

  datatype LLMConfig = LLMConfig(
    provider: string,
    apiKey: string,
    model: string,
    promptTemplate: string,
    baseUrl: string)

  /** The sections of the configuration that validation reads. */
  datatype Config = Config(gitHub: GitHubConfig, llm: LLMConfig)

  /** Why a configuration is refused. */
  datatype ConfigError = NoGitHubToken | NoLLMAPIKey | InvalidProvider(provider: string) {
    /** The text `Validate` returns: its first character tells the three
        errors apart, and a refused provider is quoted at the end. */
    function Message(): (m: string)
      ensures m != [] && m[0] == match this case NoGitHubToken => 'a' case NoLLMAPIKey => 'L' case InvalidProvider(_) => 'i'
      ensures this.InvalidProvider? ==> "invalid LLM provider: " <= m && |m| >= |this.provider| && m[|m| - |this.provider|..] == this.provider
    {
      match this
      case NoGitHubToken => "at least one GitHub token is required"
      case NoLLMAPIKey => "LLM API key is required"
      case InvalidProvider(p) => "invalid LLM provider: " + p
    }
  }

  /** The LLM providers a configuration may name. */
  const Providers: set<string> := {"openai", "claude", "deepseek", "custom"}

  /** `Config.Validate`: `None` when the configuration is usable, otherwise the
      first failing check, taken in the order tokens, API key, provider. The
      configuration is a value, so validating it leaves it as it was. */
  function Validate(c: Config): (err: Option<ConfigError>)
    ensures err.None? <==> |c.gitHub.tokens| > 0 && c.llm.apiKey != "" && c.llm.provider in Providers
    ensures |c.gitHub.tokens| == 0 ==> err == Some(NoGitHubToken)
    ensures |c.gitHub.tokens| > 0 && c.llm.apiKey == "" ==> err == Some(NoLLMAPIKey)
    ensures |c.gitHub.tokens| > 0 && c.llm.apiKey != "" && c.llm.provider !in Providers ==>
      err == Some(InvalidProvider(c.llm.provider))
  {
    if |c.gitHub.tokens| == 0 then
      Some(NoGitHubToken)
    else if c.llm.apiKey == "" then
      Some(NoLLMAPIKey)
    else if c.llm.provider != "openai" && c.llm.provider != "claude"
         && c.llm.provider != "deepseek" && c.llm.provider != "custom" then
      Some(InvalidProvider(c.llm.provider))
    else
      None
  }
}
