/**
 * What the browser-side providers share: the environment keys they read, the provider
 * names, the typed errors they raise, and which provider is picked given the keys present.
 */
module Providers {
  import opened Wrappers
  import Json

  /**
   * The build-time environment (`import.meta.env`). A variable that is not set reads as the
   * empty string: both are falsy, which is all the code tests.
   */
  datatype Env = Env(awsAccessKeyId: string, awsSecretAccessKey: string, awsRegion: string,
                     bedrockModelId: string, openAiApiKey: string, openAiModel: string)

  datatype Provider = Bedrock | OpenAI

  datatype ErrorType = Authentication | RateLimit | QuotaExceeded | Network | Cors | ModelError | Unknown

  /** An `AIError`: its classification, the provider that raised it and its message. */
  datatype AIError = AIError(kind: ErrorType, provider: Provider, message: string)

  /** What a provider call ends with: the reply content, or the error it throws. */
  datatype Reply = Answer(content: Json.Json) | Failed(error: AIError)

  /** What a provider's `try` block ends with: its content, or what it threw (with the type, when it threw an `AIError`). */
  datatype Attempt = Content(value: Json.Json) | Threw(aiKind: Option<ErrorType>, message: string)

  /** Bedrock is usable when both AWS keys are set. */
  predicate HasBedrockKeys(env: Env)
  {
    env.awsAccessKeyId != "" && env.awsSecretAccessKey != ""
  }

  /** OpenAI is usable when its API key is set. */
  predicate HasOpenAIKey(env: Env)
  {
    env.openAiApiKey != ""
  }

  /** Whether `provider`'s keys are configured. */
  predicate CheckProviderAvailability(env: Env, provider: Provider)
  {
    match provider
    case Bedrock => HasBedrockKeys(env)
    case OpenAI => HasOpenAIKey(env)
  }

  const NoProviderMessage :=
    "AIプロバイダーのAPIキーが設定されていません。\n" +
    ".env.local に以下のいずれかを設定してください:\n" +
    "- VITE_AWS_ACCESS_KEY_ID & VITE_AWS_SECRET_ACCESS_KEY (Bedrock)\n" +
    "- VITE_OPENAI_API_KEY (OpenAI)"

  /** The provider to use: Bedrock whenever it is available, else OpenAI when it is; otherwise an error. */
  function SelectProvider(env: Env): (r: Outcome<Provider>)
    ensures r == Ok(Bedrock) <==> CheckProviderAvailability(env, Bedrock)
    ensures r == Ok(OpenAI) <==> !CheckProviderAvailability(env, Bedrock) && CheckProviderAvailability(env, OpenAI)
    ensures r.Raised? <==> !CheckProviderAvailability(env, Bedrock) && !CheckProviderAvailability(env, OpenAI)
    ensures r.Raised? ==> r.message == NoProviderMessage
  {
    if HasBedrockKeys(env) then Ok(Bedrock)
    else if HasOpenAIKey(env) then Ok(OpenAI)
    else Raised(NoProviderMessage)
  }

  /** The provider picked is always one whose keys are configured. */
  lemma SelectedIsAvailable(env: Env)
    requires SelectProvider(env).Ok?
    ensures CheckProviderAvailability(env, SelectProvider(env).value)
  {
  }

  /** One provider's line of the status report. */
  datatype Availability = Availability(available: bool, status: string)

  /** The status report: both providers and the name of the recommended one (`none` when neither is usable). */
  datatype ProviderStatus = ProviderStatus(bedrock: Availability, openai: Availability, recommended: string)

  function StatusText(available: bool): string
  {
    if available then "✅ 利用可能" else "❌ APIキー未設定"
  }

  /** The status report, whose recommendation is the provider `SelectProvider` picks, or `none` when it fails. */
  function GetProviderStatus(env: Env): (r: ProviderStatus)
    ensures r.bedrock.available == CheckProviderAvailability(env, Bedrock)
    ensures r.openai.available == CheckProviderAvailability(env, OpenAI)
    ensures r.recommended == "bedrock" <==> SelectProvider(env) == Ok(Bedrock)
    ensures r.recommended == "openai" <==> SelectProvider(env) == Ok(OpenAI)
    ensures r.recommended == "none" <==> SelectProvider(env).Raised?
  {
    var bedrock := CheckProviderAvailability(env, Bedrock);
    var openai := CheckProviderAvailability(env, OpenAI);
    ProviderStatus(Availability(bedrock, StatusText(bedrock)), Availability(openai, StatusText(openai)),
                   if bedrock then "bedrock" else if openai then "openai" else "none")
  }
}
