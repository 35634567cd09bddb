/**
 * The OpenAI provider: configuration, availability, the completion request it sends and how
 * every failure is classified. The completion call is a parameter from the request to its
 * result: an error it threw, or the `choices[0]?.message?.content` value of its reply.
 */
module OpenAiProvider {
  import opened Wrappers
  import opened Text
  import opened Keywords
  import opened Json
  import opened Providers

  const DefaultModel := "gpt-4o"

  const NotConfiguredMessage := "OpenAI APIキーが設定されていません"
  const EmptyReplyMessage := "OpenAIから空のレスポンスが返されました"
  const FailurePrefix := "OpenAI API呼び出しに失敗しました: "

  /** One `chat.completions.create` call. */
  datatype CompletionCall = CompletionCall(model: string, system: string, user: string,
                                           temperature: real, maxTokens: nat)

  /** What the call ends with: the error it threw, or the first choice's message content (JUndef when missing). */
  datatype CompletionResult = CallThrew(message: string) | Completed(content: Json)

  function CallFor(model: string, systemPrompt: string, userPrompt: string): (c: CompletionCall)
    ensures c.model == model && c.system == systemPrompt && c.user == userPrompt && c.maxTokens == 2000
  {
    CompletionCall(model, systemPrompt, userPrompt, 0.7, 2000)
  }

  /** The `try` block: a falsy content throws a MODEL_ERROR `AIError`. */
  function TryComplete(call: CompletionCall, complete: CompletionCall -> CompletionResult): (a: Attempt)
    ensures a.Content? ==> Truthy(a.value)
  {
    match complete(call)
    case CallThrew(m) => Threw(None, m)
    case Completed(content) =>
      if Truthy(content) then Content(content) else Threw(Some(ModelError), EmptyReplyMessage)
  }

  /** The catch block's if/else-if ladder over the error message. */
  const ClassifierRules: seq<Rule<ErrorType>> := [
    Rule(["401", "Unauthorized"], Authentication),
    Rule(["429", "rate limit"], RateLimit),
    Rule(["quota", "billing"], QuotaExceeded),
    Rule(["timeout", "network"], Network)
  ]

  /** The error type of a failure message: the first ladder arm whose words it contains, else UNKNOWN. */
  function ClassifyError(message: string): ErrorType
  {
    FirstMatch(message, ClassifierRules, Unknown)
  }

  /** The ladder arm at `k` decides when the message contains one of its words and none of an earlier arm's. */
  lemma ClassifySpec(message: string, k: nat)
    requires k < |ClassifierRules| && MentionsAny(message, ClassifierRules[k].words)
    requires forall j :: 0 <= j < k ==> !MentionsAny(message, ClassifierRules[j].words)
    ensures ClassifyError(message) == ClassifierRules[k].result
  {
    FirstMatchAt(message, ClassifierRules, Unknown, k);
  }

  /** A message containing no word of the ladder is UNKNOWN. */
  lemma ClassifyUnknown(message: string)
    requires forall j :: 0 <= j < |ClassifierRules| ==> !MentionsAny(message, ClassifierRules[j].words)
    ensures ClassifyError(message) == Unknown
  {
    FirstMatchNone(message, ClassifierRules, Unknown);
  }

  /** The ladder as the source writes it, one `includes` pair per arm. */
  lemma ClassifyLadder(m: string)
    ensures ClassifyError(m) ==
              if Contains(m, "401") || Contains(m, "Unauthorized") then Authentication
              else if Contains(m, "429") || Contains(m, "rate limit") then RateLimit
              else if Contains(m, "quota") || Contains(m, "billing") then QuotaExceeded
              else if Contains(m, "timeout") || Contains(m, "network") then Network
              else Unknown
  {
    var rs := ClassifierRules;
    MentionsEither(m, "401", "Unauthorized");
    MentionsEither(m, "429", "rate limit");
    MentionsEither(m, "quota", "billing");
    MentionsEither(m, "timeout", "network");
    var t3 := [rs[3]];
    var t2 := [rs[2]] + t3;
    var t1 := [rs[1]] + t2;
    assert rs == [rs[0]] + t1;
    FirstMatchCons(m, rs[3], [], Unknown);
    assert t3 == [rs[3]] + [];
    FirstMatchCons(m, rs[2], t3, Unknown);
    FirstMatchCons(m, rs[1], t2, Unknown);
    FirstMatchCons(m, rs[0], t1, Unknown);
  }

  /** The classification never says MODEL_ERROR or CORS. */
  lemma ClassifyRange(m: string)
    ensures ClassifyError(m) in {Authentication, RateLimit, QuotaExceeded, Network, Unknown}
  {
    ClassifyLadder(m);
  }

  /**
   * How a call ends, as written: without a key an AUTHENTICATION error before any request;
   * otherwise the content, or whatever the `try` block threw, re-raised under the prefix and
   * classified by its message alone.
   */
  function Respond(available: bool, call: CompletionCall, complete: CompletionCall -> CompletionResult): (r: Reply)
    ensures r.Failed? ==> r.error.provider == OpenAI
    ensures !available ==> r == Failed(AIError(Authentication, OpenAI, NotConfiguredMessage))
    ensures r.Answer? ==> Truthy(r.content)
    ensures available && r.Failed? ==>
              StartsWith(r.error.message, FailurePrefix) &&
              r.error.kind == ClassifyError(r.error.message[|FailurePrefix|..])
  {
    if !available then Failed(AIError(Authentication, OpenAI, NotConfiguredMessage))
    else
      match TryComplete(call, complete)
      case Content(c) => Answer(c)
      case Threw(_, m) =>
        assert (FailurePrefix + m)[|FailurePrefix|..] == m;
        Failed(AIError(ClassifyError(m), OpenAI, FailurePrefix + m))
  }

  /**
   * As written, an empty reply is reported UNKNOWN: the MODEL_ERROR thrown inside the `try` is
   * caught by its own `catch` and reclassified by a message naming no keyword.
   */
  lemma EmptyReplyReportedUnknown(call: CompletionCall, complete: CompletionCall -> CompletionResult)
    requires complete(call) == Completed(JUndef)
    ensures Respond(true, call, complete) == Failed(AIError(Unknown, OpenAI, FailurePrefix + EmptyReplyMessage))
  {
    var m := EmptyReplyMessage;
    MissingCharNotContained(m, "401", 0);
    MissingCharNotContained(m, "Unauthorized", 0);
    MissingCharNotContained(m, "429", 0);
    MissingCharNotContained(m, "rate limit", 0);
    MissingCharNotContained(m, "quota", 0);
    MissingCharNotContained(m, "billing", 0);
    MissingCharNotContained(m, "timeout", 0);
    MissingCharNotContained(m, "network", 2);
    ClassifyLadder(m);
  }

  /** How a call ends when an `AIError` thrown inside the `try` is re-raised as it is. */
  function RespondCorrected(available: bool, call: CompletionCall, complete: CompletionCall -> CompletionResult): (r: Reply)
    ensures r.Failed? ==> r.error.provider == OpenAI
    ensures !available ==> r == Failed(AIError(Authentication, OpenAI, NotConfiguredMessage))
  {
    if !available then Failed(AIError(Authentication, OpenAI, NotConfiguredMessage))
    else
      match TryComplete(call, complete)
      case Content(c) => Answer(c)
      case Threw(Some(kind), m) => Failed(AIError(kind, OpenAI, m))
      case Threw(None, m) => Failed(AIError(ClassifyError(m), OpenAI, FailurePrefix + m))
  }

  /** With the re-raise, a falsy reply is a MODEL_ERROR, and errors of the call itself are classified as before. */
  lemma EmptyReplyIsModelError(call: CompletionCall, complete: CompletionCall -> CompletionResult)
    ensures complete(call).Completed? && !Truthy(complete(call).content) ==>
              RespondCorrected(true, call, complete) == Failed(AIError(ModelError, OpenAI, EmptyReplyMessage))
    ensures complete(call).CallThrew? ==> RespondCorrected(true, call, complete) == Respond(true, call, complete)
  {
  }

  /** The provider object: its environment and the model chosen at construction. */
  class OpenAIProvider {
    const name: Provider
    const env: Env
    const model: string

    /** The model comes from the environment, `gpt-4o` by default. */
    constructor(env: Env)
      ensures this.env == env && name == OpenAI
      ensures model == (if env.openAiModel != "" then env.openAiModel else DefaultModel)
    {
      name := OpenAI;
      this.env := env;
      model := if env.openAiModel != "" then env.openAiModel else DefaultModel;
    }

    /** Usable exactly when the API key is set, the same test the provider selector makes. */
    predicate CheckAvailability()
      ensures CheckAvailability() <==> CheckProviderAvailability(env, OpenAI)
    {
      env.openAiApiKey != ""
    }

    /** One call: the availability check, the `try` block, and the classifying `catch`. */
    method GenerateResponse(systemPrompt: string, userPrompt: string,
                            complete: CompletionCall -> CompletionResult) returns (r: Reply)
      ensures r == Respond(CheckAvailability(), CallFor(model, systemPrompt, userPrompt), complete)
    {
      if !CheckAvailability() {
        return Failed(AIError(Authentication, OpenAI, NotConfiguredMessage));
      }
      var attempt := TryComplete(CallFor(model, systemPrompt, userPrompt), complete);
      if attempt.Content? {
        return Answer(attempt.value);
      }
      var errorMessage := attempt.message;
      var errorType := Unknown;
      if Contains(errorMessage, "401") || Contains(errorMessage, "Unauthorized") {
        errorType := Authentication;
      } else if Contains(errorMessage, "429") || Contains(errorMessage, "rate limit") {
        errorType := RateLimit;
      } else if Contains(errorMessage, "quota") || Contains(errorMessage, "billing") {
        errorType := QuotaExceeded;
      } else if Contains(errorMessage, "timeout") || Contains(errorMessage, "network") {
        errorType := Network;
      }
      ClassifyLadder(errorMessage);
      r := Failed(AIError(errorType, OpenAI, FailurePrefix + errorMessage));
    }
  }
}
