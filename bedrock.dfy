/**
 * The Amazon Bedrock provider: its configuration, the availability check, the request it
 * sends, how the reply body is read, and how every failure is classified. `client.send` is
 * a parameter from the request to its result, and `JSON.parse` one from text to a value or
 * the message of the SyntaxError it throws.
 */
module Bedrock {
  import opened Wrappers
  import opened Text
  import opened Keywords
  import opened Json
  import opened Providers

  const DefaultRegion := "us-east-1"
  const DefaultModelId := "us.anthropic.claude-3-5-sonnet-20240620-v1:0"

  const NotConfiguredMessage := "AWS認証情報が設定されていません"
  const EmptyBodyMessage := "Bedrockから空のレスポンスが返されました"
  const NoTextMessage := "Bedrockレスポンスから文字列コンテンツを取得できませんでした"
  /** What `Object.keys` throws for a body that parses to `null` (the V8 wording). */
  const NullBodyMessage := "Cannot convert undefined or null to object"
  const FailurePrefix := "Bedrock API呼び出しに失敗しました: "

  /** The request body before `JSON.stringify`. */
  datatype Payload = Payload(anthropicVersion: string, maxTokens: nat, temperature: real,
                             system: string, userText: string)

  /** The `InvokeModelCommand` input. */
  datatype InvokeRequest = InvokeRequest(modelId: string, body: Payload, contentType: string, accept: string)

  /** What `client.send` ends with: an error it threw, a response without a body, or the decoded body text. */
  datatype SendResult = SendThrew(message: string) | NoBody | BodyText(text: string)

  /** The request sent for one prompt pair. */
  function RequestFor(modelId: string, systemPrompt: string, userPrompt: string): (r: InvokeRequest)
    ensures r.modelId == modelId && r.body.system == systemPrompt && r.body.userText == userPrompt
    ensures r.body.maxTokens == 2000 && r.contentType == "application/json" == r.accept
  {
    InvokeRequest(modelId, Payload("bedrock-2023-05-31", 2000, 0.7, systemPrompt, userPrompt),
                  "application/json", "application/json")
  }

  /** `v?.[0]`: the first element of an array, the first character of a string, the `"0"` member of an object. */
  function FirstItem(v: Json): Json
  {
    match v
    case JArr(items) => if items == [] then JUndef else items[0]
    case JStr(s) => if s == [] then JUndef else JStr([s[0]])
    case JObj(ms) => Lookup(ms, "0")
    case _ => JUndef
  }

  /**
   * The `try` block: send, require a body, parse it and take `content[0].text`, which must be
   * truthy. The two checks throw a MODEL_ERROR `AIError`; everything else throws a plain error.
   */
  function TryInvoke(request: InvokeRequest, send: InvokeRequest -> SendResult,
                     parse: string -> Outcome<Json>): (a: Attempt)
    ensures a.Content? ==> Truthy(a.value)
    ensures send(request).NoBody? ==> a == Threw(Some(ModelError), EmptyBodyMessage)
    ensures send(request).SendThrew? ==> a == Threw(None, send(request).message)
  {
    match send(request)
    case SendThrew(m) => Threw(None, m)
    case NoBody => Threw(Some(ModelError), EmptyBodyMessage)
    case BodyText(t) =>
      match parse(t)
      case Raised(m) => Threw(None, m)
      case Ok(body) =>
        if body.JUndef? || body.JNull? then Threw(None, NullBodyMessage)
        else
          var content := Get(FirstItem(Get(body, "content")), "text");
          if Truthy(content) then Content(content) else Threw(Some(ModelError), NoTextMessage)
  }

  /** The catch block's if/else-if ladder over the error message. */
  const ClassifierRules: seq<Rule<ErrorType>> := [
    Rule(["UnauthorizedOperation", "Forbidden"], Authentication),
    Rule(["ThrottlingException", "TooManyRequestsException"], RateLimit),
    Rule(["cors", "CORS"], Cors),
    Rule(["NetworkingError", "timeout"], Network),
    Rule(["ValidationException", "ModelError"], ModelError)
  ]

  /** The error type a failure message is given: the first ladder arm whose words it contains, else UNKNOWN. */
  function ClassifyError(message: string): ErrorType
  {
    FirstMatch(message, ClassifierRules, Unknown)
  }

  /** The ladder arm at `k` decides when the message contains one of its words and none of an earlier arm's. */
  lemma ClassifySpec(message: string, k: nat)
    requires k < |ClassifierRules| && MentionsAny(message, ClassifierRules[k].words)
    requires forall j :: 0 <= j < k ==> !MentionsAny(message, ClassifierRules[j].words)
    ensures ClassifyError(message) == ClassifierRules[k].result
  {
    FirstMatchAt(message, ClassifierRules, Unknown, k);
  }

  /** A message containing no word of the ladder is UNKNOWN. */
  lemma ClassifyUnknown(message: string)
    requires forall j :: 0 <= j < |ClassifierRules| ==> !MentionsAny(message, ClassifierRules[j].words)
    ensures ClassifyError(message) == Unknown
  {
    FirstMatchNone(message, ClassifierRules, Unknown);
  }

  /** The ladder as the source writes it, one `includes` pair per arm. */
  lemma ClassifyLadder(m: string)
    ensures ClassifyError(m) ==
              if Contains(m, "UnauthorizedOperation") || Contains(m, "Forbidden") then Authentication
              else if Contains(m, "ThrottlingException") || Contains(m, "TooManyRequestsException") then RateLimit
              else if Contains(m, "cors") || Contains(m, "CORS") then Cors
              else if Contains(m, "NetworkingError") || Contains(m, "timeout") then Network
              else if Contains(m, "ValidationException") || Contains(m, "ModelError") then ModelError
              else Unknown
  {
    var rs := ClassifierRules;
    MentionsEither(m, "UnauthorizedOperation", "Forbidden");
    MentionsEither(m, "ThrottlingException", "TooManyRequestsException");
    MentionsEither(m, "cors", "CORS");
    MentionsEither(m, "NetworkingError", "timeout");
    MentionsEither(m, "ValidationException", "ModelError");
    var t4 := [rs[4]];
    var t3 := [rs[3]] + t4;
    var t2 := [rs[2]] + t3;
    var t1 := [rs[1]] + t2;
    assert rs == [rs[0]] + t1;
    FirstMatchCons(m, rs[4], [], Unknown);
    assert t4 == [rs[4]] + [];
    FirstMatchCons(m, rs[3], t4, Unknown);
    FirstMatchCons(m, rs[2], t3, Unknown);
    FirstMatchCons(m, rs[1], t2, Unknown);
    FirstMatchCons(m, rs[0], t1, Unknown);
  }

  /**
   * How a call ends, as written: without both keys an AUTHENTICATION error before any request;
   * otherwise the content, or whatever the `try` block threw, re-raised under the prefix and
   * classified by its message alone.
   */
  function Respond(available: bool, request: InvokeRequest, send: InvokeRequest -> SendResult,
                   parse: string -> Outcome<Json>): (r: Reply)
    ensures r.Failed? ==> r.error.provider == Bedrock
    ensures !available ==> r == Failed(AIError(Authentication, Bedrock, NotConfiguredMessage))
    ensures r.Answer? ==> Truthy(r.content)
    ensures available && r.Failed? ==>
              StartsWith(r.error.message, FailurePrefix) &&
              r.error.kind == ClassifyError(r.error.message[|FailurePrefix|..])
  {
    if !available then Failed(AIError(Authentication, Bedrock, NotConfiguredMessage))
    else
      match TryInvoke(request, send, parse)
      case Content(c) => Answer(c)
      case Threw(_, m) =>
        assert (FailurePrefix + m)[|FailurePrefix|..] == m;
        Failed(AIError(ClassifyError(m), Bedrock, FailurePrefix + m))
  }

  /** Neither check message of the `try` block contains a word of the ladder. */
  lemma FreeOfKeywords(m: string)
    requires forall i :: 0 <= i < |m| ==>
               m[i] !in {'U', 'F', 'T', 's', 'C', 'N', 't', 'V', 'M'}
    ensures ClassifyError(m) == Unknown
  {
    MissingCharNotContained(m, "UnauthorizedOperation", 0);
    MissingCharNotContained(m, "Forbidden", 0);
    MissingCharNotContained(m, "ThrottlingException", 0);
    MissingCharNotContained(m, "TooManyRequestsException", 0);
    MissingCharNotContained(m, "cors", 3);
    MissingCharNotContained(m, "CORS", 0);
    MissingCharNotContained(m, "NetworkingError", 0);
    MissingCharNotContained(m, "timeout", 0);
    MissingCharNotContained(m, "ValidationException", 0);
    MissingCharNotContained(m, "ModelError", 0);
    ClassifyLadder(m);
  }

  /**
   * As written, a response without a body is reported UNKNOWN: the MODEL_ERROR thrown inside
   * the `try` is caught by its own `catch` and reclassified by a message naming no keyword.
   */
  lemma EmptyBodyReportedUnknown(request: InvokeRequest, send: InvokeRequest -> SendResult,
                                 parse: string -> Outcome<Json>)
    requires send(request) == NoBody
    ensures Respond(true, request, send, parse) == Failed(AIError(Unknown, Bedrock, FailurePrefix + EmptyBodyMessage))
  {
    FreeOfKeywords(EmptyBodyMessage);
  }

  /** The same happens to a body without text content. */
  lemma NoTextReportedUnknown()
    ensures ClassifyError(NoTextMessage) == Unknown
  {
    FreeOfKeywords(NoTextMessage);
  }

  /** How a call ends when an `AIError` thrown inside the `try` is re-raised as it is. */
  function RespondCorrected(available: bool, request: InvokeRequest, send: InvokeRequest -> SendResult,
                            parse: string -> Outcome<Json>): (r: Reply)
    ensures r.Failed? ==> r.error.provider == Bedrock
    ensures !available ==> r == Failed(AIError(Authentication, Bedrock, NotConfiguredMessage))
  {
    if !available then Failed(AIError(Authentication, Bedrock, NotConfiguredMessage))
    else
      match TryInvoke(request, send, parse)
      case Content(c) => Answer(c)
      case Threw(Some(kind), m) => Failed(AIError(kind, Bedrock, m))
      case Threw(None, m) => Failed(AIError(ClassifyError(m), Bedrock, FailurePrefix + m))
  }

  /** With the re-raise, an empty body is a MODEL_ERROR, and SDK errors are classified exactly as before. */
  lemma EmptyBodyIsModelError(request: InvokeRequest, send: InvokeRequest -> SendResult,
                              parse: string -> Outcome<Json>)
    ensures send(request) == NoBody ==>
              RespondCorrected(true, request, send, parse) == Failed(AIError(ModelError, Bedrock, EmptyBodyMessage))
    ensures send(request).SendThrew? ==>
              RespondCorrected(true, request, send, parse) == Respond(true, request, send, parse)
  {
  }

  /** The provider object: its environment and the region and model chosen at construction. */
  class BedrockProvider {
    const name: Provider
    const env: Env
    const region: string
    const modelId: string

    /** Region and model come from the environment, with the documented defaults. */
    constructor(env: Env)
      ensures this.env == env && name == Bedrock
      ensures region == (if env.awsRegion != "" then env.awsRegion else DefaultRegion)
      ensures modelId == (if env.bedrockModelId != "" then env.bedrockModelId else DefaultModelId)
    {
      name := Bedrock;
      this.env := env;
      region := if env.awsRegion != "" then env.awsRegion else DefaultRegion;
      modelId := if env.bedrockModelId != "" then env.bedrockModelId else DefaultModelId;
    }

    /** Usable exactly when both AWS keys are set, the same test the provider selector makes. */
    predicate CheckAvailability()
      ensures CheckAvailability() <==> CheckProviderAvailability(env, Bedrock)
    {
      env.awsAccessKeyId != "" && env.awsSecretAccessKey != ""
    }

    /** One call: the availability check, the `try` block, and the classifying `catch`. */
    method GenerateResponse(systemPrompt: string, userPrompt: string, send: InvokeRequest -> SendResult,
                            parse: string -> Outcome<Json>) returns (r: Reply)
      ensures r == Respond(CheckAvailability(), RequestFor(modelId, systemPrompt, userPrompt), send, parse)
    {
      if !CheckAvailability() {
        return Failed(AIError(Authentication, Bedrock, NotConfiguredMessage));
      }
      var attempt := TryInvoke(RequestFor(modelId, systemPrompt, userPrompt), send, parse);
      if attempt.Content? {
        return Answer(attempt.value);
      }
      var errorMessage := attempt.message;
      var errorType := Unknown;
      if Contains(errorMessage, "UnauthorizedOperation") || Contains(errorMessage, "Forbidden") {
        errorType := Authentication;
      } else if Contains(errorMessage, "ThrottlingException") || Contains(errorMessage, "TooManyRequestsException") {
        errorType := RateLimit;
      } else if Contains(errorMessage, "cors") || Contains(errorMessage, "CORS") {
        errorType := Cors;
      } else if Contains(errorMessage, "NetworkingError") || Contains(errorMessage, "timeout") {
        errorType := Network;
      } else if Contains(errorMessage, "ValidationException") || Contains(errorMessage, "ModelError") {
        errorType := ModelError;
      }
      ClassifyLadder(errorMessage);
      r := Failed(AIError(errorType, Bedrock, FailurePrefix + errorMessage));
    }
  }
}
