/**
 * The browser-side AI service: deciding whether the screen being edited is still blank,
 * guessing what kind of system the user asks for, choosing the prompt template, and turning
 * the model's reply into a draft (a fenced JSON block when there is one, a canned fallback
 * otherwise). The chat completion call itself is a parameter: a function from the request
 * that is sent to the reply that comes back (content, or the error it raised).
 */
module AiService {
  import opened Wrappers
  import opened Text
  import opened DocData
  import opened Keywords
  import opened Json
  import Modification

  // ---------------------------------------------------------------------------------------
  // Blank screens

  /** Which of the four sections are empty: conditions, supplement, first-sheet cells, mock-up. */
  function EmptySections(context: WebUIData): (r: seq<bool>)
    ensures |r| == 4
  {
    [ !HasText(context.conditions),
      !HasText(context.supplement),
      FirstSheetCells(context) == [],
      !HasMockup(context) ]
  }

  /** The number of `true` entries. */
  function CountTrue(bs: seq<bool>): (n: nat)
    ensures n <= |bs|
  {
    if bs == [] then 0 else (if bs[0] then 1 else 0) + CountTrue(bs[1..])
  }

  /** The screen counts as blank when at least three of its four sections are empty. */
  predicate IsWebUIBlank(context: WebUIData)
  {
    CountTrue(EmptySections(context)) >= 3
  }

  /** Blank exactly when at most one section holds content: any two filled sections make it non-blank. */
  lemma BlankIffAtMostOneFilled(context: WebUIData)
    ensures IsWebUIBlank(context) <==>
              forall i, j :: 0 <= i < j < 4 ==> EmptySections(context)[i] || EmptySections(context)[j]
  {
    var e := EmptySections(context);
    assert e[1..] == [e[1], e[2], e[3]];
    assert e[1..][1..] == [e[2], e[3]];
    assert e[1..][1..][1..] == [e[3]];
    assert e[1..][1..][1..][1..] == [];
    assert CountTrue(e[1..][1..][1..]) == (if e[3] then 1 else 0);
    assert CountTrue(e[1..][1..]) == (if e[2] then 1 else 0) + (if e[3] then 1 else 0);
    assert CountTrue(e[1..]) == (if e[1] then 1 else 0) + (if e[2] then 1 else 0) + (if e[3] then 1 else 0);
    var n := CountTrue(e);
    assert n == (if e[0] then 1 else 0) + (if e[1] then 1 else 0) + (if e[2] then 1 else 0) + (if e[3] then 1 else 0);
    if n >= 3 {
      forall i, j | 0 <= i < j < 4 ensures e[i] || e[j] { }
    } else {
      var i, j :| 0 <= i < j < 4 && !e[i] && !e[j];
    }
  }

  // ---------------------------------------------------------------------------------------
  // Target type

  /** The if/else-if ladder of target types, in the order it is checked. */
  const TargetRules: seq<Rule<string>> := [
    Rule(["ec", "商品", "カート", "注文"], "ecommerce"),
    Rule(["管理", "admin", "ユーザー管理"], "admin"),
    Rule(["ログイン", "認証", "login"], "auth"),
    Rule(["ランディング", "lp", "トップ"], "landing"),
    Rule(["ブログ", "記事", "cms"], "blog")
  ]

  /** The kind of system the prompt asks for, by the first keyword group its lower-cased text mentions. */
  function InferTargetType(prompt: string): string
  {
    FirstMatch(Lower(prompt), TargetRules, "general")
  }

  /** The target type is the answer of the first keyword group the prompt mentions. */
  lemma InferTargetTypeSpec(prompt: string, k: nat)
    requires k < |TargetRules| && MentionsAny(Lower(prompt), TargetRules[k].words)
    requires forall j :: 0 <= j < k ==> !MentionsAny(Lower(prompt), TargetRules[j].words)
    ensures InferTargetType(prompt) == TargetRules[k].result
  {
    FirstMatchAt(Lower(prompt), TargetRules, "general", k);
  }

  /** With no keyword of any group in the prompt, the target type is `general`. */
  lemma InferGeneral(prompt: string)
    requires forall j :: 0 <= j < |TargetRules| ==> !MentionsAny(Lower(prompt), TargetRules[j].words)
    ensures InferTargetType(prompt) == "general"
  {
    FirstMatchNone(Lower(prompt), TargetRules, "general");
  }

  /**
   * `ec` is checked first and as a bare substring, so every prompt whose lower-cased text
   * contains it (`project`, `select`, `section`, …) is taken for an e-commerce system.
   */
  lemma EcWinsOverEverything(prompt: string)
    requires Contains(Lower(prompt), "ec")
    ensures InferTargetType(prompt) == "ecommerce"
  {
    assert TargetRules[0].words[0] == "ec";
    FirstMatchAt(Lower(prompt), TargetRules, "general", 0);
  }

  /** `ユーザー管理` never decides anything: every text containing it also contains `管理`, checked before it. */
  lemma UserAdminKeywordRedundant(s: string)
    requires Contains(s, "ユーザー管理")
    ensures Contains(s, "管理")
  {
    assert "ユーザー管理"[4..6] == "管理";
    assert MatchAt("ユーザー管理", "管理", 4);
    ContainsTrans(s, "ユーザー管理", "管理");
  }

  // ---------------------------------------------------------------------------------------
  // Prompts and requests

  /** A design-generation request; `targetType` is optional and `''` counts as absent. */
  datatype DesignRequest = DesignRequest(prompt: string, context: WebUIData, targetType: Option<string>)

  /**
   * The system prompt, by template and the values interpolated into it (the fixed Japanese
   * wording around them is not modelled).
   */
  datatype SystemPrompt =
    | BlankUIPrompt(target: string)
    | DetailedPrompt(conditionsPreview: string, supplementPreview: string, cellCount: nat,
                     mockupUploaded: bool, target: string)
    | ChatPrompt(conditionsLength: nat, supplementLength: nat, cellCount: nat, hasMockup: bool)

  /** One chat-completion call: model, system prompt, user prompt, temperature and token limit. */
  datatype CompletionRequest = CompletionRequest(model: string, system: SystemPrompt, user: string,
                                                 temperature: real, maxTokens: nat)

  /** The target type used: the request's own when given and non-empty, else the inferred one. */
  function TargetTypeOf(request: DesignRequest): (r: string)
    ensures request.targetType.Some? && request.targetType.value != "" ==> r == request.targetType.value
    ensures (request.targetType.None? || request.targetType.value == "") ==> r == InferTargetType(request.prompt)
  {
    if request.targetType.Some? && request.targetType.value != "" then request.targetType.value
    else InferTargetType(request.prompt)
  }

  /** `s.substring(0, 200) || '未入力'`. */
  function Preview(s: string): (r: string)
    ensures s != "" ==> r == Prefix(s, 200) && |r| <= 200
    ensures s == "" ==> r == "未入力"
  {
    if s != "" then Prefix(s, 200) else "未入力"
  }

  /** The system prompt for a design draft: the all-in-one template when the screen is blank. */
  function CreateSystemPrompt(context: WebUIData, target: string, blank: bool): (r: SystemPrompt)
    ensures r.BlankUIPrompt? <==> blank
    ensures !r.ChatPrompt? && r.target == target
    ensures r.DetailedPrompt? ==>
              r.cellCount == |FirstSheetCells(context)| && (r.mockupUploaded <==> HasMockup(context))
  {
    if blank then BlankUIPrompt(target)
    else DetailedPrompt(Preview(context.conditions), Preview(context.supplement),
                        |FirstSheetCells(context)|, HasMockup(context), target)
  }

  /** The completion request a design draft sends. */
  function DraftRequest(request: DesignRequest): (r: CompletionRequest)
    ensures r.model == "gpt-4o" && r.user == request.prompt
    ensures r.system.BlankUIPrompt? <==> IsWebUIBlank(request.context)
    ensures !r.system.ChatPrompt? && r.system.target == TargetTypeOf(request)
  {
    CompletionRequest("gpt-4o",
                      CreateSystemPrompt(request.context, TargetTypeOf(request), IsWebUIBlank(request.context)),
                      request.prompt, 0.7, 2000)
  }

  /** An explicit, non-empty target type is what the prompt carries, whatever the prompt text says. */
  lemma ExplicitTargetWins(request: DesignRequest, t: string)
    requires request.targetType == Some(t) && t != ""
    ensures DraftRequest(request).system.target == t
  {
  }

  // ---------------------------------------------------------------------------------------
  // Drafts

  datatype DraftType = Spreadsheet | Conditions | Supplement | Mixed

  /** A generated draft; fields the draft does not set are `undefined` (JUndef). */
  datatype GeneratedDraft = GeneratedDraft(kind: DraftType, spreadsheetData: Json, conditions: Json, supplement: Json)

  /** A draft as `parseAIResponse` can build it from JSON: a single-part draft sets only its own field. */
  predicate WellFormedDraft(d: GeneratedDraft)
  {
    match d.kind
    case Spreadsheet => d.conditions.JUndef? && d.supplement.JUndef?
    case Conditions => d.spreadsheetData.JUndef? && d.supplement.JUndef?
    case Supplement => d.spreadsheetData.JUndef? && d.conditions.JUndef?
    case Mixed => true
  }

  /** The heading the text fallback puts above the raw reply. */
  const FallbackHeading := "# AI生成コンテンツ\n\n"

  /** Prompt words that make the text fallback produce a spreadsheet. */
  const SheetWords: seq<string> := ["項目", "スプレッドシート", "定義"]

  /** A cell object `{r, c, v}`. */
  function CellJson(r: nat, c: nat, v: string): Json
  {
    JObj([Member("r", JNum(r as real, NatToString(r))), Member("c", JNum(c as real, NatToString(c))),
          Member("v", JStr(v))])
  }

  /** The six cells of the canned sheet: a header row and one generated row. */
  const SampleSheet: seq<Json> := [
    CellJson(0, 0, "項目名"), CellJson(0, 1, "型"), CellJson(0, 2, "必須"),
    CellJson(1, 0, "生成された項目"), CellJson(1, 1, "文字列"), CellJson(1, 2, "○")
  ]

  /**
   * The fallback when the reply holds no usable JSON: the canned sheet when the prompt asks
   * for items or definitions, else the whole reply under a heading as display conditions.
   */
  function ParseTextResponse(response: string, prompt: string): (r: GeneratedDraft)
    ensures WellFormedDraft(r)
    ensures r.kind == Spreadsheet <==> MentionsAny(Lower(prompt), SheetWords)
    ensures r.kind == Spreadsheet ==> r.spreadsheetData == JArr(SampleSheet) && |SampleSheet| == 6
    ensures r.kind != Spreadsheet ==>
              r.kind == Conditions && r.conditions.JStr? && |FallbackHeading| <= |r.conditions.s| &&
              r.conditions.s[|FallbackHeading|..] == response
  {
    if MentionsAny(Lower(prompt), SheetWords) then GeneratedDraft(Spreadsheet, JArr(SampleSheet), JUndef, JUndef)
    else GeneratedDraft(Conditions, JUndef, JStr(FallbackHeading + response), JUndef)
  }

  /** The draft a parsed JSON value describes, by its `type`; None for any other `type`. */
  function DraftFromJson(j: Json): (r: Option<GeneratedDraft>)
    ensures r.Some? ==> WellFormedDraft(r.value)
  {
    var t := Get(j, "type");
    if t == JStr("spreadsheet") then Some(GeneratedDraft(Spreadsheet, Get(j, "data"), JUndef, JUndef))
    else if t == JStr("conditions") then Some(GeneratedDraft(Conditions, JUndef, Get(j, "content"), JUndef))
    else if t == JStr("supplement") then Some(GeneratedDraft(Supplement, JUndef, JUndef, Get(j, "content")))
    else if t == JStr("mixed") then
      Some(GeneratedDraft(Mixed, Get(j, "spreadsheetData"), Get(j, "conditions"), Get(j, "supplement")))
    else None
  }

  /**
   * The draft in a reply: the fenced JSON block's value when it parses (a parse error or a
   * `null` value raises and is caught) and has a known `type`; otherwise the text fallback.
   * `parse` is `JSON.parse`, None where it throws.
   */
  function ParseAIResponse(response: string, prompt: string, parse: string -> Option<Json>): (r: GeneratedDraft)
    ensures WellFormedDraft(r)
  {
    match Modification.JsonBlock(response)
    case None => ParseTextResponse(response, prompt)
    case Some(block) =>
      match parse(block)
      case None => ParseTextResponse(response, prompt)
      case Some(j) =>
        if j.JUndef? || j.JNull? then ParseTextResponse(response, prompt)
        else
          match DraftFromJson(j)
          case None => ParseTextResponse(response, prompt)
          case Some(d) => d
  }

  /** The JSON the prompt templates ask the model to answer with, for a draft. */
  function DraftJson(d: GeneratedDraft): (j: Json)
  {
    match d.kind
    case Spreadsheet => JObj([Member("type", JStr("spreadsheet")), Member("data", d.spreadsheetData)])
    case Conditions => JObj([Member("type", JStr("conditions")), Member("content", d.conditions)])
    case Supplement => JObj([Member("type", JStr("supplement")), Member("content", d.supplement)])
    case Mixed => JObj([Member("type", JStr("mixed")), Member("spreadsheetData", d.spreadsheetData),
                        Member("conditions", d.conditions), Member("supplement", d.supplement)])
  }

  /** Reading back the JSON of a well-formed draft gives that draft. */
  lemma DraftJsonRoundTrip(d: GeneratedDraft)
    requires WellFormedDraft(d)
    ensures DraftFromJson(DraftJson(d)) == Some(d)
  {
    var ms := DraftJson(d).members;
    match d.kind
    case Spreadsheet =>
      assert Get(DraftJson(d), "type") == JStr("spreadsheet") by { LookupAt(ms, 0, "type"); }
      assert Get(DraftJson(d), "data") == d.spreadsheetData;
    case Conditions =>
      assert Get(DraftJson(d), "type") == JStr("conditions") by { LookupAt(ms, 0, "type"); }
      assert Get(DraftJson(d), "content") == d.conditions;
    case Supplement =>
      assert Get(DraftJson(d), "type") == JStr("supplement") by { LookupAt(ms, 0, "type"); }
      assert Get(DraftJson(d), "content") == d.supplement;
    case Mixed =>
      assert Get(DraftJson(d), "type") == JStr("mixed") by { LookupAt(ms, 0, "type"); }
      assert Get(DraftJson(d), "spreadsheetData") == d.spreadsheetData by { LookupAt(ms, 1, "spreadsheetData"); }
      assert Get(DraftJson(d), "conditions") == d.conditions by { LookupAt(ms, 2, "conditions"); }
      assert Get(DraftJson(d), "supplement") == d.supplement;
  }

  /** A reply whose fenced block parses to the JSON of a draft yields exactly that draft, whatever the prompt. */
  lemma ParseAIResponseReadsBlock(response: string, prompt: string, parse: string -> Option<Json>,
                                  block: string, d: GeneratedDraft)
    requires Modification.JsonBlock(response) == Some(block) && parse(block) == Some(DraftJson(d))
    requires WellFormedDraft(d)
    ensures ParseAIResponse(response, prompt, parse) == d
  {
    DraftJsonRoundTrip(d);
  }

  /** A missing block, a parse error, a `null` value or an unknown `type` all fall back to the text parser. */
  lemma ParseAIResponseFallsBack(response: string, prompt: string, parse: string -> Option<Json>)
    ensures Modification.JsonBlock(response).None? ==>
              ParseAIResponse(response, prompt, parse) == ParseTextResponse(response, prompt)
    ensures Modification.JsonBlock(response).Some? && parse(Modification.JsonBlock(response).value).None? ==>
              ParseAIResponse(response, prompt, parse) == ParseTextResponse(response, prompt)
    ensures Modification.JsonBlock(response).Some? && parse(Modification.JsonBlock(response).value).Some? &&
            DraftFromJson(parse(Modification.JsonBlock(response).value).value).None? ==>
              ParseAIResponse(response, prompt, parse) == ParseTextResponse(response, prompt)
  {
  }

  /** A reply without a `json` fence is parsed as text. */
  lemma UnfencedReplyIsText(response: string, prompt: string, parse: string -> Option<Json>)
    requires !Contains(response, "```json")
    ensures ParseAIResponse(response, prompt, parse) == ParseTextResponse(response, prompt)
  {
    Modification.JsonBlockShape(response);
  }

  /** The error message `generateDesignDraft` throws when the completion call fails. */
  const DraftFailure := "AI生成に失敗しました。APIキーとネットワーク接続を確認してください。"

  /**
   * A design draft: send `DraftRequest(request)`; a failing call raises the fixed message,
   * a reply (empty when it had no content) is parsed.
   */
  function GenerateDesignDraft(request: DesignRequest, complete: CompletionRequest -> Outcome<string>,
                               parse: string -> Option<Json>): (r: Outcome<GeneratedDraft>)
    ensures r.Raised? <==> complete(DraftRequest(request)).Raised?
    ensures r.Raised? ==> r.message == DraftFailure
    ensures r.Ok? ==> WellFormedDraft(r.value)
    ensures r.Ok? ==> r.value == ParseAIResponse(complete(DraftRequest(request)).value, request.prompt, parse)
  {
    match complete(DraftRequest(request))
    case Raised(_) => Raised(DraftFailure)
    case Ok(content) => Ok(ParseAIResponse(content, request.prompt, parse))
  }

  /** An empty reply never fails to produce a draft: it takes the text fallback. */
  lemma EmptyReplyFallsBack(request: DesignRequest, complete: CompletionRequest -> Outcome<string>,
                            parse: string -> Option<Json>)
    requires complete(DraftRequest(request)) == Ok("")
    ensures GenerateDesignDraft(request, complete, parse) == Ok(ParseTextResponse("", request.prompt))
  {
    UnfencedReplyIsText("", request.prompt, parse);
  }

  // ---------------------------------------------------------------------------------------
  // Chat

  const ChatEmptyReply := "すみません、応答の生成に失敗しました。"
  const ChatFailure := "AI応答の生成に失敗しました。しばらく時間をおいて再試行してください。"

  /** The chat request: the data summary (lengths, cell count, mock-up flag) and the user's message. */
  function ChatRequest(userMessage: string, context: WebUIData): (r: CompletionRequest)
    ensures r.user == userMessage && r.system.ChatPrompt?
    ensures r.system.conditionsLength == |context.conditions| && r.system.supplementLength == |context.supplement|
    ensures r.system.cellCount == |FirstSheetCells(context)| && (r.system.hasMockup <==> HasMockup(context))
  {
    CompletionRequest("gpt-4o",
                      ChatPrompt(|context.conditions|, |context.supplement|, |FirstSheetCells(context)|, HasMockup(context)),
                      userMessage, 0.3, 800)
  }

  /**
   * A chat reply that never raises: the completion's content, a fixed apology when it is
   * empty, a fixed failure message when the call fails.
   */
  function GenerateChatResponse(userMessage: string, context: WebUIData,
                                complete: CompletionRequest -> Outcome<string>): (r: string)
    ensures r != ""
    ensures complete(ChatRequest(userMessage, context)).Raised? ==> r == ChatFailure
    ensures complete(ChatRequest(userMessage, context)) == Ok("") ==> r == ChatEmptyReply
    ensures complete(ChatRequest(userMessage, context)).Ok? && complete(ChatRequest(userMessage, context)).value != "" ==>
              r == complete(ChatRequest(userMessage, context)).value
  {
    match complete(ChatRequest(userMessage, context))
    case Raised(_) => ChatFailure
    case Ok(content) => if content != "" then content else ChatEmptyReply
  }

  /** The chat reply is the model's text whenever the model said something, and a fixed message otherwise. */
  lemma ChatReplyOrigin(userMessage: string, context: WebUIData, complete: CompletionRequest -> Outcome<string>)
    ensures var r := GenerateChatResponse(userMessage, context, complete);
            r == ChatFailure || r == ChatEmptyReply ||
            complete(ChatRequest(userMessage, context)) == Ok(r)
  {
  }
}
