/**
 * The two MCP tools of `mcp-server/src/mdai_mcp_server/tools/design_draft_generator.py`:
 * `generate_design_draft` and `generate_chat_response`. Each forwards its arguments to a
 * method of the AI service and wraps what comes back, or builds an error envelope from
 * whatever was raised inside its `try`.
 *
 * The AI service method is a parameter of type `Option<…>`: `None` when the service object
 * has no such method. The AI service of this repository defines neither method, so as
 * shipped both tools always take their error branch (lemmas `DraftAsShipped`,
 * `ChatAsShipped`). The arguments are typed `Optional[Dict]` / `Optional[str]` and the MCP
 * framework validates them against those types, so a context is a dict or `None` here.
 */
module DraftTools {
  import opened Wrappers
  import Json
  import HttpServer

  /** What can be raised inside a tool's `try`; `str(e)` of each comes from the interpreter. */
  datatype Failure =
    | MissingMethod(name: string)           // `ai_service.<name>` does not exist (AttributeError)
    | ServiceRaised(message: string)        // the service method raised; its `str(e)` is `message`
    | NotSubscriptable                      // `x['key']` on a value that is not a dict
    | MissingKey(key: string)               // `d['key']` on a dict without that key (KeyError)
    | NoLength                              // `len(x)` on a value without a length (TypeError)

  /** The interpreter: `str(e)` for the failures it words, and the two clock readings. */
  datatype Engine = Engine(text: Failure -> string, isoNow: string, localNow: string)

  /** `str(e)`: a service's exception keeps its own message. */
  function Str(engine: Engine, f: Failure): (s: string)
    ensures f.ServiceRaised? ==> s == f.message
  {
    if f.ServiceRaised? then f.message else engine.text(f)
  }

  /** Python's `x or default` on an optional string: `None` and `''` give the default. */
  function OrDefault(x: Option<string>, default: string): (r: string)
    ensures x.Some? && x.value != "" ==> r == x.value
    ensures x.None? || x.value == "" ==> r == default
  {
    if x.Some? && x.value != "" then x.value else default
  }

  /** `context or {}`: an absent (or empty) context is passed on as an empty dict. */
  function ContextOrEmpty(context: Option<seq<Json.Member>>): (r: seq<Json.Member>)
    ensures context.Some? ==> r == context.value
    ensures context.None? ==> r == []
  {
    context.GetOr([])
  }

  /** A dict value that `len` accepts. */
  predicate Sized(v: Json.Json)
  {
    v.JStr? || v.JArr? || v.JObj?
  }

  /** The failure, if any, raised while `d[key]` is evaluated. */
  function IndexFailure(v: Json.Json, key: string): (f: Option<Failure>)
    ensures f.None? <==> v.JObj? && key in HttpServer.Keys(v.members)
  {
    if !v.JObj? then Some(NotSubscriptable)
    else if key !in HttpServer.Keys(v.members) then Some(MissingKey(key))
    else None
  }

  /**
   * What the success log lines of `generate_design_draft` (lines 49-57) raise, if anything:
   * they read `result['metadata']` and its `mode`, `ai_provider` and `target_type`, and take
   * the length of `spreadsheetData` and `markdownContent` when present.
   */
  function LogFailure(result: Json.Json): (f: Option<Failure>)
    ensures f.None? ==> result.JObj? && "metadata" in HttpServer.Keys(result.members)
  {
    match IndexFailure(result, "metadata")
    case Some(f) => Some(f)
    case None =>
      var metadata := Json.Lookup(result.members, "metadata");
      if IndexFailure(metadata, "mode").Some? then IndexFailure(metadata, "mode")
      else if IndexFailure(metadata, "ai_provider").Some? then IndexFailure(metadata, "ai_provider")
      else if IndexFailure(metadata, "target_type").Some? then IndexFailure(metadata, "target_type")
      else if "spreadsheetData" in HttpServer.Keys(result.members)
              && !Sized(Json.Lookup(result.members, "spreadsheetData")) then Some(NoLength)
      else if "markdownContent" in HttpServer.Keys(result.members)
              && !Sized(Json.Lookup(result.members, "markdownContent")) then Some(NoLength)
      else None
  }

  // ---------------------------------------------------------------------------
  // generate_design_draft
  // ---------------------------------------------------------------------------

  /** The single spreadsheet row of the error envelope. */
  datatype ErrorRow = ErrorRow(itemName: string, dataType: string, required: string, description: string)

  datatype DraftErrorMetadata = DraftErrorMetadata(
    generatedAt: string, promptUsed: string, mode: string, targetType: string,
    projectContext: Option<seq<Json.Member>>, serverVersion: string, generationType: string, error: string)

  /** What `generate_design_draft` returns: the service's own result, or the error envelope. */
  datatype DraftReply =
    | Draft(result: Json.Json)
    | DraftError(spreadsheetData: seq<ErrorRow>, markdownContent: string, metadata: DraftErrorMetadata)

  /** The service method `generate_design_draft(prompt, context, target_type, project_context)`. */
  type DraftService = (string, seq<Json.Member>, Option<string>, Option<seq<Json.Member>>) -> Outcome<Json.Json>

  /**
   * The error envelope of lines 66-101. The Markdown page is the template
   * `page(local time, str(e), prompt, target_type or 'auto-detect')`.
   */
  function DraftErrorReply(engine: Engine, f: Failure, prompt: string, targetType: Option<string>,
                           projectContext: Option<seq<Json.Member>>,
                           page: (string, string, string, string) -> string): DraftReply
  {
    var e := Str(engine, f);
    DraftError([ErrorRow("エラー", "string", "○", "生成エラー: " + e)],
               page(engine.localNow, e, prompt, OrDefault(targetType, "auto-detect")),
               DraftErrorMetadata(engine.isoNow, prompt, "error", OrDefault(targetType, "unknown"),
                                  projectContext, HttpServer.ServerVersion, "error_response", e))
  }

  /** `generate_design_draft` (lines 16-103). */
  function GenerateDesignDraft(service: Option<DraftService>, engine: Engine, prompt: string,
                               context: Option<seq<Json.Member>>, targetType: Option<string>,
                               projectContext: Option<seq<Json.Member>>,
                               page: (string, string, string, string) -> string): (r: DraftReply)
    ensures r.Draft? ==> service.Some?
    ensures r.DraftError? ==> |r.spreadsheetData| == 1 && r.metadata.mode == "error"
  {
    match service
    case None => DraftErrorReply(engine, MissingMethod("generate_design_draft"), prompt, targetType, projectContext, page)
    case Some(generate) =>
      match generate(prompt, ContextOrEmpty(context), targetType, projectContext)
      case Raised(message) => DraftErrorReply(engine, ServiceRaised(message), prompt, targetType, projectContext, page)
      case Ok(result) =>
        match LogFailure(result)
        case Some(f) => DraftErrorReply(engine, f, prompt, targetType, projectContext, page)
        case None => Draft(result)
  }

  /**
   * The tool never raises: it returns the service's result untouched exactly when the service
   * answered and the log lines could read that answer, and otherwise the error envelope whose
   * single row and metadata carry `str(e)`, with the target type defaulting to `unknown`.
   */
  lemma DraftOutcomes(service: Option<DraftService>, engine: Engine, prompt: string,
                      context: Option<seq<Json.Member>>, targetType: Option<string>,
                      projectContext: Option<seq<Json.Member>>, page: (string, string, string, string) -> string)
    ensures var r := GenerateDesignDraft(service, engine, prompt, context, targetType, projectContext, page);
            (r.Draft? <==> service.Some?
                           && service.value(prompt, ContextOrEmpty(context), targetType, projectContext).Ok?
                           && LogFailure(service.value(prompt, ContextOrEmpty(context), targetType, projectContext).value).None?)
            && (r.Draft? ==> r.result == service.value(prompt, ContextOrEmpty(context), targetType, projectContext).value)
            && (r.DraftError? ==>
                  r.spreadsheetData[0].itemName == "エラー"
                  && r.spreadsheetData[0].description == "生成エラー: " + r.metadata.error
                  && r.metadata.targetType == OrDefault(targetType, "unknown")
                  && r.metadata.promptUsed == prompt && r.metadata.projectContext == projectContext
                  && r.metadata.generationType == "error_response")
  {
  }

  /** A service exception's message is what the envelope reports. */
  lemma DraftReportsServiceMessage(generate: DraftService, engine: Engine, prompt: string,
                                   context: Option<seq<Json.Member>>, targetType: Option<string>,
                                   projectContext: Option<seq<Json.Member>>, page: (string, string, string, string) -> string)
    requires generate(prompt, ContextOrEmpty(context), targetType, projectContext).Raised?
    ensures GenerateDesignDraft(Some(generate), engine, prompt, context, targetType, projectContext, page).DraftError?
    ensures GenerateDesignDraft(Some(generate), engine, prompt, context, targetType, projectContext, page).metadata.error
            == generate(prompt, ContextOrEmpty(context), targetType, projectContext).message
  {
  }

  /** An answer without `metadata.mode` is turned into an error by the log line that reads it. */
  lemma DraftWithoutModeFails(generate: DraftService, engine: Engine, prompt: string,
                              context: Option<seq<Json.Member>>, targetType: Option<string>,
                              projectContext: Option<seq<Json.Member>>, page: (string, string, string, string) -> string)
    requires generate(prompt, ContextOrEmpty(context), targetType, projectContext) == Ok(Json.JObj([Json.Member("metadata", Json.JObj([]))]))
    ensures GenerateDesignDraft(Some(generate), engine, prompt, context, targetType, projectContext, page).DraftError?
    ensures GenerateDesignDraft(Some(generate), engine, prompt, context, targetType, projectContext, page).metadata.error
            == engine.text(MissingKey("mode"))
  {
    var ms := [Json.Member("metadata", Json.JObj([]))];
    assert ms[0].key == "metadata";
    assert "metadata" in HttpServer.Keys(ms);
    assert Json.Lookup(ms, "metadata") == Json.JObj([]);
    assert "mode" !in HttpServer.Keys([]);
  }

  /** An absent context and an empty one reach the service identically. */
  lemma DraftNoneContextIsEmptyDict(service: Option<DraftService>, engine: Engine, prompt: string,
                                    targetType: Option<string>, projectContext: Option<seq<Json.Member>>,
                                    page: (string, string, string, string) -> string)
    ensures GenerateDesignDraft(service, engine, prompt, None, targetType, projectContext, page)
            == GenerateDesignDraft(service, engine, prompt, Some([]), targetType, projectContext, page)
  {
  }

  /** As shipped the service has no `generate_design_draft`, so every call returns the error envelope. */
  lemma DraftAsShipped(engine: Engine, prompt: string, context: Option<seq<Json.Member>>, targetType: Option<string>,
                       projectContext: Option<seq<Json.Member>>, page: (string, string, string, string) -> string)
    ensures GenerateDesignDraft(None, engine, prompt, context, targetType, projectContext, page).DraftError?
    ensures GenerateDesignDraft(None, engine, prompt, context, targetType, projectContext, page).metadata.error
            == engine.text(MissingMethod("generate_design_draft"))
  {
  }

  // ---------------------------------------------------------------------------
  // generate_chat_response
  // ---------------------------------------------------------------------------

  datatype ChatMetadata = ChatMetadata(
    generatedAt: string, messageUsed: string, mode: string, documentType: string,
    projectContext: Option<seq<Json.Member>>, serverVersion: string, generationType: string,
    error: Option<string>)

  /** What `generate_chat_response` returns: always a response and its metadata. */
  datatype ChatReply = ChatReply(response: Json.Json, metadata: ChatMetadata)

  /** The service method `generate_chat_response(user_message, context, document_type, project_context)`. */
  type ChatService = (string, seq<Json.Member>, Option<string>, Option<seq<Json.Member>>) -> Outcome<Json.Json>

  /** The chat error reply of lines 162-188; the apology text is `apology(local time, str(e), message)`. */
  function ChatErrorReply(engine: Engine, f: Failure, userMessage: string, documentType: Option<string>,
                          projectContext: Option<seq<Json.Member>>,
                          apology: (string, string, string) -> string): ChatReply
  {
    var e := Str(engine, f);
    ChatReply(Json.JStr(apology(engine.localNow, e, userMessage)),
              ChatMetadata(engine.isoNow, userMessage, "error", OrDefault(documentType, "general"),
                           projectContext, HttpServer.ServerVersion, "error_response", Some(e)))
  }

  /** `generate_chat_response` (lines 106-190); the success log line takes `len(response)`. */
  function GenerateChatResponse(service: Option<ChatService>, engine: Engine, userMessage: string,
                                context: Option<seq<Json.Member>>, documentType: Option<string>,
                                projectContext: Option<seq<Json.Member>>,
                                apology: (string, string, string) -> string): (r: ChatReply)
    ensures r.metadata.documentType == OrDefault(documentType, "general")
    ensures r.metadata.messageUsed == userMessage
  {
    match service
    case None => ChatErrorReply(engine, MissingMethod("generate_chat_response"), userMessage, documentType, projectContext, apology)
    case Some(respond) =>
      match respond(userMessage, ContextOrEmpty(context), documentType, projectContext)
      case Raised(message) => ChatErrorReply(engine, ServiceRaised(message), userMessage, documentType, projectContext, apology)
      case Ok(response) =>
        if !Sized(response) then ChatErrorReply(engine, NoLength, userMessage, documentType, projectContext, apology)
        else ChatReply(response, ChatMetadata(engine.isoNow, userMessage, "chat_response", OrDefault(documentType, "general"),
                                              projectContext, HttpServer.ServerVersion, "ai_chat_response", None))
  }

  /**
   * A chat call succeeds (mode `chat_response`, the service's response passed on) exactly when
   * the service answered with a value that has a length; every failure still carries a
   * response string, with mode `error` and the error text in the metadata.
   */
  lemma ChatOutcomes(service: Option<ChatService>, engine: Engine, userMessage: string,
                     context: Option<seq<Json.Member>>, documentType: Option<string>,
                     projectContext: Option<seq<Json.Member>>, apology: (string, string, string) -> string)
    ensures var r := GenerateChatResponse(service, engine, userMessage, context, documentType, projectContext, apology);
            var answer := if service.Some? then Some(service.value(userMessage, ContextOrEmpty(context), documentType, projectContext))
                          else None;
            (r.metadata.mode == "chat_response" <==> answer.Some? && answer.value.Ok? && Sized(answer.value.value))
            && (r.metadata.mode == "chat_response" ==> r.response == answer.value.value && r.metadata.error.None?
                                                       && r.metadata.generationType == "ai_chat_response")
            && (r.metadata.mode != "chat_response" ==> r.metadata.mode == "error" && r.response.JStr?
                                                       && r.metadata.error.Some?
                                                       && r.metadata.generationType == "error_response")
  {
  }

  /** An absent context and an empty one reach the chat service identically. */
  lemma ChatNoneContextIsEmptyDict(service: Option<ChatService>, engine: Engine, userMessage: string,
                                   documentType: Option<string>, projectContext: Option<seq<Json.Member>>,
                                   apology: (string, string, string) -> string)
    ensures GenerateChatResponse(service, engine, userMessage, None, documentType, projectContext, apology)
            == GenerateChatResponse(service, engine, userMessage, Some([]), documentType, projectContext, apology)
  {
  }

  /** As shipped the service has no `generate_chat_response`, so every call is an apology with mode `error`. */
  lemma ChatAsShipped(engine: Engine, userMessage: string, context: Option<seq<Json.Member>>,
                      documentType: Option<string>, projectContext: Option<seq<Json.Member>>,
                      apology: (string, string, string) -> string)
    ensures GenerateChatResponse(None, engine, userMessage, context, documentType, projectContext, apology).metadata.mode == "error"
    ensures GenerateChatResponse(None, engine, userMessage, context, documentType, projectContext, apology).metadata.error
            == Some(engine.text(MissingMethod("generate_chat_response")))
  {
  }
}
