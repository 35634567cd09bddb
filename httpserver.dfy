/**
 * The MCP HTTP bridge of the Python server (`mcp-server/src/mdai_mcp_server/http_server.py`):
 * a registry of three tools filled at start-up, and a POST handler that reads a JSON-RPC-like
 * body, routes `method` to a tool, passes `params` as keyword or positional arguments and
 * wraps the outcome as `{"result": …, "id": …}` or `{"error": {"code": -32603, …}, "id": …}`.
 *
 * The body arrives as a parsed JSON value (`None` when it does not parse). Python's own
 * exception texts (`str(e)` of a TypeError, of the framework's HTTPException, …) are taken
 * as given through `Engine.text`, which the model applies to the fault it determines; the
 * printed value of a non-string (`f"{x}"`) likewise comes from `Engine.show`.
 */
module HttpServer {
  import opened Wrappers
  import Json
  import ServerAiService

  // ---------------------------------------------------------------------------
  // Python views of parsed JSON
  // ---------------------------------------------------------------------------

  /** The keys of a parsed dict. */
  function Keys(ms: seq<Json.Member>): set<string>
  {
    set i | 0 <= i < |ms| :: ms[i].key
  }

  /** `d.get(key, default)`: the value under `key` (the last duplicate wins, as with `json.loads`), or `default`. */
  function DictGet(ms: seq<Json.Member>, key: string, default: Json.Json): Json.Json
  {
    if key in Keys(ms) then Json.Lookup(ms, key) else default
  }

  // ---------------------------------------------------------------------------
  // Faults, and the interpreter around the handler
  // ---------------------------------------------------------------------------

  /** The exceptions the handler can meet; their text is the interpreter's. */
  datatype Fault =
    | MalformedBody                             // `await request.json()` failed
    | UnknownMethod(detail: string)             // the `HTTPException(400, detail)` raised at line 210
    | UnhashableMethod                          // `method in tools_registry` with a list or dict method
    | UnexpectedKeyword(tool: string, key: string)
    | MissingPrompt                             // `generate_data_model()` called without `prompt`
    | TooManyPositional(tool: string)           // a positional argument to a tool that takes none
    | NoGetOnContext                            // `project_context.get` on a truthy non-dict
    | JoinNeedsStrings                          // `', '.join(references)` over something else than strings
    | BodyNotObject                             // `body.get` on a body that is not a dict

  /**
   * What the model takes from the Python runtime: `str(e)` for each fault, `f"{v}"` for a
   * non-string value, and the two clock readings (ISO timestamp and `%Y-%m-%d %H:%M:%S`).
   */
  datatype Engine = Engine(text: Fault -> string, show: Json.Json -> string, isoNow: string, localNow: string)

  /** `f"{v}"`: a string prints as itself. */
  function PyStr(engine: Engine, v: Json.Json): string
  {
    if v.JStr? then v.s else engine.show(v)
  }

  /** A tool call either returns or raises one of the faults above. */
  datatype Call<T> = Done(value: T) | Fails(fault: Fault)

  // ---------------------------------------------------------------------------
  // The registry
  // ---------------------------------------------------------------------------

  datatype Tool = GenerateDataModelTool | PingTool | ServerInfoTool

  const GenerateDataModelName := "generate_data_model"
  const PingName := "ping"
  const ServerInfoName := "get_server_info"
  const ServerVersion := "0.1.0"
  const TestingMode := "fixed_response_testing"

  /** JSON-RPC 2.0 "Internal error" (section 5.1 of the JSON-RPC 2.0 specification). */
  const InternalError := -32603

  /** What `register_tools` puts into `tools_registry`. */
  function Registered(): (m: map<string, Tool>)
    ensures m.Keys == {GenerateDataModelName, PingName, ServerInfoName}
    ensures m[GenerateDataModelName] == GenerateDataModelTool
    ensures m[PingName] == PingTool && m[ServerInfoName] == ServerInfoTool
  {
    map[GenerateDataModelName := GenerateDataModelTool, PingName := PingTool, ServerInfoName := ServerInfoTool]
  }

  // ---------------------------------------------------------------------------
  // Argument passing
  // ---------------------------------------------------------------------------

  /** How `params` reaches the tool: `**params`, a single positional argument, or nothing. */
  datatype Args = NoArgs | Keywords(members: seq<Json.Member>) | Positional(value: Json.Json)

  /** Lines 218-224: a truthy dict is spread as keywords, another truthy value passed positionally, a falsy one dropped. */
  function ArgsOf(params: Json.Json): (a: Args)
    ensures a.NoArgs? <==> !Json.PyTruthy(params)
    ensures a.Keywords? <==> Json.PyTruthy(params) && params.JObj?
    ensures a.Keywords? ==> a.members == params.members && a.members != []
    ensures a.Positional? ==> a.value == params && !params.JObj?
  {
    if !Json.PyTruthy(params) then NoArgs
    else if params.JObj? then Keywords(params.members)
    else Positional(params)
  }

  /** The arguments `generate_data_model(prompt, project_context=None, references=None)` binds. */
  datatype DataModelArgs = DataModelArgs(prompt: Json.Json, projectContext: Json.Json, references: Json.Json)

  const DataModelParameters: set<string> := {"prompt", "project_context", "references"}

  /** The first keyword in `ms` outside `allowed`, the one Python reports. */
  function FirstUnexpected(ms: seq<Json.Member>, allowed: set<string>): (k: Option<string>)
    ensures k.None? <==> Keys(ms) <= allowed
    ensures k.Some? ==> k.value in Keys(ms) && k.value !in allowed
  {
    if ms == [] then None
    else if ms[0].key !in allowed then Some(ms[0].key)
    else
      var k := FirstUnexpected(ms[1..], allowed);
      assert Keys(ms) == {ms[0].key} + Keys(ms[1..]) by {
        forall x | x in Keys(ms) ensures x in {ms[0].key} + Keys(ms[1..]) {
          var i :| 0 <= i < |ms| && ms[i].key == x;
          if i > 0 { assert ms[1..][i - 1].key == x; }
        }
      }
      k
  }

  /** Binding the arguments of `generate_data_model`: unexpected keywords are reported before a missing `prompt`. */
  function BindDataModel(args: Args): (c: Call<DataModelArgs>)
    ensures args.NoArgs? ==> c == Fails(MissingPrompt)
    ensures args.Positional? ==> c == Done(DataModelArgs(args.value, Json.JNull, Json.JNull))
    ensures args.Keywords? && c.Done? ==>
              Keys(args.members) <= DataModelParameters && "prompt" in Keys(args.members)
    ensures args.Keywords? && Keys(args.members) <= DataModelParameters && "prompt" in Keys(args.members) ==>
              c.Done? && c.value.prompt == Json.Lookup(args.members, "prompt")
  {
    match args
    case NoArgs => Fails(MissingPrompt)
    case Positional(v) => Done(DataModelArgs(v, Json.JNull, Json.JNull))
    case Keywords(ms) =>
      match FirstUnexpected(ms, DataModelParameters)
      case Some(k) => Fails(UnexpectedKeyword(GenerateDataModelName, k))
      case None =>
        if "prompt" !in Keys(ms) then Fails(MissingPrompt)
        else Done(DataModelArgs(Json.Lookup(ms, "prompt"),
                                DictGet(ms, "project_context", Json.JNull),
                                DictGet(ms, "references", Json.JNull)))
  }

  /** A tool without parameters accepts only the empty call. */
  function BindNothing(tool: string, args: Args): (c: Call<()>)
    ensures c.Done? <==> args.NoArgs? || args == Keywords([])
  {
    match args
    case NoArgs => Done(())
    case Keywords(ms) => if ms == [] then Done(()) else Fails(UnexpectedKeyword(tool, ms[0].key))
    case Positional(_) => Fails(TooManyPositional(tool))
  }

  // ---------------------------------------------------------------------------
  // The three tools
  // ---------------------------------------------------------------------------

  datatype DataModelMetadata = DataModelMetadata(
    generatedAt: string, promptUsed: Json.Json, mode: string, projectContext: Json.Json,
    references: Json.Json, serverVersion: string, generationType: string)

  datatype ToolResult =
    | DataModel(mermaidCode: string, supplement: string, metadata: DataModelMetadata)
    | Pong(status: string, message: string, timestamp: string, serverName: string, version: string, mode: string)
    | Info(serverName: string, version: string, description: string, mode: string,
           availableTools: seq<string>, status: string, uptime: string, timestamp: string)

  /** The diagram `generate_data_model` always returns; the same text as the AI service's fallback diagram. */
  const FixedMermaid := ServerAiService.FallbackMermaid

  const UnknownProject := "不明"

  /** The project name the tool prints: `project_context.get('name', '不明')` for a truthy context. */
  function ProjectName(engine: Engine, projectContext: Json.Json): (c: Call<string>)
    ensures !Json.PyTruthy(projectContext) ==> c == Done(UnknownProject)
    ensures c.Fails? <==> Json.PyTruthy(projectContext) && !projectContext.JObj?
  {
    if !Json.PyTruthy(projectContext) then Done(UnknownProject)
    else if projectContext.JObj? then Done(PyStr(engine, DictGet(projectContext.members, "name", Json.JStr(UnknownProject))))
    else Fails(NoGetOnContext)
  }

  /** The distinct keys of a dict in the order Python iterates them (first insertion). */
  function DictKeys(ms: seq<Json.Member>): (r: seq<string>)
    ensures forall k :: k in r <==> k in Keys(ms)
  {
    if ms == [] then []
    else
      var rest := DictKeys(ms[..|ms| - 1]);
      assert Keys(ms) == Keys(ms[..|ms| - 1]) + {ms[|ms| - 1].key} by {
        forall x | x in Keys(ms) ensures x in Keys(ms[..|ms| - 1]) + {ms[|ms| - 1].key} {
          var i :| 0 <= i < |ms| && ms[i].key == x;
          if i < |ms| - 1 { assert ms[..|ms| - 1][i].key == x; }
        }
      }
      if ms[|ms| - 1].key in rest then rest else rest + [ms[|ms| - 1].key]
  }

  /** `', '.join(parts)`. */
  function JoinComma(parts: seq<string>): string
  {
    if parts == [] then ""
    else if |parts| == 1 then parts[0]
    else JoinComma(parts[..|parts| - 1]) + ", " + parts[|parts| - 1]
  }

  /** The string items of a list, when every item is a string. */
  function StringItems(items: seq<Json.Json>): (r: Option<seq<string>>)
    ensures r.Some? <==> forall i :: 0 <= i < |items| ==> items[i].JStr?
    ensures r.Some? ==> |r.value| == |items| && forall i :: 0 <= i < |items| ==> r.value[i] == items[i].s
  {
    if items == [] then Some([])
    else
      match StringItems(items[..|items| - 1])
      case None => None
      case Some(init) =>
        if items[|items| - 1].JStr? then Some(init + [items[|items| - 1].s]) else None
  }

  /** What iterating `references` yields for `join`: a list's strings, a string's characters, a dict's keys. */
  function IteratedStrings(references: Json.Json): (r: Option<seq<string>>)
    ensures references.JStr? ==> r == Some(seq(|references.s|, i requires 0 <= i < |references.s| => [references.s[i]]))
    ensures references.JObj? ==> r == Some(DictKeys(references.members))
    ensures !(references.JStr? || references.JObj? || references.JArr?) ==> r.None?
  {
    match references
    case JArr(items) => StringItems(items)
    case JStr(s) => Some(seq(|s|, i requires 0 <= i < |s| => [s[i]]))
    case JObj(ms) => Some(DictKeys(ms))
    case _ => None
  }

  const NoReferencesLine := "参照設計書: なし"
  const ReferencesPrefix := "参照された設計書: "

  /** The last line of the supplement: the joined references when there are any, else the "none" line. */
  function ReferencesLine(references: Json.Json): (c: Call<string>)
    ensures !Json.PyTruthy(references) ==> c == Done(NoReferencesLine)
    ensures references.JArr? && Json.PyTruthy(references) ==>
              (c.Done? <==> forall i :: 0 <= i < |references.items| ==> references.items[i].JStr?)
    ensures c.Fails? ==> c.fault == JoinNeedsStrings
  {
    if !Json.PyTruthy(references) then Done(NoReferencesLine)
    else match IteratedStrings(references)
      case None => Fails(JoinNeedsStrings)
      case Some(parts) => Done(ReferencesPrefix + JoinComma(parts))
  }

  /**
   * The fixed `generate_data_model` of lines 34-143. The Japanese supplement template is taken as
   * `supplement(time, prompt, project name, references line)`.
   */
  function RunDataModel(a: DataModelArgs, engine: Engine, supplement: (string, string, string, string) -> string)
    : (c: Call<ToolResult>)
    ensures c.Done? ==> c.value.DataModel? && c.value.mermaidCode == FixedMermaid
    ensures c.Done? ==> c.value.metadata.promptUsed == a.prompt && c.value.metadata.mode == "fixed_response"
    ensures c.Done? ==> c.value.metadata.references == (if Json.PyTruthy(a.references) then a.references else Json.JArr([]))
    ensures c.Fails? <==> ProjectName(engine, a.projectContext).Fails? || ReferencesLine(a.references).Fails?
  {
    match ProjectName(engine, a.projectContext)
    case Fails(f) => Fails(f)
    case Done(name) =>
      match ReferencesLine(a.references)
      case Fails(f) => Fails(f)
      case Done(line) =>
        Done(DataModel(
          FixedMermaid,
          supplement(engine.localNow, PyStr(engine, a.prompt), name, line),
          DataModelMetadata(engine.isoNow, a.prompt, "fixed_response", a.projectContext,
                            if Json.PyTruthy(a.references) then a.references else Json.JArr([]),
                            ServerVersion, "fixed_mermaid_for_testing")))
  }

  /** `ping` (lines 145-159). */
  function PingResult(engine: Engine): ToolResult
  {
    Pong("ok", "MDAI MCP Server is running!", engine.isoNow, "mdai-model-server", ServerVersion, TestingMode)
  }

  /** `get_server_info` (lines 161-181). */
  function ServerInfoResult(engine: Engine): ToolResult
  {
    Info("MDAI MCP Server", ServerVersion, "データモデル設計書生成用MCPサーバー", TestingMode,
         [GenerateDataModelName, PingName, ServerInfoName], "ready", "running", engine.isoNow)
  }

  /** Calling a registered tool with the arguments `params` gives. */
  function CallTool(tool: Tool, args: Args, engine: Engine, supplement: (string, string, string, string) -> string)
    : (c: Call<ToolResult>)
  {
    match tool
    case GenerateDataModelTool =>
      (match BindDataModel(args)
       case Fails(f) => Fails(f)
       case Done(a) => RunDataModel(a, engine, supplement))
    case PingTool =>
      (match BindNothing(PingName, args)
       case Fails(f) => Fails(f)
       case Done(_) => Done(PingResult(engine)))
    case ServerInfoTool =>
      (match BindNothing(ServerInfoName, args)
       case Fails(f) => Fails(f)
       case Done(_) => Done(ServerInfoResult(engine)))
  }

  // ---------------------------------------------------------------------------
  // The handler
  // ---------------------------------------------------------------------------

  /** The reply dict, or an exception that escapes the handler (the framework then answers 500). */
  datatype Reply =
    | Answer(result: ToolResult, id: Json.Json)
    | Error(code: int, message: string, id: Json.Json)
    | Escaped

  /** Routing `method` (lines 209-224): an unhashable method, an unknown one, or the tool's own call. */
  function Route(tools: map<string, Tool>, callee: Json.Json, params: Json.Json, engine: Engine,
                 supplement: (string, string, string, string) -> string): (c: Call<ToolResult>)
    ensures (callee.JArr? || callee.JObj?) ==> c == Fails(UnhashableMethod)
    ensures !(callee.JArr? || callee.JObj?) && !(callee.JStr? && callee.s in tools) ==>
              c == Fails(UnknownMethod("Unknown method: " + PyStr(engine, callee)))
  {
    if callee.JArr? || callee.JObj? then Fails(UnhashableMethod)
    else if !(callee.JStr? && callee.s in tools) then Fails(UnknownMethod("Unknown method: " + PyStr(engine, callee)))
    else CallTool(tools[callee.s], ArgsOf(params), engine, supplement)
  }

  /** The reply to a dict body, shared by the handler as written and the corrected one. */
  function ReplyTo(tools: map<string, Tool>, ms: seq<Json.Member>, engine: Engine,
                   supplement: (string, string, string, string) -> string): (r: Reply)
    ensures !r.Escaped?
    ensures r.id == DictGet(ms, "id", Json.JNull)
    ensures r.Error? ==> r.code == InternalError
  {
    var id := DictGet(ms, "id", Json.JNull);
    match Route(tools, DictGet(ms, "method", Json.JNull), DictGet(ms, "params", Json.JObj([])), engine, supplement)
    case Done(result) => Answer(result, id)
    case Fails(f) => Error(InternalError, engine.text(f), id)
  }

  /**
   * `handle_mcp_request` as written (lines 196-244). A body that is not a dict makes `body.get`
   * raise, and the `except` clause calls `body.get("id")` again, so that exception escapes.
   */
  function HandleMcpRequest(tools: map<string, Tool>, body: Option<Json.Json>, engine: Engine,
                            supplement: (string, string, string, string) -> string): (r: Reply)
    ensures body.None? ==> r == Error(InternalError, engine.text(MalformedBody), Json.JNull)
    ensures r.Escaped? <==> body.Some? && !body.value.JObj?
    ensures r.Error? ==> r.code == InternalError
  {
    match body
    case None => Error(InternalError, engine.text(MalformedBody), Json.JNull)
    case Some(b) =>
      if b.JObj? then ReplyTo(tools, b.members, engine, supplement) else Escaped
  }

  /** The handler with the `except` clause reading the id only from a dict body: every request gets a reply. */
  function HandleMcpRequestCorrected(tools: map<string, Tool>, body: Option<Json.Json>, engine: Engine,
                                     supplement: (string, string, string, string) -> string): (r: Reply)
    ensures !r.Escaped?
    ensures body.Some? && !body.value.JObj? ==> r == Error(InternalError, engine.text(BodyNotObject), Json.JNull)
    ensures r.Error? ==> r.code == InternalError
  {
    match body
    case None => Error(InternalError, engine.text(MalformedBody), Json.JNull)
    case Some(b) =>
      if b.JObj? then ReplyTo(tools, b.members, engine, supplement)
      else Error(InternalError, engine.text(BodyNotObject), Json.JNull)
  }

  // ---------------------------------------------------------------------------
  // The module-level registry and the endpoint
  // ---------------------------------------------------------------------------

  /** `tools_registry`, filled by `register_tools` and read by the POST handler. */
  class McpHttpServer {
    var tools: map<string, Tool>

    /** The dict starts empty (line 29). */
    constructor()
      ensures tools == map[]
    {
      tools := map[];
    }

    /** `register_tools` (lines 183-186): the three names are (re)bound; other entries stay. */
    method RegisterTools()
      modifies this
      ensures tools == old(tools) + Registered()
      ensures tools.Keys == old(tools.Keys) + {GenerateDataModelName, PingName, ServerInfoName}
    {
      tools := tools[GenerateDataModelName := GenerateDataModelTool];
      tools := tools[PingName := PingTool];
      tools := tools[ServerInfoName := ServerInfoTool];
    }

    /** The POST `/` endpoint over the current registry. */
    method Handle(body: Option<Json.Json>, engine: Engine, supplement: (string, string, string, string) -> string)
      returns (reply: Reply)
      ensures reply == HandleMcpRequest(tools, body, engine, supplement)
    {
      reply := HandleMcpRequest(tools, body, engine, supplement);
    }
  }

  /** After start-up the registry holds exactly the three tools. */
  method StartUp() returns (server: McpHttpServer)
    ensures fresh(server)
    ensures server.tools == Registered()
    ensures server.tools.Keys == {GenerateDataModelName, PingName, ServerInfoName}
  {
    server := new McpHttpServer();
    server.RegisterTools();
    assert map[] + Registered() == Registered();
  }

  // ---------------------------------------------------------------------------
  // Properties
  // ---------------------------------------------------------------------------

  /** A `result` reply comes only from a registered string method; its id is the body's `id` (null when absent). */
  lemma AnswerOnlyForRegisteredMethod(tools: map<string, Tool>, body: Option<Json.Json>, engine: Engine,
                                      supplement: (string, string, string, string) -> string)
    ensures var r := HandleMcpRequest(tools, body, engine, supplement);
            r.Answer? ==>
              body.Some? && body.value.JObj? &&
              var callee := DictGet(body.value.members, "method", Json.JNull);
              callee.JStr? && callee.s in tools &&
              r.id == DictGet(body.value.members, "id", Json.JNull)
  {
  }

  /** An unknown string method never yields a `result`: the 400 exception is caught and reported as -32603. */
  lemma UnknownMethodIsInternalError(tools: map<string, Tool>, ms: seq<Json.Member>, callee: string, engine: Engine,
                                     supplement: (string, string, string, string) -> string)
    requires DictGet(ms, "method", Json.JNull) == Json.JStr(callee) && callee !in tools
    ensures HandleMcpRequest(tools, Some(Json.JObj(ms)), engine, supplement) ==
              Error(InternalError, engine.text(UnknownMethod("Unknown method: " + callee)), DictGet(ms, "id", Json.JNull))
  {
  }

  /** A body without `method` is routed as `None`: on the registry that is an unknown method too. */
  lemma MissingMethodIsUnknown(ms: seq<Json.Member>, engine: Engine, supplement: (string, string, string, string) -> string)
    requires "method" !in Keys(ms)
    ensures HandleMcpRequest(Registered(), Some(Json.JObj(ms)), engine, supplement) ==
              Error(InternalError, engine.text(UnknownMethod("Unknown method: " + engine.show(Json.JNull))),
                    DictGet(ms, "id", Json.JNull))
  {
  }

  /** `ping` answers exactly the call without arguments, and always with status `"ok"`. */
  lemma PingSpec(params: Json.Json, engine: Engine, supplement: (string, string, string, string) -> string)
    ensures CallTool(PingTool, ArgsOf(params), engine, supplement).Done? <==> !Json.PyTruthy(params)
    ensures CallTool(PingTool, ArgsOf(params), engine, supplement).Done? ==>
              CallTool(PingTool, ArgsOf(params), engine, supplement).value.status == "ok"
  {
  }

  /** `get_server_info` lists exactly the registered tool names, with status `"ready"`. */
  lemma ServerInfoListsRegistry(engine: Engine)
    ensures var info := ServerInfoResult(engine);
            info.status == "ready" &&
            |info.availableTools| == 3 &&
            (forall i :: 0 <= i < |info.availableTools| ==> info.availableTools[i] in Registered()) &&
            (forall name :: name in Registered() ==> name in info.availableTools)
  {
  }

  /** Two successful `generate_data_model` calls return the same diagram whatever their arguments. */
  lemma DataModelIsConstant(a1: DataModelArgs, a2: DataModelArgs, engine1: Engine, engine2: Engine,
                            s1: (string, string, string, string) -> string, s2: (string, string, string, string) -> string)
    requires RunDataModel(a1, engine1, s1).Done? && RunDataModel(a2, engine2, s2).Done?
    ensures RunDataModel(a1, engine1, s1).value.mermaidCode == RunDataModel(a2, engine2, s2).value.mermaidCode
  {
  }

  /** A prompt alone always succeeds, with `references` reported as `[]` and the "none" references line. */
  lemma PromptOnlySucceeds(prompt: Json.Json, engine: Engine, supplement: (string, string, string, string) -> string)
    ensures var c := CallTool(GenerateDataModelTool, Positional(prompt), engine, supplement);
            c.Done? && c.value.metadata.references == Json.JArr([]) &&
            c.value.supplement == supplement(engine.localNow, PyStr(engine, prompt), UnknownProject, NoReferencesLine)
  {
  }

  /** As written, a JSON body that is not an object gets no JSON reply at all. */
  lemma NonObjectBodyEscapes(tools: map<string, Tool>, items: seq<Json.Json>, engine: Engine,
                             supplement: (string, string, string, string) -> string)
    ensures HandleMcpRequest(tools, Some(Json.JArr(items)), engine, supplement) == Escaped
  {
  }

  /** The corrected handler differs from the written one only where that one lets the exception escape. */
  lemma CorrectedAgreesOnReplies(tools: map<string, Tool>, body: Option<Json.Json>, engine: Engine,
                                 supplement: (string, string, string, string) -> string)
    ensures !HandleMcpRequest(tools, body, engine, supplement).Escaped? ==>
              HandleMcpRequestCorrected(tools, body, engine, supplement) == HandleMcpRequest(tools, body, engine, supplement)
    ensures HandleMcpRequest(tools, body, engine, supplement).Escaped? ==>
              HandleMcpRequestCorrected(tools, body, engine, supplement).Error? &&
              HandleMcpRequestCorrected(tools, body, engine, supplement).id == Json.JNull
  {
  }
}
