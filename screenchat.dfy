/**
 * The screen-design chat panel: how it classifies a message, resolves `@`-mentions of data
 * model documents into prompt context, picks one of its handlers in a fixed order, turns a
 * generated draft into update callbacks, and keeps its message list while a reply is awaited.
 *
 * The panel's parent data (the two Markdown fields, the sheets, the mock-up) is a parameter;
 * the callbacks it fires are returned as a list of `Update`s; the MCP and modification
 * services are function parameters whose outcome is either a value or a raised error.
 */
module ScreenChat {
  import opened Wrappers
  import opened Text
  import opened Keywords
  import opened DocData
  import opened ChatShared
  import Lists
  import DocRefs
  import Storage
  import Modification
  import Backup
  import Json

  // ---------------------------------------------------------------------------------------
  // Classifiers

  const ScreenWords: seq<string> :=
    ["画面", "フォーム", "レイアウト", "ui", "ux", "表示",
     "項目", "定義", "スプレッドシート", "入力", "ボタン",
     "ログイン", "管理", "一覧", "crud", "ec", "ランディング",
     "作って", "生成", "作成"]

  /** `isScreenDesignRequest`: the lower-cased message contains one of the screen words. */
  predicate IsScreenDesignRequest(message: string)
  {
    MentionsAny(Lower(message), ScreenWords)
  }

  /** `isModificationRequest`: the lower-cased message contains one of the modification phrases. */
  predicate IsModificationRequest(message: string)
  {
    MentionsAny(Lower(message), ModificationWords)
  }

  /** Both classifiers ignore ASCII case: a message and its lower case are classified alike. */
  lemma ClassifiersIgnoreCase(message: string)
    ensures IsScreenDesignRequest(Lower(message)) <==> IsScreenDesignRequest(message)
    ensures IsModificationRequest(Lower(message)) <==> IsModificationRequest(message)
  {
    LowerTwice(message);
  }

  /**
   * The two-letter words match inside unrelated English words: "record" mentions `ec` and
   * "build" mentions `ui`, so both are taken as screen-design requests.
   */
  lemma ShortWordsMatchInsideWords()
    ensures IsScreenDesignRequest("record")
    ensures IsScreenDesignRequest("build")
  {
    LowerWithoutCapitals("record");
    assert "record"[1..3] == "ec";
    assert MatchAt("record", ScreenWords[15], 1);
    LowerWithoutCapitals("build");
    assert "build"[1..3] == "ui";
    assert MatchAt("build", ScreenWords[3], 1);
  }

  /** Capital letters count: "UI" is a screen word, as is "CRUD". */
  lemma CapitalsMatch()
    ensures IsScreenDesignRequest("UI")
    ensures IsScreenDesignRequest("CRUD")
  {
    assert Lower("UI") == "ui" by {
      assert Lower("UI")[0] == LowerChar('U') == 'u';
      assert Lower("UI")[1] == LowerChar('I') == 'i';
    }
    assert MatchAt(Lower("UI"), ScreenWords[3], 0);
    assert Lower("CRUD") == "crud" by {
      assert Lower("CRUD")[0] == 'c' && Lower("CRUD")[1] == 'r';
      assert Lower("CRUD")[2] == 'u' && Lower("CRUD")[3] == 'd';
    }
    assert MatchAt(Lower("CRUD"), ScreenWords[14], 0);
  }

  /**
   * `hasExistingData`: some content is present: conditions or supplement with a
   * non-whitespace character, a first sheet with cells, or a non-empty mock-up.
   */
  predicate HasExistingData(data: WebUIData)
  {
    HasText(data.conditions) || |FirstSheetCells(data)| > 0 || HasText(data.supplement) || HasMockup(data)
  }

  /** Existing data stated with `trim()`: blank Markdown does not count, an empty first sheet does not either. */
  lemma ExistingDataIff(data: WebUIData)
    ensures HasExistingData(data) <==>
              Trim(data.conditions) != "" || Trim(data.supplement) != ""
              || (|data.sheets| > 0 && data.sheets[0].celldata.Some? && |data.sheets[0].celldata.value| > 0)
              || (data.mockup.Some? && |data.mockup.value| > 0)
  {
    HasTextIffTrimmed(data.conditions);
    HasTextIffTrimmed(data.supplement);
  }

  // ---------------------------------------------------------------------------------------
  // Applying a generated draft (`applyGeneratedDraft`)

  /**
   * The draft object the MCP server answers with: `kind` is its `type` ('' when missing), a
   * field it lacks is None.
   */
  datatype Draft = Draft(kind: string, spreadsheetData: Option<seq<Cell>>, conditions: Option<string>,
                         supplement: Option<string>)

  /** A string field is truthy: present and non-empty. */
  predicate Filled(s: Option<string>)
  {
    s.Some? && s.value != ""
  }

  /** `Math.max(...xs) + 1`; None stands for `-Infinity`. */
  function Extent(xs: seq<int>): Option<int>
  {
    match Lists.MaxOf(xs)
    case None => None
    case Some(m) => Some(m + 1)
  }

  function RowsOf(cells: seq<Cell>): seq<int>
  {
    seq(|cells|, i requires 0 <= i < |cells| => cells[i].r)
  }

  function ColumnsOf(cells: seq<Cell>): seq<int>
  {
    seq(|cells|, i requires 0 <= i < |cells| => cells[i].c)
  }

  /** The sheet a draft installs; `row`/`column` are None where the source computes `-Infinity`. */
  datatype GeneratedSheet = GeneratedSheet(name: string, id: string, celldata: seq<Cell>,
                                           row: Option<int>, column: Option<int>)

  function SheetOf(cells: seq<Cell>, id: string): GeneratedSheet
  {
    GeneratedSheet("AI生成シート", id, cells, Extent(RowsOf(cells)), Extent(ColumnsOf(cells)))
  }

  /**
   * The generated sheet's size: for a non-empty cell list `row`/`column` are one past the
   * largest row/column index, so every cell lies inside and the last row and column are used;
   * for an empty list both are `-Infinity`.
   */
  lemma SheetCoversCells(cells: seq<Cell>, id: string)
    ensures var sheet := SheetOf(cells, id);
            (cells == [] <==> sheet.row.None?) && (cells == [] <==> sheet.column.None?)
            && (cells != [] ==>
                  (forall i :: 0 <= i < |cells| ==> cells[i].r < sheet.row.value && cells[i].c < sheet.column.value)
                  && (exists i :: 0 <= i < |cells| && cells[i].r == sheet.row.value - 1)
                  && (exists j :: 0 <= j < |cells| && cells[j].c == sheet.column.value - 1))
  {
    var rows, cols := RowsOf(cells), ColumnsOf(cells);
    if cells != [] {
      var mr, mc := Lists.MaxOf(rows), Lists.MaxOf(cols);
      var i :| 0 <= i < |rows| && rows[i] == mr.value;
      var j :| 0 <= j < |cols| && cols[j] == mc.value;
      assert cells[i].r == SheetOf(cells, id).row.value - 1;
      assert cells[j].c == SheetOf(cells, id).column.value - 1;
      forall k | 0 <= k < |cells|
        ensures cells[k].r < SheetOf(cells, id).row.value && cells[k].c < SheetOf(cells, id).column.value
      {
        assert rows[k] == cells[k].r && cols[k] == cells[k].c;
      }
    }
  }

  /** A callback the panel invokes on its parent. */
  datatype Update =
    | SetConditions(text: string)
    | SetSupplement(text: string)
    | SetSheet(sheet: GeneratedSheet)
    | SetSheets(sheets: seq<Sheet>)
    | ShowBackupManager

  /** Callbacks fired and text produced by one part of the draft handling. */
  datatype Effect = Effect(calls: seq<Update>, reply: string)

  function Then(a: Effect, b: Effect): Effect
  {
    Effect(a.calls + b.calls, a.reply + b.reply)
  }

  const Skip := Effect([], "")

  const DraftHead := "✅ **AI生成コンテンツをWebUIに反映しました！**\n\n"
  const DraftTail := "🎉 生成が完了しました！さらに修正や追加が必要でしたらお知らせください。"

  /** The `spreadsheet` branch: fires when the draft has a cell list, even an empty one. */
  function SheetPart(d: Draft): Effect
  {
    if d.kind == "spreadsheet" && d.spreadsheetData.Some? then
      var cells := d.spreadsheetData.value;
      Effect([SetSheet(SheetOf(cells, "ai-generated-sheet"))],
              "📊 **スプレッドシート**: 項目定義データを生成\n" + "- " + NatToString(|cells|) + "個のセルを生成\n"
              + "- 「項目定義」タブで確認してください\n\n")
    else Skip
  }

  function ConditionsPart(d: Draft): Effect
  {
    if d.kind == "conditions" && Filled(d.conditions) then
      Effect([SetConditions(d.conditions.value)],
              "📝 **表示条件**: Markdownコンテンツを生成\n" + "- 「表示条件」タブで確認してください\n\n")
    else Skip
  }

  function SupplementPart(d: Draft): Effect
  {
    if d.kind == "supplement" && Filled(d.supplement) then
      Effect([SetSupplement(d.supplement.value)],
              "📋 **補足説明**: Markdownコンテンツを生成\n" + "- 「補足説明」セクションで確認してください\n\n")
    else Skip
  }

  /** The `mixed` branch: each present part fires in the order sheet, conditions, supplement. */
  function MixedPart(d: Draft): Effect
  {
    if d.kind == "mixed" then
      var sheet := if d.spreadsheetData.Some? then
                     Effect([SetSheet(SheetOf(d.spreadsheetData.value, "ai-generated-mixed-sheet"))],
                             "📊 **スプレッドシート**: 項目定義データ\n")
                   else Skip;
      var conditions := if Filled(d.conditions) then
                          Effect([SetConditions(d.conditions.value)], "📝 **表示条件**: Markdownコンテンツ\n")
                        else Skip;
      var supplement := if Filled(d.supplement) then
                          Effect([SetSupplement(d.supplement.value)], "📋 **補足説明**: Markdownコンテンツ\n")
                        else Skip;
      Then(Then(Then(sheet, conditions), supplement), Effect([], "\n各タブで生成されたコンテンツを確認してください。\n\n"))
    else Skip
  }

  /** `applyGeneratedDraft`: the callbacks the draft's type selects, and the summary text. */
  function ApplyGeneratedDraft(d: Draft): Effect
  {
    var body := Then(Then(Then(SheetPart(d), ConditionsPart(d)), SupplementPart(d)), MixedPart(d));
    Effect(body.calls, DraftHead + body.reply + DraftTail)
  }

  /** The draft types the panel knows. */
  predicate KnownKind(kind: string)
  {
    kind == "spreadsheet" || kind == "conditions" || kind == "supplement" || kind == "mixed"
  }

  /** The callbacks of a draft, branch by branch. */
  function DraftCalls(d: Draft): seq<Update>
  {
    var sheet := if d.spreadsheetData.Some? then
                   [SetSheet(SheetOf(d.spreadsheetData.value,
                                     if d.kind == "spreadsheet" then "ai-generated-sheet" else "ai-generated-mixed-sheet"))]
                 else [];
    var conditions := if Filled(d.conditions) then [SetConditions(d.conditions.value)] else [];
    var supplement := if Filled(d.supplement) then [SetSupplement(d.supplement.value)] else [];
    if d.kind == "spreadsheet" then sheet
    else if d.kind == "conditions" then conditions
    else if d.kind == "supplement" then supplement
    else if d.kind == "mixed" then sheet + conditions + supplement
    else []
  }

  lemma CallsByBranch(d: Draft)
    ensures ApplyGeneratedDraft(d).calls == DraftCalls(d)
  {
    assert ApplyGeneratedDraft(d).calls == SheetPart(d).calls + ConditionsPart(d).calls
                                           + SupplementPart(d).calls + MixedPart(d).calls;
  }

  /**
   * The draft's type selects the callbacks: an unknown type fires none; a sheet is installed
   * exactly when the type is `spreadsheet` or `mixed` and a cell list is present; the
   * conditions (the supplement) are set exactly when the type is `conditions` (`supplement`)
   * or `mixed` and the draft's text is non-empty, and then to that text.
   */
  lemma DraftTypeSelectsCallbacks(d: Draft)
    ensures var calls := ApplyGeneratedDraft(d).calls;
            (!KnownKind(d.kind) ==> calls == [])
            && ((exists u :: u in calls && u.SetSheet?) <==>
                  (d.kind == "spreadsheet" || d.kind == "mixed") && d.spreadsheetData.Some?)
            && (forall t :: SetConditions(t) in calls <==>
                  (d.kind == "conditions" || d.kind == "mixed") && Filled(d.conditions) && t == d.conditions.value)
            && (forall t :: SetSupplement(t) in calls <==>
                  (d.kind == "supplement" || d.kind == "mixed") && Filled(d.supplement) && t == d.supplement.value)
  {
    CallsByBranch(d);
    var calls := DraftCalls(d);
    if (d.kind == "spreadsheet" || d.kind == "mixed") && d.spreadsheetData.Some? {
      assert calls[0].SetSheet?;
    }
  }

  /**
   * Each callback fires at most once and a sheet carries the draft's cells under the id of
   * its branch; the backup manager is never opened, and the summary opens with the fixed head.
   */
  lemma DraftCallsCarryDraft(d: Draft)
    ensures var a := ApplyGeneratedDraft(d);
            |a.calls| <= 3 && ShowBackupManager !in a.calls
            && (forall u :: u in a.calls && u.SetSheet? ==>
                  u.sheet == SheetOf(d.spreadsheetData.value,
                                     if d.kind == "spreadsheet" then "ai-generated-sheet" else "ai-generated-mixed-sheet"))
            && StartsWith(a.reply, DraftHead)
  {
    CallsByBranch(d);
    DraftCallsShape(d);
    var body := Then(Then(Then(SheetPart(d), ConditionsPart(d)), SupplementPart(d)), MixedPart(d));
    StartsWithConcat(DraftHead, body.reply);
    StartsWithExtend(DraftHead + body.reply, DraftTail, DraftHead);
  }

  /** The branch-by-branch callbacks: at most three, no backup manager, the sheet from the draft. */
  lemma DraftCallsShape(d: Draft)
    ensures var calls := DraftCalls(d);
            |calls| <= 3 && ShowBackupManager !in calls
            && (forall u :: u in calls && u.SetSheet? ==>
                  u.sheet == SheetOf(d.spreadsheetData.value,
                                     if d.kind == "spreadsheet" then "ai-generated-sheet" else "ai-generated-mixed-sheet"))
  {
  }

  // ---------------------------------------------------------------------------------------
  // Data-model references (`processDataModelReference`)

  function ConstraintsOf(f: DocRefs.FieldInfo): seq<string>
  {
    (if f.primaryKey then ["PK"] else []) + (if f.foreignKey then ["FK"] else [])
    + (if !f.nullable then ["NOT NULL"] else [])
  }

  /** One table row: name, type, and the constraints joined by commas. */
  function FieldLine(f: DocRefs.FieldInfo): string
  {
    "| " + f.name + " | " + f.fieldType + " | " + Join(ConstraintsOf(f), ", ") + " |\n"
  }

  /** One relationship line; every parsed relationship is one-to-many. */
  function RelationLine(rel: DocRefs.RelationshipInfo): string
  {
    "- one-to-many: " + rel.targetEntity + (if rel.description != "" then " (" + rel.description + ")" else "") + "\n"
  }

  const TableHead := "| フィールド名 | データ型 | 制約 |\n" + "|------------|----------|------|\n"

  /** One entity: a heading, its field table, its relationships when it has any, a blank line. */
  function EntityBlock(e: DocRefs.EntityInfo): string
  {
    "### " + e.name + "エンティティ\n" + TableHead + ChatShared.Lines(e.fields, FieldLine)
    + (if |e.relationships| > 0 then "\n**リレーション:**\n" + ChatShared.Lines(e.relationships, RelationLine) else "")
    + "\n"
  }

  /** The entity part of a referenced document: present only when its diagram yields entities. */
  function DiagramContext(doc: DocRefs.DocumentReference): string
  {
    match doc.content.mermaidCode
    case Some(code) =>
      if code == "" then ""
      else
        var entities := DocRefs.ParseEntities(code);
        if |entities| > 0 then DiagramHead(doc) + ChatShared.Lines(entities, EntityBlock)
        else ""
    case None => ""
  }

  /** The context one referenced data-model document contributes. */
  function ModelContext(doc: DocRefs.DocumentReference): string
  {
    DiagramContext(doc)
    + (if doc.content.supplement != "" then SupplementBlock(doc) else "")
  }

  /** The heading of a document's entity part. */
  function DiagramHead(doc: DocRefs.DocumentReference): string
  {
    "\n\n## 📊 参照データモデル: " + doc.name + "\n\n"
  }

  /** A document's supplement under its heading. */
  function SupplementBlock(doc: DocRefs.DocumentReference): string
  {
    "### 📝 補足説明\n" + doc.content.supplement + "\n\n"
  }

  /** A document adds context exactly when its diagram yields entities or it has a supplement. */
  lemma ModelContextNonEmpty(doc: DocRefs.DocumentReference)
    ensures ModelContext(doc) != "" <==>
              doc.content.supplement != ""
              || (doc.content.mermaidCode.Some? && doc.content.mermaidCode.value != ""
                  && |DocRefs.ParseEntities(doc.content.mermaidCode.value)| > 0)
  {
  }

  /** The text that replaces the first `@mention` of a referenced data model. */
  function Substitute(name: string): string
  {
    "上記のデータモデル(" + name + ")"
  }

  /** The data-model document a mention resolves to, if it resolves to one. */
  function ModelFor(s: Storage.AppState, projectId: string, mention: string): Option<DocRefs.DocumentReference>
  {
    var doc := DocRefs.FindByMention(s, projectId, mention);
    if doc.Some? && doc.value.docType == Some(Storage.Model) then doc else None
  }

  /** The mention resolver of a project: the data-model document a mention names, if any. */
  function Resolver(s: Storage.AppState, projectId: string): string -> Option<DocRefs.DocumentReference>
  {
    (m: string) => ModelFor(s, projectId, m)
  }

  /**
   * The processed message and the context after handling the mentions `ms` in order, each
   * resolved by `resolve`.
   */
  function ReferencesWith(resolve: string -> Option<DocRefs.DocumentReference>, message: string, ms: seq<string>)
    : (string, string)
  {
    if ms == [] then (message, "")
    else
      var before := ReferencesWith(resolve, message, ms[..|ms| - 1]);
      var m := ms[|ms| - 1];
      match resolve(m)
      case Some(doc) => (ReplaceFirst(before.0, "@" + m, Substitute(doc.name)), before.1 + ModelContext(doc))
      case None => before
  }

  /** Handling one more mention of a project's message, from the state after the first `i`. */
  lemma ReferencesStep(s: Storage.AppState, projectId: string, message: string, ms: seq<string>, i: nat)
    requires i < |ms|
    ensures var before := ReferencesWith(Resolver(s, projectId), message, ms[..i]);
            var after := ReferencesWith(Resolver(s, projectId), message, ms[..i + 1]);
            var doc := ModelFor(s, projectId, ms[i]);
            && (doc.None? ==> after == before)
            && (doc.Some? ==> after.0 == ReplaceFirst(before.0, "@" + ms[i], Substitute(doc.value.name)))
            && (doc.Some? ==> after.1 == before.1 + ModelContext(doc.value))
  {
    assert ms[..i + 1][..i] == ms[..i];
  }

  /** What `processDataModelReference` returns for a message: its mentions handled in order. */
  function References(s: Storage.AppState, projectId: string, message: string): (string, string)
  {
    ReferencesWith(Resolver(s, projectId), message, DocRefs.Mentions(message))
  }

  /** Mentions that resolve to no data-model document change neither the message nor the context. */
  lemma {:induction false} OtherMentionsChangeNothing(resolve: string -> Option<DocRefs.DocumentReference>,
                                                      message: string, ms: seq<string>)
    requires forall i :: 0 <= i < |ms| ==> resolve(ms[i]).None?
    ensures ReferencesWith(resolve, message, ms) == (message, "")
  {
    if ms != [] {
      OtherMentionsChangeNothing(resolve, message, ms[..|ms| - 1]);
    }
  }

  /**
   * The panel counts as having a model reference (non-empty context) exactly when some
   * mention resolves to a data-model document that contributes context.
   */
  lemma {:induction false} ContextIffContributingModel(resolve: string -> Option<DocRefs.DocumentReference>,
                                                       message: string, ms: seq<string>)
    ensures ReferencesWith(resolve, message, ms).1 != "" <==>
              exists i :: 0 <= i < |ms| && resolve(ms[i]).Some? && ModelContext(resolve(ms[i]).value) != ""
  {
    if ms != [] {
      var init := ms[..|ms| - 1];
      ContextIffContributingModel(resolve, message, init);
      ContextOfLast(resolve, message, ms);
      Lists.ExistsSplit(ms, init, m => resolve(m).Some? && ModelContext(resolve(m).value) != "");
    }
  }

  /** The context after the last mention is non-empty when it was before or that mention contributes. */
  lemma ContextOfLast(resolve: string -> Option<DocRefs.DocumentReference>, message: string, ms: seq<string>)
    requires ms != []
    ensures var m := ms[|ms| - 1];
            ReferencesWith(resolve, message, ms).1 != "" <==>
              ReferencesWith(resolve, message, ms[..|ms| - 1]).1 != ""
              || (resolve(m).Some? && ModelContext(resolve(m).value) != "")
  {
    var before := ReferencesWith(resolve, message, ms[..|ms| - 1]);
    var m := ms[|ms| - 1];
    if resolve(m).Some? {
      var c := ModelContext(resolve(m).value);
      assert ReferencesWith(resolve, message, ms).1 == before.1 + c;
      assert |before.1 + c| == |before.1| + |c|;
    }
  }

  /**
   * A data-model document with no entities and no supplement still has its mention replaced,
   * yet adds no context: the message then points at a model the prompt does not contain.
   */
  lemma EmptyModelReplacedWithoutContext(resolve: string -> Option<DocRefs.DocumentReference>, message: string,
                                         m: string)
    requires resolve(m).Some? && ModelContext(resolve(m).value) == ""
    requires Contains(message, "@" + m)
    ensures ReferencesWith(resolve, message, [m]).1 == ""
    ensures var i := IndexOf(message, "@" + m).value;
            ReferencesWith(resolve, message, [m]).0
              == message[..i] + Substitute(resolve(m).value.name) + message[i + |"@" + m|..]
  {
    assert [m][..0] == [];
    ReplaceFirstShape(message, "@" + m, Substitute(resolve(m).value.name));
  }

  /** The context block of one referenced document, built line by line. */
  method ModelContextText(doc: DocRefs.DocumentReference) returns (text: string)
    ensures text == ModelContext(doc)
  {
    text := "";
    if doc.content.mermaidCode.Some? && doc.content.mermaidCode.value != "" {
      var entities := DocRefs.ParseEntitiesFromMermaid(doc.content.mermaidCode.value);
      if |entities| > 0 {
        text := AppendLines(DiagramHead(doc), entities, EntityBlock);
      }
    }
    ContextParts(doc);
    if doc.content.supplement != "" {
      text := text + SupplementBlock(doc);
    }
  }

  /** The two parts of `ModelContext`, case by case. */
  lemma ContextParts(doc: DocRefs.DocumentReference)
    ensures ModelContext(doc) == DiagramContext(doc) + (if doc.content.supplement != "" then SupplementBlock(doc) else "")
    ensures !(doc.content.mermaidCode.Some? && doc.content.mermaidCode.value != "") ==> DiagramContext(doc) == ""
    ensures doc.content.mermaidCode.Some? && doc.content.mermaidCode.value != "" ==>
              var entities := DocRefs.ParseEntities(doc.content.mermaidCode.value);
              DiagramContext(doc) == if |entities| > 0 then DiagramHead(doc) + ChatShared.Lines(entities, EntityBlock) else ""
  {
  }

  /**
   * `processDataModelReference`: for each mention in order, a data-model document it
   * resolves to adds its context and replaces the first `@mention` in the message.
   */
  method ProcessDataModelReference(s: Storage.AppState, projectId: string, userMessage: string)
    returns (processedMessage: string, context: string)
    ensures (processedMessage, context) == References(s, projectId, userMessage)
  {
    var mentions := DocRefs.Mentions(userMessage);
    processedMessage, context := userMessage, "";
    var i := 0;
    while i < |mentions|
      invariant i <= |mentions|
      invariant processedMessage == ReferencesWith(Resolver(s, projectId), userMessage, mentions[..i]).0
      invariant context == ReferencesWith(Resolver(s, projectId), userMessage, mentions[..i]).1
    {
      ReferencesStep(s, projectId, userMessage, mentions, i);
      var doc := ModelFor(s, projectId, mentions[i]);
      if doc.Some? {
        var block := ModelContextText(doc.value);
        context := context + block;
        processedMessage := ReplaceFirst(processedMessage, "@" + mentions[i], Substitute(doc.value.name));
      }
      i := i + 1;
    }
    assert mentions[..|mentions|] == mentions;
  }

  // ---------------------------------------------------------------------------------------
  // Answering a message (`getAIResponse`)

  /** The prompt of a draft request: the message alone, or the model context followed by the message. */
  datatype DraftPrompt = PlainPrompt(message: string) | ModelDrivenPrompt(context: string, message: string)

  /** The prompt of a chat request: the panel's fixed screen-design preamble, the model context if any, the message. */
  datatype ChatPrompt = ChatPrompt(context: Option<string>, message: string)

  datatype DraftRequest = DraftRequest(prompt: DraftPrompt, context: WebUIData, targetType: string, projectId: string)
  datatype ChatRequest = ChatRequest(prompt: ChatPrompt, context: WebUIData, documentType: string, projectId: string)

  /** The services the panel calls; each answers with a value or raises. */
  datatype Services = Services(
    propose: (string, WebUIData) -> Outcome<Modification.ModificationProposal>,
    draft: DraftRequest -> Outcome<Draft>,
    chat: ChatRequest -> Outcome<string>)

  /** The `currentData` every handler builds: the panel's four fields, with no Mermaid code. */
  function CurrentData(data: WebUIData): WebUIData
  {
    data.(mermaid := "")
  }

  /** What the panel knows besides the document: the store, the current project, whether a backup manager is wired. */
  datatype Panel = Panel(state: Storage.AppState, projectId: string, hasBackupManager: bool)

  /** `currentProjectId || 'default'`. */
  function ProjectRef(projectId: string): (r: string)
    ensures r != "" && (projectId != "" ==> r == projectId)
  {
    if projectId == "" then "default" else projectId
  }

  /** The answer to one message: the reply text, messages posted before it, callbacks fired. */
  datatype Turn = Turn(reply: string, posted: seq<ChatMessage>, calls: seq<Update>)

  /** The handler `getAIResponse` picks. */
  datatype Route = Propose | WriteHistory | OpenBackup | ModelDrivenDraft | OfferChoice | NewDraft | GeneralChat

  /** How `getAIResponse` classified a message: the tests it makes, in the order it makes them. */
  datatype Signals = Signals(modification: bool, write: bool, backup: bool, modelReference: bool, screen: bool,
                             existing: bool)

  function SignalsOf(processed: string, context: string, data: WebUIData): Signals
  {
    Signals(IsModificationRequest(processed), StartsWith(processed, "/write"), StartsWith(processed, "/backup"),
            |context| > 0, IsScreenDesignRequest(processed), HasExistingData(data))
  }

  /**
   * The dispatch order: a modification request first, then `/write`, then `/backup`, then a
   * screen request with model context, then a screen request (a choice when data exists, a
   * new draft otherwise), and general chat last.
   */
  function RouteOf(g: Signals): Route
  {
    if g.modification then Propose
    else if g.write then WriteHistory
    else if g.backup then OpenBackup
    else if g.modelReference && g.screen then ModelDrivenDraft
    else if g.screen && !g.modification then (if g.existing then OfferChoice else NewDraft)
    else GeneralChat
  }

  /**
   * The order as a whole: each handler runs exactly when its own test holds and no earlier
   * one does; the `!isModification` guard on the plain screen branch never matters, and a
   * draft is generated over existing data only with model context.
   */
  lemma DispatchOrder(g: Signals)
    ensures RouteOf(g) == Propose <==> g.modification
    ensures RouteOf(g) == WriteHistory <==> !g.modification && g.write
    ensures RouteOf(g) == OpenBackup <==> !g.modification && !g.write && g.backup
    ensures RouteOf(g) == ModelDrivenDraft <==> !g.modification && !g.write && !g.backup && g.modelReference && g.screen
    ensures RouteOf(g) == OfferChoice <==>
              !g.modification && !g.write && !g.backup && !g.modelReference && g.screen && g.existing
    ensures RouteOf(g) == NewDraft <==>
              !g.modification && !g.write && !g.backup && !g.modelReference && g.screen && !g.existing
    ensures RouteOf(g) == GeneralChat <==> !g.modification && !g.write && !g.backup && !g.screen
  {
  }

  const Greeting := ChatMessage("1", "こんにちは！画面設計専用AIアシスタントです。画面設計書の生成や質問にお答えします！✨\n\n🎯 **画面設計特化機能**:\n• スプレッドシート項目定義生成\n• 表示条件作成・修正\n• 画面レイアウト提案\n• UI/UX改善提案", false, Normal)

  const LoadingText := "🤖 画面設計AI生成中..."

  function ProposalFailure(error: string): string
  {
    "❌ **修正提案生成エラー**\n\nMCP修正提案システムとの通信に失敗しました。\n\n**エラー**: " + error
    + "\n\n**対処法**:\n- MCPサーバーが起動しているか確認してください\n- しばらく時間をおいて再試行してください"
  }

  function WriteReply(count: nat, timestamp: string): string
  {
    "✅ **チャット履歴を表示条件に書き込みました！**\n\n📝 **書き込み内容:**\n- 最新" + NatToString(count)
    + "件のメッセージ\n- タイムスタンプ: " + timestamp + "\n- 書き込み先: 表示条件セクション\n\n「表示条件」タブを確認してください。"
  }

  const ModelDrivenHead := "🗄️ **Model Driven Architecture適用**\n\nデータモデル設計書の情報を基に画面設計を生成しました。\n\n"
  const DraftFailure := "❌ **設計書生成エラー**\n\nMCPサーバーとの通信に失敗しました。サーバーが起動しているか確認してください。"
  const ChoicePrompt := "上記の選択肢からご希望の操作を選んでください。"
  const ChatError := "❌ **チャット応答エラー**\n\nMCPサーバーとの通信に失敗しました。サーバーが起動しているか確認してください。"

  /**
   * The action-selection message: one line per truthy field. The sheet line tests the number
   * of sheets, not of cells.
   */
  function ChoiceMessage(data: WebUIData, processed: string, answered: nat): ChatMessage
  {
    var text := "🤔 **既存の設計書データがあります。どちらを希望しますか？**\n\n**現在のデータ状況:**\n"
                + (if data.conditions != "" then "• 表示条件: あり" else "") + "\n"
                + (if |data.sheets| > 0 then "• 項目定義: あり" else "") + "\n"
                + (if data.supplement != "" then "• 補足説明: あり" else "") + "\n"
                + (if HasMockup(data) then "• 画面イメージ: あり" else "") + "\n\n**操作を選択してください:**";
    ChatMessage(ReplyId(answered), text, false, ActionSelection(processed))
  }

  function ProposeTurn(sv: Services, data: WebUIData, processed: string, answered: nat): Turn
  {
    match sv.propose(processed, data)
    case Ok(proposal) => Turn(ProposalReply, [ProposalMessage(proposal, answered)], [])
    case Raised(e) => Turn(ProposalFailure(e), [], [])
  }

  function WriteTurn(data: WebUIData, snapshot: seq<ChatMessage>, timestamp: string): Turn
  {
    Turn(WriteReply(|Recent(snapshot)|, timestamp), [],
         [SetConditions(Written(data.conditions, History(timestamp, snapshot)))])
  }

  function BackupTurn(p: Panel): Turn
  {
    if p.hasBackupManager then Turn(BackupOpened, [], [ShowBackupManager]) else Turn(BackupUnavailable, [], [])
  }

  function DraftTurn(sv: Services, request: DraftRequest, head: string): Turn
  {
    match sv.draft(request)
    case Ok(d) => var a := ApplyGeneratedDraft(d); Turn(head + a.reply, [], a.calls)
    case Raised(_) => Turn(DraftFailure, [], [])
  }

  function ChatTurn(sv: Services, request: ChatRequest): Turn
  {
    match sv.chat(request)
    case Ok(r) => Turn(r, [], [])
    case Raised(_) => Turn(ChatError, [], [])
  }

  /** The answer by the handler the signals select, for the processed message and its context. */
  function Answer(g: Signals, p: Panel, sv: Services, data: WebUIData, snapshot: seq<ChatMessage>,
                  processed: string, context: string, answered: nat, timestamp: string): Turn
  {
    var project := ProjectRef(p.projectId);
    match RouteOf(g)
    case Propose => ProposeTurn(sv, data, processed, answered)
    case WriteHistory => WriteTurn(data, snapshot, timestamp)
    case OpenBackup => BackupTurn(p)
    case ModelDrivenDraft =>
      DraftTurn(sv, DraftRequest(ModelDrivenPrompt(context, processed), data, "screen", project), ModelDrivenHead)
    case OfferChoice => Turn(ChoicePrompt, [ChoiceMessage(data, processed, answered)], [])
    case NewDraft => DraftTurn(sv, DraftRequest(PlainPrompt(processed), data, "screen", project), "")
    case GeneralChat =>
      ChatTurn(sv, ChatRequest(ChatPrompt(if g.modelReference then Some(context) else None, processed), data,
                               "screen", project))
  }

  /**
   * `getAIResponse`: the answer to `message`, given the document, the messages the panel
   * showed when the message was sent (`snapshot`), and the clock readings.
   */
  function Respond(p: Panel, sv: Services, data: WebUIData, snapshot: seq<ChatMessage>, message: string,
                   answered: nat, timestamp: string): Turn
  {
    var refs := References(p.state, p.projectId, message);
    var current := CurrentData(data);
    Answer(SignalsOf(refs.0, refs.1, current), p, sv, current, snapshot, refs.0, refs.1, answered, timestamp)
  }

  /**
   * Without model context, existing data is never overwritten: the only callbacks are the
   * backup manager and the history write, which keeps the conditions text before the history
   * (it only appends, or cuts after a second heading).
   */
  lemma ExistingDataNotOverwritten(g: Signals, p: Panel, sv: Services, data: WebUIData, snapshot: seq<ChatMessage>,
                                   processed: string, context: string, answered: nat, timestamp: string)
    requires g.existing && !g.modelReference
    ensures var calls := Answer(g, p, sv, data, snapshot, processed, context, answered, timestamp).calls;
            calls == [] || calls == [ShowBackupManager]
            || calls == [SetConditions(Written(data.conditions, History(timestamp, snapshot)))]
  {
    var t := Answer(g, p, sv, data, snapshot, processed, context, answered, timestamp);
    var r := RouteOf(g);
    assert r != ModelDrivenDraft && r != NewDraft;
    if r == Propose {
      assert t.calls == [];
    } else if r == WriteHistory {
      assert t == WriteTurn(data, snapshot, timestamp);
    } else if r == OpenBackup {
      assert t == BackupTurn(p);
    } else if r == OfferChoice {
      assert t.calls == [];
    } else {
      assert t.calls == [];
    }
  }

  /**
   * A screen request with model context generates even over existing data: the draft's
   * callbacks fire without a choice being offered.
   */
  lemma ModelReferenceOverwrites(g: Signals, p: Panel, sv: Services, data: WebUIData, snapshot: seq<ChatMessage>,
                                 processed: string, context: string, answered: nat, timestamp: string, d: Draft)
    requires g.existing && g.modelReference && g.screen && !g.modification && !g.write && !g.backup
    requires sv.draft(DraftRequest(ModelDrivenPrompt(context, processed), data, "screen", ProjectRef(p.projectId))) == Ok(d)
    ensures var t := Answer(g, p, sv, data, snapshot, processed, context, answered, timestamp);
            t.calls == ApplyGeneratedDraft(d).calls && t.posted == []
  {
  }

  /**
   * A screen request without model context over existing data offers the choice: nothing is
   * generated, one selection message carrying the request is posted, whatever the services answer.
   */
  lemma ExistingDataOffersChoice(g: Signals, p: Panel, sv: Services, data: WebUIData, snapshot: seq<ChatMessage>,
                                 processed: string, context: string, answered: nat, timestamp: string)
    requires g.existing && !g.modelReference && g.screen && !g.modification && !g.write && !g.backup
    ensures var t := Answer(g, p, sv, data, snapshot, processed, context, answered, timestamp);
            t.calls == [] && |t.posted| == 1 && t.posted[0].kind == ActionSelection(processed)
            && t.reply == ChoicePrompt
  {
  }

  /** Whatever a handler posts is a reply-side message with the reply's id, never a placeholder. */
  lemma AnswerPostsReplies(g: Signals, p: Panel, sv: Services, data: WebUIData, snapshot: seq<ChatMessage>,
                           processed: string, context: string, answered: nat, timestamp: string)
    ensures forall m :: m in Answer(g, p, sv, data, snapshot, processed, context, answered, timestamp).posted ==>
              m.id == ReplyId(answered) && !m.isUser
  {
    var t := Answer(g, p, sv, data, snapshot, processed, context, answered, timestamp);
    if RouteOf(g) == Propose {
      assert t == ProposeTurn(sv, data, processed, answered);
    } else if RouteOf(g) == OfferChoice {
      assert t.posted == [ChoiceMessage(data, processed, answered)];
    } else {
      assert t.posted == [];
    }
  }

  lemma PostedAreReplies(p: Panel, sv: Services, data: WebUIData, snapshot: seq<ChatMessage>, message: string,
                         answered: nat, timestamp: string)
    ensures forall m :: m in Respond(p, sv, data, snapshot, message, answered, timestamp).posted ==>
              m.id == ReplyId(answered) && !m.isUser
  {
    var refs := References(p.state, p.projectId, message);
    var current := CurrentData(data);
    AnswerPostsReplies(SignalsOf(refs.0, refs.1, current), p, sv, current, snapshot, refs.0, refs.1, answered,
                       timestamp);
  }

  /**
   * `getAIResponse` step by step: mentions are resolved, the request classified, and the
   * chosen handler run.
   */
  method GetAIResponse(p: Panel, sv: Services, data: WebUIData, snapshot: seq<ChatMessage>, message: string,
                       answered: nat, timestamp: string) returns (t: Turn)
    ensures t == Respond(p, sv, data, snapshot, message, answered, timestamp)
  {
    var current := CurrentData(data);
    var processed, context := ProcessDataModelReference(p.state, p.projectId, message);
    var g := SignalsOf(processed, context, current);
    t := Dispatch(g, p, sv, current, snapshot, processed, context, answered, timestamp);
  }

  /** The handlers of `getAIResponse` tried in order (the history write through `writeToMarkdown`). */
  method Dispatch(g: Signals, p: Panel, sv: Services, data: WebUIData, snapshot: seq<ChatMessage>,
                  processed: string, context: string, answered: nat, timestamp: string) returns (t: Turn)
    ensures t == Answer(g, p, sv, data, snapshot, processed, context, answered, timestamp)
  {
    var project := ProjectRef(p.projectId);
    if g.modification {
      assert RouteOf(g) == Propose;
      t := ProposeTurn(sv, data, processed, answered);
    } else if g.write {
      assert RouteOf(g) == WriteHistory;
      t := WriteHandler(data, snapshot, timestamp);
    } else if g.backup {
      assert RouteOf(g) == OpenBackup;
      t := BackupTurn(p);
    } else if g.modelReference && g.screen {
      assert RouteOf(g) == ModelDrivenDraft;
      t := DraftTurn(sv, DraftRequest(ModelDrivenPrompt(context, processed), data, "screen", project), ModelDrivenHead);
    } else if g.screen && !g.modification {
      if g.existing {
        assert RouteOf(g) == OfferChoice;
        t := Turn(ChoicePrompt, [ChoiceMessage(data, processed, answered)], []);
      } else {
        assert RouteOf(g) == NewDraft;
        t := DraftTurn(sv, DraftRequest(PlainPrompt(processed), data, "screen", project), "");
      }
    } else {
      assert RouteOf(g) == GeneralChat;
      var prompt := ChatPrompt(if g.modelReference then Some(context) else None, processed);
      t := ChatTurn(sv, ChatRequest(prompt, data, "screen", project));
    }
  }

  /** The `/write` handler: the history written into the conditions and the count reported. */
  method WriteHandler(data: WebUIData, snapshot: seq<ChatMessage>, timestamp: string) returns (t: Turn)
    ensures t == WriteTurn(data, snapshot, timestamp)
  {
    var updated, count := WriteToMarkdown(data.conditions, timestamp, snapshot);
    t := Turn(WriteReply(count, timestamp), [], [SetConditions(updated)]);
  }

  // ---------------------------------------------------------------------------------------
  // Applying a proposal (`handleModificationProposal`) and answering an action selection
  // (`handleActionSelect`)

  /**
   * The callbacks for the fields that differ between the document before and after: the
   * conditions, then the supplement, then the sheets (which the source compares through
   * `JSON.stringify`, that is by value). The Mermaid code has no callback.
   */
  function ChangedFields(before: WebUIData, after: WebUIData): seq<Update>
  {
    (if after.conditions != before.conditions then [SetConditions(after.conditions)] else [])
    + (if after.supplement != before.supplement then [SetSupplement(after.supplement)] else [])
    + (if after.sheets != before.sheets then [SetSheets(after.sheets)] else [])
  }

  /** The callbacks of an applied proposal, one per field that changed, in the order the panel calls them. */
  method SyncCalls(current: WebUIData, after: WebUIData) returns (calls: seq<Update>)
    ensures calls == ChangedFields(current, after)
  {
    calls := [];
    if after.conditions != current.conditions {
      calls := calls + [SetConditions(after.conditions)];
    }
    if after.supplement != current.supplement {
      calls := calls + [SetSupplement(after.supplement)];
    }
    if after.sheets != current.sheets {
      calls := calls + [SetSheets(after.sheets)];
    }
  }

  /** The three fields of the parent a proposal can reach. */
  datatype Fields = Fields(conditions: string, supplement: string, sheets: seq<Sheet>)

  function FieldsOf(data: WebUIData): Fields
  {
    Fields(data.conditions, data.supplement, data.sheets)
  }

  /**
   * The parent's fields once a proposal's callbacks have run. The backup manager leaves them
   * alone. A draft's `SetSheet` replaces the whole spreadsheet in the source, but its sheet has
   * the generated shape, so it is not followed here; only drafts fire it, never a proposal.
   */
  function Received(f: Fields, calls: seq<Update>): Fields
    decreases |calls|
  {
    if calls == [] then f
    else
      var next := match calls[0]
        case SetConditions(text) => f.(conditions := text)
        case SetSupplement(text) => f.(supplement := text)
        case SetSheets(sheets) => f.(sheets := sheets)
        case _ => f;
      Received(next, calls[1..])
  }

  /** Running two lists of callbacks one after the other is running their concatenation. */
  lemma {:induction false} ReceivedConcat(f: Fields, a: seq<Update>, b: seq<Update>)
    ensures Received(f, a + b) == Received(Received(f, a), b)
    decreases |a|
  {
    if a != [] {
      assert (a + b)[0] == a[0] && (a + b)[1..] == a[1..] + b;
      var next := match a[0]
        case SetConditions(text) => f.(conditions := text)
        case SetSupplement(text) => f.(supplement := text)
        case SetSheets(sheets) => f.(sheets := sheets)
        case _ => f;
      ReceivedConcat(next, a[1..], b);
    } else {
      assert a + b == b;
    }
  }

  /**
   * A callback fires exactly for a field whose value changed, with the new value, and running
   * the callbacks brings the parent's three fields to the updated document's.
   */
  lemma ChangedFieldsSync(data: WebUIData, after: WebUIData)
    ensures var calls := ChangedFields(CurrentData(data), after);
            (forall u :: u in calls ==>
               u == SetConditions(after.conditions) || u == SetSupplement(after.supplement) || u == SetSheets(after.sheets))
            && (SetConditions(after.conditions) in calls <==> after.conditions != data.conditions)
            && (SetSupplement(after.supplement) in calls <==> after.supplement != data.supplement)
            && (SetSheets(after.sheets) in calls <==> after.sheets != data.sheets)
            && Received(FieldsOf(data), calls) == FieldsOf(after)
  {
    var before := CurrentData(data);
    var c := if after.conditions != before.conditions then [SetConditions(after.conditions)] else [];
    var p := if after.supplement != before.supplement then [SetSupplement(after.supplement)] else [];
    var h := if after.sheets != before.sheets then [SetSheets(after.sheets)] else [];
    assert ChangedFields(before, after) == c + p + h;
    ReceivedConcat(FieldsOf(data), c + p, h);
    ReceivedConcat(FieldsOf(data), c, p);
    var f0 := FieldsOf(data);
    var f1 := Received(f0, c);
    var f2 := Received(f1, p);
    assert f1 == f0.(conditions := after.conditions) by {
      if c != [] { assert c[1..] == []; }
    }
    assert f2 == f1.(supplement := after.supplement) by {
      if p != [] { assert p[1..] == []; }
    }
    assert Received(f2, h) == f2.(sheets := after.sheets) by {
      if h != [] { assert h[1..] == []; }
    }
  }

  /** The callbacks an application fires: the changed fields on success, none on failure. */
  function ProposalCalls(data: WebUIData, result: Modification.ApplyResult): seq<Update>
  {
    if result.success && result.updatedData.Some? then ChangedFields(CurrentData(data), Modification.Settled(result.updatedData.value))
    else []
  }

  /**
   * A proposal that fails to apply changes nothing in the parent and is reported as
   * rejected; one that applies is reported as applied and brings the parent's three fields
   * to the updated document's.
   */
  lemma ProposalOutcome(proposal: Modification.ModificationProposal, data: WebUIData, now: nat)
    ensures var result := Modification.ApplyOutcome(CurrentData(data), proposal.changes);
            (result.errors != [] ==> ProposalCalls(data, result) == []
                                     && OutcomeMessage(proposal, result, now).kind == Rejected)
            && (result.errors == [] ==>
                  OutcomeMessage(proposal, result, now).kind == Applied
                  && Received(FieldsOf(data), ProposalCalls(data, result)) == FieldsOf(Modification.Settled(result.updatedData.value)))
  {
    var result := Modification.ApplyOutcome(CurrentData(data), proposal.changes);
    if result.errors == [] {
      ChangedFieldsSync(data, Modification.Settled(result.updatedData.value));
    }
  }

  /**
   * Changes that all target the Mermaid code leave every other field of the copy as it was,
   * and fail exactly where one of them stores a value that is not a string.
   */
  lemma {:induction false} MermaidChangesKeepFields(d: WebUIData, changes: seq<Modification.ProposedChange>)
    requires forall i :: 0 <= i < |changes| ==> changes[i].target == Json.JStr("mermaid")
    ensures Modification.ApplyAll(Modification.CopyOf(d), changes).1 == [] <==>
              forall i :: 0 <= i < |changes| ==> !Modification.StoresRaw(Modification.MermaidText(d.mermaid, changes[..i]), changes[i])
    ensures FieldsOf(Modification.Settled(Modification.ApplyAll(Modification.CopyOf(d), changes).0)) == FieldsOf(d)
    decreases |changes|
  {
    Modification.NoErrorsIffClean(d, changes);
    if changes != [] {
      var init := changes[..|changes| - 1];
      MermaidChangesKeepFields(d, init);
      var prev := Modification.ApplyAll(Modification.CopyOf(d), init).0;
      var r := Modification.ApplyChange(prev, changes[|changes| - 1]);
      assert r.data == prev.(mermaidCode := r.data.mermaidCode);
    }
  }

  /**
   * A proposal that only edits the Mermaid code never fires a callback: the screen panel hands
   * no Mermaid code to its parent. It is reported as applied, and its edit so lost, exactly
   * when no change stores a value that is not a string into the panel's empty Mermaid text.
   */
  lemma MermaidProposalIsLost(proposal: Modification.ModificationProposal, data: WebUIData, now: nat)
    requires forall i :: 0 <= i < |proposal.changes| ==> proposal.changes[i].target == Json.JStr("mermaid")
    ensures var result := Modification.ApplyOutcome(CurrentData(data), proposal.changes);
            && ProposalCalls(data, result) == []
            && (OutcomeMessage(proposal, result, now).kind == Applied <==>
                  forall i :: 0 <= i < |proposal.changes| ==>
                    !Modification.StoresRaw(Modification.MermaidText("", proposal.changes[..i]), proposal.changes[i]))
  {
    MermaidChangesKeepFields(CurrentData(data), proposal.changes);
  }

  /** The options of an action selection (`actionData.action`). */
  const ReplaceAll := "generate_design_draft"
  const AddOrModify := "generate_modification_proposal"

  const ReplacedHead := "🔄 **全置き換え完了**\n\n"

  function ActionFailure(error: string): string
  {
    "❌ **処理エラー**\n\n選択した操作の実行中にエラーが発生しました。\n\n**エラー**: " + error
    + "\n\n**対処法**:\n- MCPサーバーが起動しているか確認してください\n- しばらく時間をおいて再試行してください"
  }

  /** The proposal card of the add-or-modify option: its own heading, and the clock's id. */
  function ChosenProposalMessage(proposal: Modification.ModificationProposal, now: nat): ChatMessage
  {
    ChatMessage(IdAt(now), "➕ **修正提案を生成しました**\n\n📋 **概要**: " + proposal.summary, false, ProposalCard(proposal))
  }

  /** What choosing an option does: the messages posted and the callbacks fired. */
  datatype Reaction = Reaction(posted: seq<ChatMessage>, calls: seq<Update>)

  /**
   * `handleActionSelect`: replacing asks for a new draft for the original request and applies
   * it; adding or modifying asks for a proposal and shows it; a raised service is reported;
   * any other option does nothing.
   */
  function ActionAnswer(action: string, originalMessage: string, projectId: string, sv: Services, data: WebUIData,
                        now: nat): Reaction
  {
    var current := CurrentData(data);
    if action == ReplaceAll then
      match sv.draft(DraftRequest(PlainPrompt(originalMessage), current, "screen", ProjectRef(projectId)))
      case Ok(d) =>
        var a := ApplyGeneratedDraft(d);
        Reaction([ChatMessage(IdAt(now), ReplacedHead + a.reply, false, Applied)], a.calls)
      case Raised(e) => Reaction([ChatMessage(IdAt(now), ActionFailure(e), false, Rejected)], [])
    else if action == AddOrModify then
      match sv.propose(originalMessage, current)
      case Ok(proposal) => Reaction([ChosenProposalMessage(proposal, now)], [])
      case Raised(e) => Reaction([ChatMessage(IdAt(now), ActionFailure(e), false, Rejected)], [])
    else Reaction([], [])
  }

  /**
   * Replacing everything fires exactly the callbacks the same request would have fired had
   * the document held no data: the choice only postpones the new draft.
   */
  lemma ReplaceAllIsTheNewDraft(p: Panel, sv: Services, data: WebUIData, snapshot: seq<ChatMessage>,
                                processed: string, context: string, answered: nat, timestamp: string, now: nat)
    requires !IsModificationRequest(processed) && !StartsWith(processed, "/write") && !StartsWith(processed, "/backup")
    requires IsScreenDesignRequest(processed) && context == ""
    ensures var g := SignalsOf(processed, context, CurrentData(data)).(existing := false);
            RouteOf(g) == NewDraft
            && ActionAnswer(ReplaceAll, processed, p.projectId, sv, data, now).calls
               == Answer(g, p, sv, CurrentData(data), snapshot, processed, context, answered, timestamp).calls
  {
  }

  /**
   * Adding or modifying never touches the document; every option posts at most one message,
   * with the clock's id, and never a placeholder.
   */
  lemma ActionOutcomes(action: string, originalMessage: string, projectId: string, sv: Services, data: WebUIData,
                       now: nat)
    ensures var r := ActionAnswer(action, originalMessage, projectId, sv, data, now);
            |r.posted| <= 1
            && (forall m :: m in r.posted ==> m.id == IdAt(now) && m.id != LoadingId && !m.isUser)
            && (action != ReplaceAll ==> r.calls == [])
            && (action != ReplaceAll && action != AddOrModify ==> r.posted == [])
            && (action == AddOrModify && sv.propose(originalMessage, CurrentData(data)).Ok? ==>
                  r.posted == [ChosenProposalMessage(sv.propose(originalMessage, CurrentData(data)).value, now)])
  {
  }

  // ---------------------------------------------------------------------------------------
  // The panel's message list (`handleSendMessage`)

  class ScreenPanel {
    var messages: seq<ChatMessage>

    /** No placeholder is left in the list between turns. */
    predicate Valid()
      reads this
    {
      forall m :: m in messages ==> m.id != LoadingId
    }

    constructor()
      ensures messages == [Greeting] && Valid()
    {
      messages := [Greeting];
    }

    /**
     * `handleSendMessage`: the user's message and a placeholder are appended, the answer is
     * computed from the messages as they were before the send (the handlers close over that
     * list), and the placeholder is replaced by the reply after whatever was posted meanwhile.
     */
    method HandleSendMessage(p: Panel, sv: Services, data: WebUIData, message: string, sent: nat, answered: nat,
                             timestamp: string) returns (calls: seq<Update>)
      requires Valid()
      modifies this
      ensures Valid()
      ensures var t := Respond(p, sv, data, old(messages), message, answered, timestamp);
              calls == t.calls
              && messages == old(messages) + [UserMessage(message, sent)] + t.posted + [ReplyMessage(t.reply, answered)]
    {
      var snapshot := messages;
      var user, loading := UserMessage(message, sent), Placeholder(LoadingText);
      ShowPending(user, loading);
      var t := GetAIResponse(p, sv, data, snapshot, message, answered, timestamp);
      PostedAreReplies(p, sv, data, snapshot, message, answered, timestamp);
      FinishTurn(snapshot, user, loading, t.posted, ReplyMessage(t.reply, answered));
      calls := t.calls;
    }

    /** The answer's messages are appended and the placeholder replaced by the reply. */
    method FinishTurn(snapshot: seq<ChatMessage>, user: ChatMessage, loading: ChatMessage, posted: seq<ChatMessage>,
                      reply: ChatMessage)
      requires messages == snapshot + [user] + [loading]
      requires forall m :: m in snapshot ==> m.id != LoadingId
      requires forall m :: m in posted ==> m.id != LoadingId
      requires user.id != LoadingId && loading.id == LoadingId && reply.id != LoadingId
      modifies this
      ensures Valid()
      ensures messages == snapshot + [user] + posted + [reply]
    {
      messages := messages + posted;
      SendTurn(snapshot, user, loading, posted, reply);
      messages := Settled(messages, reply);
    }

    /** The user's message and the placeholder are shown at once. */
    method ShowPending(user: ChatMessage, loading: ChatMessage)
      modifies this
      ensures messages == old(messages) + [user] + [loading]
    {
      messages := messages + [user];
      messages := messages + [loading];
    }

    /**
     * `handleModificationProposal`: the document is backed up and the proposal applied; the
     * changed fields are handed to the parent and the outcome is reported in one message.
     */
    method HandleModificationProposal(proposal: Modification.ModificationProposal, data: WebUIData,
                                      store: Backup.BackupStore, now: nat, nonce: string, shownTime: string)
      returns (calls: seq<Update>)
      requires Valid()
      modifies this, store
      ensures Valid()
      ensures var result := Modification.ApplyOutcome(CurrentData(data), proposal.changes);
              calls == ProposalCalls(data, result)
              && messages == old(messages) + [OutcomeMessage(proposal, result, now)]
      ensures var id := "auto_" + IntToString(now) + "_" + nonce;
              Backup.CleanedUp(old(store.items)[Backup.StorageKey(id) :=
                Backup.Saved(Backup.AutoBackup(id, CurrentData(data), "修正提案適用前のバックアップ", Some(proposal.id), now, shownTime))],
                store.items)
    {
      var current := CurrentData(data);
      var result := Modification.ApplyModificationProposal(proposal, current, store, now, nonce, shownTime);
      calls := [];
      if result.success && result.updatedData.Some? {
        calls := SyncCalls(current, Modification.Settled(result.updatedData.value));
      }
      messages := messages + [OutcomeMessage(proposal, result, now)];
    }

    /** `handleRejectProposal`: one `rejected` message; the document is left alone. */
    method HandleRejectProposal(now: nat)
      requires Valid()
      modifies this
      ensures Valid()
      ensures messages == old(messages) + [ChatMessage(IdAt(now), RejectText, false, Rejected)]
    {
      messages := messages + [ChatMessage(IdAt(now), RejectText, false, Rejected)];
    }

    /** `handleActionSelect`: the chosen option's message, if any, is appended and its callbacks returned. */
    method HandleActionSelect(action: string, originalMessage: string, projectId: string, sv: Services,
                              data: WebUIData, now: nat) returns (calls: seq<Update>)
      requires Valid()
      modifies this
      ensures Valid()
      ensures var r := ActionAnswer(action, originalMessage, projectId, sv, data, now);
              calls == r.calls && messages == old(messages) + r.posted
    {
      var r := ActionAnswer(action, originalMessage, projectId, sv, data, now);
      ActionOutcomes(action, originalMessage, projectId, sv, data, now);
      messages := messages + r.posted;
      calls := r.calls;
    }
  }
}
