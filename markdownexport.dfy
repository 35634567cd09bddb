/**
 * The Markdown export of design documents: the entity summary read from a Mermaid ER
 * diagram, the screen and data-model document converters, the whole-project converter with
 * its per-type sections and footer counts, and the choice of renderer and file name for a
 * download. The export time (`toLocaleString('ja-JP')` and `toISOString()`) is a pair of
 * parameters; the download itself (Blob, anchor click) is not modelled.
 */
module MarkdownExport {
  import opened Wrappers
  import Json
  import Text
  import Lists
  import Storage
  import DocRefs
  import MarkdownTable

  // ---------------------------------------------------------------------------------------
  // Entities of a Mermaid ER diagram, as the export reads them
  // ---------------------------------------------------------------------------------------

  datatype EntityField = EntityField(name: string, fieldType: string, primaryKey: bool, foreignKey: bool, nullable: bool)
  datatype Entity = Entity(name: string, fields: seq<EntityField>)

  /** The characters a regular-expression `.` does not match: the ECMAScript line terminators. */
  predicate LineTerminator(c: char)
  {
    c == '\n' || c == '\r' || c == '\U{2028}' || c == '\U{2029}'
  }

  /** The longest prefix of `t` without a line terminator. */
  function LinePrefix(t: string): (r: string)
    ensures |r| <= |t| && r == t[..|r|]
    ensures forall k :: 0 <= k < |r| ==> !LineTerminator(r[k])
    ensures |r| == |t| || LineTerminator(t[|r|])
  {
    if t == [] || LineTerminator(t[0]) then [] else [t[0]] + LinePrefix(t[1..])
  }

  /** The index of the last `}` in `s`. */
  function LastClose(s: string): (r: Option<nat>)
    ensures r.Some? ==> r.value < |s| && s[r.value] == '}' && forall k :: r.value < k < |s| ==> s[k] != '}'
    ensures r.None? ==> forall k :: 0 <= k < |s| ==> s[k] != '}'
  {
    if s == [] then None
    else if s[|s| - 1] == '}' then Some(|s| - 1)
    else LastClose(s[..|s| - 1])
  }

  /**
   * The group of `\{(.+)\}` searched from index `i`: at the leftmost `{` that admits a match,
   * the greedy `.+` runs to the last `}` before the next line terminator, leaving at least
   * one character between the braces.
   */
  function BraceBodyFrom(t: string, i: nat): (r: Option<string>)
    ensures r.Some? ==> r.value != "" && forall k :: 0 <= k < |r.value| ==> !LineTerminator(r.value[k])
    ensures r.Some? ==> Text.Contains(t, "{" + r.value + "}")
    decreases |t| - i
  {
    if i >= |t| then None
    else if t[i] == '{' then
      var run := LinePrefix(t[i + 1..]);
      match LastClose(run)
      case Some(j) =>
        if j >= 1 then
          assert t[i..i + j + 2] == "{" + run[..j] + "}";
          assert Text.MatchAt(t, "{" + run[..j] + "}", i);
          Some(run[..j])
        else BraceBodyFrom(t, i + 1)
      case None => BraceBodyFrom(t, i + 1)
    else BraceBodyFrom(t, i + 1)
  }

  /**
   * One comma-separated field text: `split(/\s+/)` of the trimmed text, the first token the
   * type and the second the name; the key and null flags are plain substring tests.
   */
  function FieldOf(f: string): Option<EntityField>
  {
    var parts := Text.Tokens(f);
    if |parts| >= 2 then
      Some(EntityField(parts[1], parts[0], Text.Contains(f, "PK"), Text.Contains(f, "FK"), !Text.Contains(f, "NOT NULL")))
    else None
  }

  function TrimAll(parts: seq<string>): (r: seq<string>)
    ensures |r| == |parts| && forall i :: 0 <= i < |parts| ==> r[i] == Text.Trim(parts[i])
  {
    if parts == [] then [] else [Text.Trim(parts[0])] + TrimAll(parts[1..])
  }

  /** The field texts of a brace body: split on commas, trimmed, the empty ones dropped. */
  function FieldTexts(body: string): seq<string>
  {
    Lists.Filter(TrimAll(Text.Split(body, ",")), (f: string) => f != "")
  }

  /** The fields read from field texts: the texts of at least two tokens, in order. */
  function FieldsFrom(texts: seq<string>): (fields: seq<EntityField>)
    ensures |fields| <= |texts|
  {
    if texts == [] then []
    else (match FieldOf(texts[0]) case Some(f) => [f] case None => []) + FieldsFrom(texts[1..])
  }

  /** The entity a line opens: `^(\w+)\s*\{` on the trimmed line, with the fields of a same-line body. */
  function EntityOfLine(line: string): (r: Option<Entity>)
  {
    var t := Text.Trim(line);
    match DocRefs.HeaderName(t)
    case None => None
    case Some(name) =>
      Some(Entity(name, match BraceBodyFrom(t, 0) case None => [] case Some(body) => FieldsFrom(FieldTexts(body))))
  }

  /** A line opens an entity exactly when it is a header line, and the entity is named by a word. */
  lemma EntityOfHeaderLine(line: string)
    ensures EntityOfLine(line).Some? <==> DocRefs.HeaderName(Text.Trim(line)).Some?
    ensures EntityOfLine(line).Some? ==> DocRefs.IsWord(EntityOfLine(line).value.name)
  {
  }

  /** The entities of a diagram, its text split on `'\n'`. */
  function ExtractEntities(code: string): seq<Entity>
  {
    Lists.FilterMap(Text.Lines(code), |Text.Lines(code)|, EntityOfLine)
  }

  /** The loop over the lines: the entity of each header line pushed in turn. */
  method ReadEntityLines(lines: seq<string>) returns (entities: seq<Entity>)
    ensures entities == Lists.FilterMap(lines, |lines|, EntityOfLine)
  {
    entities := [];
    var i := 0;
    while i < |lines|
      invariant i <= |lines| && entities == Lists.FilterMap(lines, i, EntityOfLine)
    {
      var entity := EntityOfLine(lines[i]);
      if entity.Some? {
        entities := entities + [entity.value];
      }
      ghost var k := i;
      i := i + 1;
      Lists.FilterMapStep(lines, k, i, EntityOfLine);
    }
  }

  /** The extraction loop: one entity pushed per header line. */
  method ExtractEntitiesFromMermaid(code: string) returns (entities: seq<Entity>)
    ensures entities == ExtractEntities(code)
  {
    var lines := Text.Lines(code);
    entities := ReadEntityLines(lines);
  }

  /** The extracted entities are exactly those of the header lines, and their names are words. */
  lemma EntitiesAreHeaderLines(code: string)
    ensures forall e :: e in ExtractEntities(code) ==>
              exists k :: 0 <= k < |Text.Lines(code)| && EntityOfLine(Text.Lines(code)[k]) == Some(e)
    ensures forall k :: 0 <= k < |Text.Lines(code)| && EntityOfLine(Text.Lines(code)[k]).Some? ==>
              EntityOfLine(Text.Lines(code)[k]).value in ExtractEntities(code)
    ensures forall e :: e in ExtractEntities(code) ==> DocRefs.IsWord(e.name)
  {
    var lines := Text.Lines(code);
    Lists.FilterMapExactly(lines, |lines|, EntityOfLine);
    forall e | e in ExtractEntities(code) ensures DocRefs.IsWord(e.name) {
      var k :| 0 <= k < |lines| && EntityOfLine(lines[k]) == Some(e);
      EntityOfHeaderLine(lines[k]);
    }
  }

  /** Without a `}` on the line from index `i` on, no brace body is found. */
  lemma {:induction false} NoCloseNoBody(t: string, i: nat)
    requires forall k :: i <= k < |t| ==> t[k] != '}'
    ensures BraceBodyFrom(t, i) == None
    decreases |t| - i
  {
    if i < |t| {
      if t[i] == '{' {
        var run := LinePrefix(t[i + 1..]);
        assert forall k :: 0 <= k < |run| ==> run[k] == t[i + 1 + k];
        assert LastClose(run).None?;
      }
      NoCloseNoBody(t, i + 1);
    }
  }

  /**
   * Only a same-line body gives fields: a header line without `}` (the usual layout, with
   * the fields on the lines below) yields an entity with no fields.
   */
  lemma HeaderWithoutCloseHasNoFields(line: string)
    requires DocRefs.HeaderName(Text.Trim(line)).Some?
    requires forall k :: 0 <= k < |line| ==> line[k] != '}'
    ensures EntityOfLine(line) == Some(Entity(DocRefs.HeaderName(Text.Trim(line)).value, []))
  {
    var t := Text.Trim(line);
    assert forall k :: 0 <= k < |t| ==> t[k] != '}' by {
      forall k | 0 <= k < |t| ensures t[k] != '}' {
        TrimIsInfix(line, k);
      }
    }
    NoCloseNoBody(t, 0);
  }

  /** Every character of the trimmed text is a character of the text. */
  lemma TrimIsInfix(s: string, k: nat)
    requires k < |Text.Trim(s)|
    ensures Text.Trim(s)[k] in s
  {
    var l := Text.TrimLeft(Text.Js, s);
    assert Text.Trim(s)[k] == l[k];
    assert l == s[|s| - |l|..];
    assert l[k] == s[|s| - |l| + k];
  }

  // ---------------------------------------------------------------------------------------
  // Entity lists
  // ---------------------------------------------------------------------------------------

  /** The constraint cell: `PK`, `FK` and `NOT NULL` joined by `, `, or `-` when none applies. */
  function ConstraintText(f: EntityField): (r: string)
    ensures r == "-" <==> !f.primaryKey && !f.foreignKey && f.nullable
  {
    var cs := (if f.primaryKey then ["PK"] else []) + (if f.foreignKey then ["FK"] else [])
              + (if !f.nullable then ["NOT NULL"] else []);
    if cs == [] then "-"
    else
      MarkdownTable.JoinStartsWithFirst(cs, ", ");
      Text.Join(cs, ", ")
  }

  function FieldLine(f: EntityField): string
  {
    "| " + f.name + " | " + f.fieldType + " | " + ConstraintText(f) + " |\n"
  }

  /** The table rows of the first `n` fields. */
  function FieldLines(fields: seq<EntityField>, n: nat): string
    requires n <= |fields|
  {
    if n == 0 then "" else FieldLines(fields, n - 1) + FieldLine(fields[n - 1])
  }

  const FieldTableHead: string := "**フィールド:**\n\n| フィールド名 | 型 | 制約 |\n|-------------|-------|------|\n"

  function EntityHeading(mark: string, k: nat, name: string): string
  {
    mark + " " + Text.NatToString(k + 1) + ". " + name + "\n\n"
  }

  /** The block of the entity at 0-based position `k`: its heading, and its field table when it has fields. */
  function EntityBlock(mark: string, k: nat, e: Entity): string
  {
    EntityHeading(mark, k, e.name)
    + (if |e.fields| > 0 then FieldTableHead + FieldLines(e.fields, |e.fields|) + "\n" else "")
  }

  /** The blocks of the first `n` entities. */
  function EntityBlocks(mark: string, entities: seq<Entity>, n: nat): string
    requires n <= |entities|
  {
    if n == 0 then "" else EntityBlocks(mark, entities, n - 1) + EntityBlock(mark, n - 1, entities[n - 1])
  }

  lemma FieldLinesStep(fields: seq<EntityField>, k: nat, n: nat)
    requires 0 < n <= |fields| && k == n - 1
    ensures FieldLines(fields, n) == FieldLines(fields, k) + FieldLine(fields[k])
  {
  }

  lemma EntityBlocksStep(mark: string, entities: seq<Entity>, k: nat, n: nat)
    requires 0 < n <= |entities| && k == n - 1
    ensures EntityBlocks(mark, entities, n) == EntityBlocks(mark, entities, k) + EntityBlock(mark, k, entities[k])
  {
  }

  method RenderFieldRows(fields: seq<EntityField>) returns (rows: string)
    ensures rows == FieldLines(fields, |fields|)
  {
    rows := "";
    var i := 0;
    while i < |fields|
      invariant i <= |fields| && rows == FieldLines(fields, i)
    {
      var field := fields[i];
      var line := "| " + field.name + " | " + field.fieldType + " | " + ConstraintText(field) + " |\n";
      rows := rows + line;
      ghost var k := i;
      i := i + 1;
      FieldLinesStep(fields, k, i);
    }
  }

  /** The entity-list loop: a numbered heading per entity, and its field table when it has fields. */
  method RenderEntities(mark: string, entities: seq<Entity>) returns (markdown: string)
    ensures markdown == EntityBlocks(mark, entities, |entities|)
  {
    markdown := "";
    var i := 0;
    while i < |entities|
      invariant i <= |entities| && markdown == EntityBlocks(mark, entities, i)
    {
      var entity := entities[i];
      var fieldTable := "";
      if |entity.fields| > 0 {
        var rows := RenderFieldRows(entity.fields);
        fieldTable := FieldTableHead + rows + "\n";
      }
      markdown := markdown + (EntityHeading(mark, i, entity.name) + fieldTable);
      ghost var k := i;
      i := i + 1;
      EntityBlocksStep(mark, entities, k, i);
    }
  }

  // ---------------------------------------------------------------------------------------
  // Single-document converters
  // ---------------------------------------------------------------------------------------

  /** A text section's body: the text when it is not blank, else `特になし`. */
  function TextOrNone(s: string): string
  {
    if Text.HasText(s) then s + "\n\n" else "特になし\n\n"
  }

  /** A truthy optional string: present and not empty. */
  predicate Present(m: Option<string>)
  {
    m.Some? && m.value != ""
  }

  /** The document has a diagram worth exporting: its Mermaid text is present and not blank. */
  predicate HasDiagram(d: Storage.Document)
  {
    d.mermaidCode.Some? && Text.HasText(d.mermaidCode.value)
  }

  function MermaidFence(code: string): string
  {
    "```mermaid\n" + code + "\n```\n\n"
  }

  /** The entity list of a diagram: a heading and the entity blocks, or nothing without entities. */
  function EntityList(heading: string, mark: string, entities: seq<Entity>): string
  {
    if |entities| > 0 then heading + EntityBlocks(mark, entities, |entities|) else ""
  }

  /** The diagram part of a data-model document: the fenced diagram and its entity list, or `ER図なし`. */
  function DiagramBody(listHeading: string, mark: string, d: Storage.Document): (r: string)
    ensures HasDiagram(d) ==> Text.Contains(r, MermaidFence(d.mermaidCode.value))
    ensures !HasDiagram(d) ==> r == "ER図なし\n\n"
  {
    if HasDiagram(d) then
      var fence := MermaidFence(d.mermaidCode.value);
      var list := EntityList(listHeading, mark, ExtractEntities(d.mermaidCode.value));
      Text.ContainsInfix("", fence, list);
      assert "" + fence + list == fence + list;
      fence + list
    else "ER図なし\n\n"
  }

  /** The loop version of `DiagramBody`: the extraction and entity-list loops. */
  method RenderDiagramBody(listHeading: string, mark: string, d: Storage.Document) returns (body: string)
    ensures body == DiagramBody(listHeading, mark, d)
  {
    if HasDiagram(d) {
      body := MermaidFence(d.mermaidCode.value);
      var entities := ExtractEntitiesFromMermaid(d.mermaidCode.value);
      if |entities| > 0 {
        var blocks := RenderEntities(mark, entities);
        body := body + (listHeading + blocks);
      } else {
        body := body + "";
      }
    } else {
      body := "ER図なし\n\n";
    }
  }

  function ExportInfo(kind: string, isoTime: string): string
  {
    "---\n\n**エクスポート情報**\n- ツール: mdai-designer\n- 形式: " + kind + "\n- 生成日時: " + isoTime + "\n"
  }

  /**
   * The screen design document: title, display conditions, the item table, the mockup image
   * (or `画像なし`), the supplement and the export information. A sheet the table converter
   * cannot read makes the whole conversion fail.
   */
  function ScreenDocumentMarkdown(d: Storage.Document, localTime: string, isoTime: string): (r: Outcome<string>)
    ensures r.Ok? <==> MarkdownTable.TableOf(d.spreadsheet).Ok?
    ensures r.Ok? ==> Text.StartsWith(r.value, "# " + d.name + "\n\n")
    ensures r.Ok? ==> Text.Contains(r.value, "## 📊 項目定義\n\n" + MarkdownTable.TableOf(d.spreadsheet).value + "\n\n")
  {
    match MarkdownTable.TableOf(d.spreadsheet)
    case Raised(m) => Raised(m)
    case Ok(table) =>
      var title := "# " + d.name + "\n\n";
      var conditions := "> 画面設計書\n\n**作成日時**: " + localTime + "\n\n" + "## 📋 表示条件\n\n" + TextOrNone(d.conditions);
      var tableSection := "## 📊 項目定義\n\n" + table + "\n\n";
      var tail := "## 🖼️ 画面イメージ\n\n"
                  + (if Present(d.mockup) then "![画面モックアップ](data:image/png;base64," + d.mockup.value + ")\n\n" else "画像なし\n\n")
                  + "## 📝 補足説明\n\n" + TextOrNone(d.supplement) + ExportInfo("画面設計書", isoTime);
      Text.StartsWithConcat(title, conditions);
      Text.StartsWithExtend(title + conditions, tableSection, title);
      Text.StartsWithExtend(title + conditions + tableSection, tail, title);
      Text.ContainsInfix(title + conditions, tableSection, tail);
      Ok(title + conditions + tableSection + tail)
  }

  /**
   * The data-model design document: the diagram in a `mermaid` fence followed by its entity
   * list, or `ER図なし` without a diagram; then the supplement and the export information.
   */
  function ModelDocumentMarkdown(d: Storage.Document, localTime: string, isoTime: string): (r: string)
    ensures Text.StartsWith(r, "# " + d.name + "\n\n")
    ensures HasDiagram(d) ==> Text.Contains(r, MermaidFence(d.mermaidCode.value))
    ensures !HasDiagram(d) ==> Text.Contains(r, "## 🗄️ ER図\n\nER図なし\n\n")
  {
    var title := "# " + d.name + "\n\n";
    var created := "> データモデル設計書\n\n**作成日時**: " + localTime + "\n\n";
    var diagram := "## 🗄️ ER図\n\n" + DiagramBody("## 📋 エンティティ一覧\n\n", "###", d);
    var tail := "## 📝 補足説明\n\n" + TextOrNone(d.supplement) + ExportInfo("データモデル設計書", isoTime);
    Text.StartsWithConcat(title, created);
    Text.StartsWithExtend(title + created, diagram, title);
    Text.StartsWithExtend(title + created + diagram, tail, title);
    Text.ContainsInfix(title + created, diagram, tail);
    if HasDiagram(d) then
      Text.ContainsExtend("## 🗄️ ER図\n\n", DiagramBody("## 📋 エンティティ一覧\n\n", "###", d), MermaidFence(d.mermaidCode.value));
      Text.ContainsTrans(title + created + diagram + tail, diagram, MermaidFence(d.mermaidCode.value));
      title + created + diagram + tail
    else
      assert diagram == "## 🗄️ ER図\n\nER図なし\n\n";
      title + created + diagram + tail
  }

  // ---------------------------------------------------------------------------------------
  // Download of one document
  // ---------------------------------------------------------------------------------------

  datatype Renderer = ScreenRenderer | ModelRenderer
  datatype Download = Download(renderer: Renderer, fileName: string)

  predicate EndsWith(s: string, p: string)
  {
    |p| <= |s| && s[|s| - |p|..] == p
  }

  /**
   * The renderer and file name of a document download: the data-model renderer exactly for
   * data-model documents; every other document, typed or not, is rendered as a screen design.
   */
  function DownloadChoice(d: Storage.Document): (r: Download)
    ensures r.renderer == ModelRenderer <==> d.docType == Some(Storage.Model)
    ensures Text.StartsWith(r.fileName, d.name)
    ensures EndsWith(r.fileName, "_data-model.md") <==> d.docType == Some(Storage.Model)
    ensures EndsWith(r.fileName, "_screen-design.md") <==> d.docType == Some(Storage.Screen)
    ensures d.docType != Some(Storage.Model) && d.docType != Some(Storage.Screen) ==> r.fileName == d.name + "_design.md"
  {
    var suffix := if d.docType == Some(Storage.Screen) then "_screen-design.md"
                  else if d.docType == Some(Storage.Model) then "_data-model.md"
                  else "_design.md";
    var f := d.name + suffix;
    Text.StartsWithConcat(d.name, suffix);
    assert f[|f| - |suffix|..] == suffix;
    assert d.docType != Some(Storage.Model) ==> f[|f| - 5] != "_data-model.md"[9];
    assert d.docType == Some(Storage.Model) ==> f[|f| - 5] != "_screen-design.md"[12];
    assert d.docType != Some(Storage.Model) && d.docType != Some(Storage.Screen) ==> f[|f| - 10] != "_screen-design.md"[7];
    Download(if d.docType == Some(Storage.Model) then ModelRenderer else ScreenRenderer, f)
  }

  /** The downloaded document: its rendering by the chosen renderer, and its file name. */
  function DocumentDownload(d: Storage.Document, localTime: string, isoTime: string): (r: Outcome<(string, string)>)
    ensures r.Ok? ==> r.value.1 == DownloadChoice(d).fileName
    ensures d.docType == Some(Storage.Model) ==> r == Ok((ModelDocumentMarkdown(d, localTime, isoTime), d.name + "_data-model.md"))
    ensures d.docType != Some(Storage.Model) ==> (r.Ok? <==> MarkdownTable.TableOf(d.spreadsheet).Ok?)
  {
    var choice := DownloadChoice(d);
    match choice.renderer
    case ModelRenderer => Ok((ModelDocumentMarkdown(d, localTime, isoTime), choice.fileName))
    case ScreenRenderer =>
      match ScreenDocumentMarkdown(d, localTime, isoTime)
      case Raised(m) => Raised(m)
      case Ok(md) => Ok((md, choice.fileName))
  }

  /** The file name of a whole-project download. */
  function ProjectFileName(projectName: string): (r: string)
    ensures Text.StartsWith(r, projectName) && EndsWith(r, "_project-design.md")
  {
    var r := projectName + "_project-design.md";
    Text.StartsWithConcat(projectName, "_project-design.md");
    assert r[|r| - |"_project-design.md"|..] == "_project-design.md";
    r
  }

  // ---------------------------------------------------------------------------------------
  // Whole-project converter
  // ---------------------------------------------------------------------------------------

  /** The documents of one type, in their original order. */
  function OfType(docs: seq<Storage.Document>, t: Storage.DocumentType): (r: seq<Storage.Document>)
    ensures |r| <= |docs|
    ensures forall d :: d in r <==> d in docs && d.docType == Some(t)
  {
    Lists.Filter(docs, (d: Storage.Document) => d.docType == Some(t))
  }

  /** The documents without a type. */
  function Untyped(docs: seq<Storage.Document>): (r: seq<Storage.Document>)
    ensures forall d :: d in r <==> d in docs && d.docType.None?
  {
    Lists.Filter(docs, (d: Storage.Document) => d.docType.None?)
  }

  /** The text of the screen document at 0-based position `k` of its section, given its table. */
  function ScreenEntryText(k: nat, d: Storage.Document, table: string): string
  {
    "### " + Text.NatToString(k + 1) + ". " + d.name + "\n\n"
    + "#### 📋 表示条件\n" + TextOrNone(d.conditions)
    + "#### 📊 項目定義\n" + table + "\n\n"
    + "#### 🖼️ 画面イメージ\n"
    + (if Present(d.mockup) then "![" + d.name + "画面モックアップ](data:image/png;base64," + d.mockup.value + ")\n\n" else "画像なし\n\n")
    + "#### 📝 補足説明\n" + TextOrNone(d.supplement)
    + "---\n\n"
  }

  /** The entry of a screen document; a missing sheet reads as `[]`. */
  function ScreenEntry(k: nat, d: Storage.Document): Outcome<string>
  {
    match MarkdownTable.TableOf(Json.Or(d.spreadsheet, Json.JArr([])))
    case Raised(m) => Raised(m)
    case Ok(table) => Ok(ScreenEntryText(k, d, table))
  }

  /** The text of the data-model document at 0-based position `k`, given its diagram part. */
  function ModelEntryText(k: nat, d: Storage.Document, diagram: string): string
  {
    "### " + Text.NatToString(k + 1) + ". " + d.name + "\n\n"
    + "#### 🗄️ ER図\n" + diagram
    + "#### 📝 補足説明\n" + TextOrNone(d.supplement)
    + "---\n\n"
  }

  function ModelEntries(docs: seq<Storage.Document>, n: nat): string
    requires n <= |docs|
  {
    if n == 0 then ""
    else ModelEntries(docs, n - 1) + ModelEntryText(n - 1, docs[n - 1], DiagramBody("#### 📋 エンティティ一覧\n\n", "#####", docs[n - 1]))
  }

  /** The entry of an API or database document: its heading and the not-yet-implemented note. */
  function PlannedEntry(kind: string, k: nat, d: Storage.Document): string
  {
    "### " + Text.NatToString(k + 1) + ". " + d.name + "\n" + "設計書タイプ: " + kind + "（未実装）\n\n"
  }

  lemma ModelEntriesStep(docs: seq<Storage.Document>, k: nat, n: nat)
    requires 0 < n <= |docs| && k == n - 1
    ensures ModelEntries(docs, n)
            == ModelEntries(docs, k) + ModelEntryText(k, docs[k], DiagramBody("#### 📋 エンティティ一覧\n\n", "#####", docs[k]))
  {
  }

  function PlannedEntries(kind: string, docs: seq<Storage.Document>, n: nat): string
    requires n <= |docs|
  {
    if n == 0 then "" else PlannedEntries(kind, docs, n - 1) + PlannedEntry(kind, n - 1, docs[n - 1])
  }

  lemma PlannedEntriesStep(kind: string, docs: seq<Storage.Document>, k: nat, n: nat)
    requires 0 < n <= |docs| && k == n - 1
    ensures PlannedEntries(kind, docs, n) == PlannedEntries(kind, docs, k) + PlannedEntry(kind, k, docs[k])
  {
  }

  /** A section heading with the number of documents it holds. */
  function SectionHeading(title: string, count: nat): string
  {
    "## " + title + " (" + Text.NatToString(count) + "件)\n\n"
  }

  const ScreenTitle: string := "🖥️ 画面設計書"
  const ModelTitle: string := "🗄️ データモデル設計書"
  const ApiTitle: string := "🔌 API設計書"
  const DatabaseTitle: string := "🗃️ データベース設計書"

  /** The screen section: absent exactly when there is no screen document. */
  function ScreenSection(docs: seq<Storage.Document>): (r: Outcome<string>)
    ensures docs == [] ==> r == Ok("")
    ensures docs != [] && r.Ok? ==> Text.StartsWith(r.value, SectionHeading(ScreenTitle, |docs|))
  {
    if |docs| == 0 then Ok("")
    else
      match Lists.AppendEach(docs, |docs|, ScreenEntry)
      case Raised(m) => Raised(m)
      case Ok(entries) =>
        Text.StartsWithConcat(SectionHeading(ScreenTitle, |docs|), entries);
        Ok(SectionHeading(ScreenTitle, |docs|) + entries)
  }

  /** The data-model section: empty exactly when there is no data-model document. */
  function ModelSection(docs: seq<Storage.Document>): (r: string)
    ensures r == "" <==> docs == []
    ensures docs != [] ==> Text.StartsWith(r, SectionHeading(ModelTitle, |docs|))
  {
    if |docs| == 0 then ""
    else
      Text.StartsWithConcat(SectionHeading(ModelTitle, |docs|), ModelEntries(docs, |docs|));
      SectionHeading(ModelTitle, |docs|) + ModelEntries(docs, |docs|)
  }

  function PlannedNote(kind: string): string
  {
    "*" + kind + "機能は現在開発中です。*\n\n"
  }

  /** An API or database section: empty exactly when it has no document. */
  function PlannedSection(title: string, kind: string, docs: seq<Storage.Document>): (r: string)
    ensures r == "" <==> docs == []
    ensures docs != [] ==> Text.StartsWith(r, SectionHeading(title, |docs|))
  {
    if |docs| == 0 then ""
    else
      var h := SectionHeading(title, |docs|);
      Text.StartsWithConcat(h, PlannedNote(kind));
      Text.StartsWithExtend(h + PlannedNote(kind), PlannedEntries(kind, docs, |docs|), h);
      Text.StartsWithExtend(h + PlannedNote(kind) + PlannedEntries(kind, docs, |docs|), "---\n\n", h);
      h + PlannedNote(kind) + PlannedEntries(kind, docs, |docs|) + "---\n\n"
  }

  /** A footer line counting the documents of one type: present exactly when there are some. */
  function CountLine(kind: string, n: nat): (r: string)
    ensures r == "" <==> n == 0
    ensures n > 0 ==> Text.StartsWith(r, "  - " + kind + ": " + Text.NatToString(n) + "件")
  {
    if n == 0 then ""
    else
      Text.StartsWithConcat("  - " + kind + ": " + Text.NatToString(n) + "件", "\n");
      "  - " + kind + ": " + Text.NatToString(n) + "件" + "\n"
  }

  function Overview(projectName: string, description: string, localTime: string, count: nat): string
  {
    "# " + projectName + " 設計書\n\n"
    + "## 📋 プロジェクト概要\n\n"
    + "**プロジェクト名**: " + projectName + "\n"
    + (if Text.Trim(description) != "" then "**説明**: " + description + "\n" else "")
    + "**作成日時**: " + localTime + "\n"
    + "**設計書数**: " + Text.NatToString(count) + "件\n\n"
  }

  function TotalLine(count: nat): string
  {
    "- **総設計書数**: " + Text.NatToString(count) + "件\n"
  }

  function FooterHead(isoTime: string): string
  {
    "## 📄 エクスポート情報\n\n- **ツール**: mdai-designer\n- **形式**: プロジェクト統合設計書\n"
    + "- **生成日時**: " + isoTime + "\n"
  }

  function TypeCounts(docs: seq<Storage.Document>): string
  {
    CountLine("画面設計書", |OfType(docs, Storage.Screen)|)
    + CountLine("データモデル設計書", |OfType(docs, Storage.Model)|)
    + CountLine("API設計書", |OfType(docs, Storage.Api)|)
    + CountLine("データベース設計書", |OfType(docs, Storage.Database)|)
  }

  /** The export information: the total over all documents, then the per-type counts that are not zero. */
  function Footer(docs: seq<Storage.Document>, isoTime: string): (r: string)
    ensures Text.Contains(r, TotalLine(|docs|))
  {
    Text.ContainsInfix(FooterHead(isoTime), TotalLine(|docs|), TypeCounts(docs));
    FooterHead(isoTime) + TotalLine(|docs|) + TypeCounts(docs)
  }

  /** The whole-project document: overview, the four type sections in a fixed order, and the footer. */
  function ProjectMarkdown(projectName: string, description: string, docs: seq<Storage.Document>,
                           localTime: string, isoTime: string): (r: Outcome<string>)
    ensures r.Ok? <==> ScreenSection(OfType(docs, Storage.Screen)).Ok?
    ensures r.Ok? ==> Text.Contains(r.value, TotalLine(|docs|))
  {
    match ScreenSection(OfType(docs, Storage.Screen))
    case Raised(m) => Raised(m)
    case Ok(screens) =>
      var body := Overview(projectName, description, localTime, |docs|) + screens
                  + ModelSection(OfType(docs, Storage.Model))
                  + PlannedSection(ApiTitle, "API設計書", OfType(docs, Storage.Api))
                  + PlannedSection(DatabaseTitle, "データベース設計書", OfType(docs, Storage.Database));
      Text.ContainsExtend(body, Footer(docs, isoTime), TotalLine(|docs|));
      Ok(body + Footer(docs, isoTime))
  }

  method RenderScreenDocs(docs: seq<Storage.Document>) returns (r: Outcome<string>)
    ensures r == Lists.AppendEach(docs, |docs|, ScreenEntry)
  {
    var markdown := "";
    var i := 0;
    while i < |docs|
      invariant i <= |docs| && Lists.AppendEach(docs, i, ScreenEntry) == Ok(markdown)
    {
      var doc := docs[i];
      var table := MarkdownTable.ConvertSpreadsheetToMarkdownTable(Json.Or(doc.spreadsheet, Json.JArr([])));
      ghost var k := i;
      i := i + 1;
      Lists.AppendEachStep(docs, k, i, ScreenEntry, markdown);
      if table.Raised? {
        Lists.AppendEachRaisedPersists(docs, i, |docs|, ScreenEntry);
        return Raised(table.message);
      }
      markdown := markdown + ScreenEntryText(i - 1, doc, table.value);
    }
    r := Ok(markdown);
  }

  method RenderModelDocs(docs: seq<Storage.Document>) returns (markdown: string)
    ensures markdown == ModelEntries(docs, |docs|)
  {
    markdown := "";
    var i := 0;
    while i < |docs|
      invariant i <= |docs| && markdown == ModelEntries(docs, i)
    {
      var diagram := RenderDiagramBody("#### 📋 エンティティ一覧\n\n", "#####", docs[i]);
      markdown := markdown + ModelEntryText(i, docs[i], diagram);
      ghost var k := i;
      i := i + 1;
      ModelEntriesStep(docs, k, i);
    }
  }

  method RenderPlannedDocs(kind: string, docs: seq<Storage.Document>) returns (markdown: string)
    ensures markdown == PlannedEntries(kind, docs, |docs|)
  {
    markdown := "";
    var i := 0;
    while i < |docs|
      invariant i <= |docs| && markdown == PlannedEntries(kind, docs, i)
    {
      markdown := markdown + PlannedEntry(kind, i, docs[i]);
      ghost var k := i;
      i := i + 1;
      PlannedEntriesStep(kind, docs, k, i);
    }
  }

  method RenderScreenSection(docs: seq<Storage.Document>) returns (r: Outcome<string>)
    ensures r == ScreenSection(docs)
  {
    if |docs| == 0 {
      return Ok("");
    }
    var entries := RenderScreenDocs(docs);
    if entries.Raised? {
      return Raised(entries.message);
    }
    r := Ok(SectionHeading(ScreenTitle, |docs|) + entries.value);
  }

  method RenderModelSection(docs: seq<Storage.Document>) returns (section: string)
    ensures section == ModelSection(docs)
  {
    section := "";
    if |docs| > 0 {
      var entries := RenderModelDocs(docs);
      section := SectionHeading(ModelTitle, |docs|) + entries;
    }
  }

  method RenderPlannedSection(title: string, kind: string, docs: seq<Storage.Document>) returns (section: string)
    ensures section == PlannedSection(title, kind, docs)
  {
    section := "";
    if |docs| > 0 {
      var entries := RenderPlannedDocs(kind, docs);
      section := SectionHeading(title, |docs|) + PlannedNote(kind) + entries + "---\n\n";
    }
  }

  /** The converter: the overview, then each non-empty type group's section, then the footer. */
  method ConvertProjectToMarkdown(projectName: string, description: string, documents: seq<Storage.Document>,
                                  localTime: string, isoTime: string) returns (r: Outcome<string>)
    ensures r == ProjectMarkdown(projectName, description, documents, localTime, isoTime)
  {
    var markdown := Overview(projectName, description, localTime, |documents|);
    var screens := RenderScreenSection(OfType(documents, Storage.Screen));
    if screens.Raised? {
      return Raised(screens.message);
    }
    markdown := markdown + screens.value;
    var section := RenderModelSection(OfType(documents, Storage.Model));
    markdown := markdown + section;
    section := RenderPlannedSection(ApiTitle, "API設計書", OfType(documents, Storage.Api));
    markdown := markdown + section;
    section := RenderPlannedSection(DatabaseTitle, "データベース設計書", OfType(documents, Storage.Database));
    markdown := markdown + section;
    markdown := markdown + Footer(documents, isoTime);
    r := Ok(markdown);
  }

  /** One document's contribution to each group count. */
  lemma GroupCountsStep(docs: seq<Storage.Document>, t: Storage.DocumentType)
    requires docs != []
    ensures |OfType(docs, t)| == (if docs[0].docType == Some(t) then 1 else 0) + |OfType(docs[1..], t)|
    ensures |Untyped(docs)| == (if docs[0].docType.None? then 1 else 0) + |Untyped(docs[1..])|
  {
  }

  /** A type no document has gets an empty group. */
  lemma {:induction false} OfTypeNone(docs: seq<Storage.Document>, t: Storage.DocumentType)
    requires forall d :: d in docs ==> d.docType != Some(t)
    ensures OfType(docs, t) == []
  {
    if docs != [] {
      assert docs[0] in docs;
      assert forall d :: d in docs[1..] ==> d in docs;
      OfTypeNone(docs[1..], t);
      GroupCountsStep(docs, t);
    }
  }

  /** The four type groups and the untyped documents partition the documents. */
  lemma {:induction false} TypeGroupsPartition(docs: seq<Storage.Document>)
    ensures |OfType(docs, Storage.Screen)| + |OfType(docs, Storage.Model)| + |OfType(docs, Storage.Api)|
            + |OfType(docs, Storage.Database)| + |Untyped(docs)| == |docs|
  {
    if docs != [] {
      TypeGroupsPartition(docs[1..]);
      match docs[0].docType {
        case None =>
        case Some(t) => assert t == Storage.Screen || t == Storage.Model || t == Storage.Api || t == Storage.Database;
      }
      GroupCountsStep(docs, Storage.Screen);
      GroupCountsStep(docs, Storage.Model);
      GroupCountsStep(docs, Storage.Api);
      GroupCountsStep(docs, Storage.Database);
    }
  }

  /**
   * A document without a type appears in no section, yet the footer total counts it: the
   * section counts then add up to less than the total.
   */
  lemma UntypedDocumentsOnlyCounted(docs: seq<Storage.Document>, d: Storage.Document)
    requires d in docs && d.docType.None?
    ensures d !in OfType(docs, Storage.Screen) && d !in OfType(docs, Storage.Model)
    ensures d !in OfType(docs, Storage.Api) && d !in OfType(docs, Storage.Database)
    ensures |OfType(docs, Storage.Screen)| + |OfType(docs, Storage.Model)| + |OfType(docs, Storage.Api)|
            + |OfType(docs, Storage.Database)| < |docs|
  {
    TypeGroupsPartition(docs);
    assert d in Untyped(docs);
  }
}
