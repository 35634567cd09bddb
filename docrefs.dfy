/**
 * Cross-references between the documents of a project: the references a document can mention,
 * `@`-mentions in chat text and their resolution, the entities read from a Mermaid ER diagram,
 * and the definition sheet generated from those entities.
 */
module DocRefs {
  import opened Wrappers
  import Json
  import Text
  import Lists
  import Sorting
  import Storage

  // ---------------------------------------------------------------------------------------
  // References to the documents of a project
  // ---------------------------------------------------------------------------------------

  datatype DocumentContent = DocumentContent(
    conditions: string,
    supplement: string,
    spreadsheetData: Json.Json,
    mockupImage: Option<string>,
    mermaidCode: Option<string>,
    createdAt: int,
    updatedAt: int)

  datatype DocumentReference = DocumentReference(
    id: string,
    name: string,
    docType: Option<Storage.DocumentType>,
    projectId: string,
    content: DocumentContent)

  /** The reference to a document; a missing spreadsheet reads as []. */
  function ToReference(d: Storage.Document): DocumentReference
  {
    DocumentReference(d.id, d.name, d.docType, d.projectId,
                      DocumentContent(d.conditions, d.supplement, Json.Or(d.spreadsheet, Json.JArr([])),
                                      d.mockup, d.mermaidCode, d.createdAt, d.updatedAt))
  }

  /** The references to the documents of project `projectId`, in store order. */
  function ProjectDocuments(s: Storage.AppState, projectId: string): (r: seq<DocumentReference>)
    ensures |r| <= |s.documents|
    ensures forall x :: x in r ==> x.projectId == projectId
  {
    var docs := Lists.Filter(s.documents, (d: Storage.Document) => d.projectId == projectId);
    var refs := seq(|docs|, i requires 0 <= i < |docs| => ToReference(docs[i]));
    assert forall x :: x in refs ==> x.projectId == projectId by {
      forall x | x in refs ensures x.projectId == projectId {
        var i :| 0 <= i < |refs| && refs[i] == x;
        assert docs[i] in docs;
      }
    }
    refs
  }

  /** The project's references are exactly those of the documents whose project it is. */
  lemma ProjectDocumentsExactly(s: Storage.AppState, projectId: string)
    ensures forall r :: r in ProjectDocuments(s, projectId) <==>
              exists d :: d in s.documents && d.projectId == projectId && r == ToReference(d)
    ensures forall r :: r in ProjectDocuments(s, projectId) ==> r.projectId == projectId
  {
    var docs := Lists.Filter(s.documents, (d: Storage.Document) => d.projectId == projectId);
    var refs := ProjectDocuments(s, projectId);
    forall r | r in refs
      ensures exists d :: d in s.documents && d.projectId == projectId && r == ToReference(d)
    {
      var i :| 0 <= i < |refs| && refs[i] == r;
      assert docs[i] in docs;
    }
    forall d | d in s.documents && d.projectId == projectId ensures ToReference(d) in refs {
      assert d in docs;
      var i :| 0 <= i < |docs| && docs[i] == d;
      assert refs[i] == ToReference(d);
    }
  }

  /** The project's references of one type. */
  function DocumentsByType(s: Storage.AppState, projectId: string, t: Storage.DocumentType): (r: seq<DocumentReference>)
    ensures forall x :: x in r <==> x in ProjectDocuments(s, projectId) && x.docType == Some(t)
  {
    Lists.Filter(ProjectDocuments(s, projectId), (x: DocumentReference) => x.docType == Some(t))
  }

  /** `spreadsheet?.length` as a condition: a non-empty array or string, or an object whose `length` is truthy. */
  predicate HasLength(v: Json.Json)
  {
    match v
    case JArr(items) => items != []
    case JStr(t) => t != ""
    case JObj(_) => Json.Truthy(Json.Get(v, "length"))
    case _ => false
  }

  /**
   * The structured content of the first document with that id, None when there is none; a
   * spreadsheet without a length reads as [].
   */
  function GetDocumentContent(s: Storage.AppState, documentId: string): (r: Option<DocumentContent>)
    ensures r.None? <==> forall d :: d in s.documents ==> d.id != documentId
    ensures r.Some? ==>
              exists d :: d in s.documents && d.id == documentId
                && r.value.spreadsheetData == (if HasLength(d.spreadsheet) then d.spreadsheet else Json.JArr([]))
                && r.value == ToReference(d).content.(spreadsheetData := r.value.spreadsheetData)
  {
    match Lists.Find(s.documents, (d: Storage.Document) => d.id == documentId)
    case None => None
    case Some(d) =>
      Some(DocumentContent(d.conditions, d.supplement,
                           if HasLength(d.spreadsheet) then d.spreadsheet else Json.JArr([]),
                           d.mockup, d.mermaidCode, d.createdAt, d.updatedAt))
  }

  /**
   * The content read directly and the content inside the document's reference agree exactly
   * when the spreadsheet is falsy, has a length, or is the empty array; a truthy value without
   * a length (an object, say) is kept by the reference and replaced by [] here.
   */
  lemma ContentAgreesWithReference(s: Storage.AppState, d: Storage.Document)
    requires d in s.documents && forall e :: e in s.documents && e.id == d.id ==> e == d
    ensures GetDocumentContent(s, d.id).Some?
    ensures GetDocumentContent(s, d.id).value == ToReference(d).content
            <==> !Json.Truthy(d.spreadsheet) || HasLength(d.spreadsheet) || d.spreadsheet == Json.JArr([])
  {
    var c := GetDocumentContent(s, d.id).value;
    if !Json.Truthy(d.spreadsheet) {
      assert !HasLength(d.spreadsheet);
    }
    if c == ToReference(d).content {
      assert c.spreadsheetData == ToReference(d).content.spreadsheetData;
    }
  }

  predicate IsModel(x: DocumentReference)
  {
    x.docType == Some(Storage.Model)
  }

  /**
   * The mention list's order: data-model documents first, then by name under the collation
   * `nameBefore` (a locale comparison the model takes as given).
   */
  function ReferenceBefore(nameBefore: (string, string) -> bool): (DocumentReference, DocumentReference) -> bool
  {
    (a: DocumentReference, b: DocumentReference) =>
      (IsModel(a) && !IsModel(b)) || (IsModel(a) == IsModel(b) && nameBefore(a.name, b.name))
  }

  lemma ReferenceBeforeIsPreorder(nameBefore: (string, string) -> bool)
    requires Sorting.TotalPreorder(nameBefore)
    ensures Sorting.TotalPreorder(ReferenceBefore(nameBefore))
  {
    var before := ReferenceBefore(nameBefore);
    forall x, y ensures before(x, y) || before(y, x) {
      assert nameBefore(x.name, y.name) || nameBefore(y.name, x.name);
    }
    forall x, y, z | before(x, y) && before(y, z) ensures before(x, z) {
      if IsModel(x) == IsModel(y) && IsModel(y) == IsModel(z) {
        assert nameBefore(x.name, y.name) && nameBefore(y.name, z.name);
      }
    }
  }

  /**
   * The documents the current one can mention: the other documents of its project, data
   * models first and then by name. Without a current document none is left out.
   */
  function ReferenceableDocuments(s: Storage.AppState, projectId: string, current: Option<string>,
                                  nameBefore: (string, string) -> bool): (r: seq<DocumentReference>)
    ensures forall x :: x in r ==> x.projectId == projectId && (current.None? || x.id != current.value)
  {
    var others := Lists.Filter(ProjectDocuments(s, projectId),
                               (x: DocumentReference) => current.None? || x.id != current.value);
    var sorted := Sorting.Sort(others, ReferenceBefore(nameBefore));
    assert forall x :: x in sorted ==> x in others by {
      forall x | x in sorted ensures x in others {
        assert x in multiset(sorted);
      }
    }
    sorted
  }

  /**
   * The mentionable documents are exactly the project's documents other than the current one,
   * and every data-model document comes before every other one.
   */
  lemma ReferenceableExactlyOthers(s: Storage.AppState, projectId: string, current: Option<string>,
                                   nameBefore: (string, string) -> bool)
    requires Sorting.TotalPreorder(nameBefore)
    ensures var r := ReferenceableDocuments(s, projectId, current, nameBefore);
            (forall x :: x in r <==> x in ProjectDocuments(s, projectId) && (current.None? || x.id != current.value))
            && (forall i, j :: 0 <= i < j < |r| && IsModel(r[j]) ==> IsModel(r[i]))
            && Sorting.Sorted(r, ReferenceBefore(nameBefore))
  {
    var others := Lists.Filter(ProjectDocuments(s, projectId),
                               (x: DocumentReference) => current.None? || x.id != current.value);
    var r := Sorting.Sort(others, ReferenceBefore(nameBefore));
    assert forall x :: x in r <==> x in multiset(r);
    assert forall x :: x in others <==> x in multiset(others);
    ReferenceBeforeIsPreorder(nameBefore);
    Sorting.SortSorted(others, ReferenceBefore(nameBefore));
  }

  // ---------------------------------------------------------------------------------------
  // @-mentions
  // ---------------------------------------------------------------------------------------

  /**
   * The mentions in `s`, in order: every `@` followed by a non-space character starts one,
   * which runs to the next whitespace (so it may contain further `@`s), and the search goes on
   * after it.
   */
  function Mentions(s: string): (r: seq<string>)
    ensures forall m :: m in r ==> m != "" && forall k :: 0 <= k < |m| ==> !Text.JsSpace(m[k])
    decreases |s|
  {
    if |s| < 2 then []
    else if s[0] == '@' && !Text.JsSpace(s[1]) then
      var m := Text.NonSpacePrefix(s[1..]);
      [m] + Mentions(s[1 + |m|..])
    else Mentions(s[1..])
  }

  /** Two mentions written back to back are one: "@a@b" mentions only "a@b". */
  lemma AdjacentMentionsGlue()
    ensures Mentions("@a@b") == ["a@b"]
  {
    var s := "@a@b";
    assert Text.NonSpacePrefix(s[1..]) == "a@b" by {
      assert s[1..] == ['a'] + "@b";
      assert "@b" == ['@'] + "b";
      assert "b" == ['b'] + [];
    }
    assert s[4..] == [];
  }

  /** Names without whitespace written as `@name ` one after another. */
  function MentionText(names: seq<string>): string
  {
    if names == [] then "" else "@" + names[0] + " " + MentionText(names[1..])
  }

  lemma NonSpacePrefixOf(n: string, rest: string)
    requires forall k :: 0 <= k < |n| ==> !Text.JsSpace(n[k])
    ensures Text.NonSpacePrefix(n + " " + rest) == n
  {
    if n != [] {
      assert (n + " " + rest)[1..] == n[1..] + " " + rest;
      NonSpacePrefixOf(n[1..], rest);
    }
  }

  /** The mentions of names written as `@name ` are those names, in order. */
  lemma {:induction false} MentionsOfMentionText(names: seq<string>)
    requires forall n :: n in names ==> n != "" && forall k :: 0 <= k < |n| ==> !Text.JsSpace(n[k])
    ensures Mentions(MentionText(names)) == names
  {
    if names != [] {
      MentionFirst(names[0], MentionText(names[1..]));
      MentionsOfMentionText(names[1..]);
      assert names == [names[0]] + names[1..];
    }
  }

  /** A mention `@n ` in front of a text. */
  lemma MentionFirst(n: string, rest: string)
    requires n != "" && forall k :: 0 <= k < |n| ==> !Text.JsSpace(n[k])
    ensures Mentions("@" + n + " " + rest) == [n] + Mentions(rest)
  {
    var s := "@" + n + " " + rest;
    assert s[0] == '@' && s[1] == n[0];
    assert s[1..] == n + " " + rest;
    NonSpacePrefixOf(n, rest);
    assert s[1 + |n|..] == " " + rest;
    MentionsAfterSpace(rest);
  }

  /** A leading space starts no mention. */
  lemma MentionsAfterSpace(rest: string)
    ensures Mentions(" " + rest) == Mentions(rest)
  {
    assert Text.JsSpace(' ');
    if |" " + rest| >= 2 {
      assert (" " + rest)[1..] == rest;
    }
  }

  /** The mention aliases of document types. */
  function MentionAlias(mention: string): (r: Option<Storage.DocumentType>)
    ensures r.Some? ==> r.value != Storage.Database
  {
    if mention in {"データモデル設計書", "モデル設計書", "データモデル"} then Some(Storage.Model)
    else if mention in {"画面設計書", "画面設計"} then Some(Storage.Screen)
    else if mention in {"API設計書", "API設計"} then Some(Storage.Api)
    else None
  }

  /**
   * The document a mention names: the first with exactly that name, else the first of the
   * type an alias names, else the first whose name contains the mention or is contained in it.
   */
  function FindByMention(s: Storage.AppState, projectId: string, mention: string): (r: Option<DocumentReference>)
    ensures r.Some? ==> r.value.projectId == projectId
    ensures r.Some? && (exists x :: x in ProjectDocuments(s, projectId) && x.name == mention) ==> r.value.name == mention
  {
    var docs := ProjectDocuments(s, projectId);
    var exact := Lists.Find(docs, (x: DocumentReference) => x.name == mention);
    if exact.Some? then exact
    else
      var byType := match MentionAlias(mention)
                    case Some(t) => Lists.Find(docs, (x: DocumentReference) => x.docType == Some(t))
                    case None => None;
      if byType.Some? then byType
      else Lists.Find(docs, (x: DocumentReference) => Text.Contains(x.name, mention) || Text.Contains(mention, x.name))
  }

  /**
   * The precedence of mention resolution: an exact name wins, then the aliased type, then a
   * containment in either direction; the result is always a document of the project, and
   * there is none exactly when no document matches in any of the three ways.
   */
  lemma FindByMentionPrecedence(s: Storage.AppState, projectId: string, mention: string)
    ensures var docs := ProjectDocuments(s, projectId);
            var r := FindByMention(s, projectId, mention);
            (r.Some? ==> r.value in docs)
            && ((exists x :: x in docs && x.name == mention) ==> r.Some? && r.value.name == mention)
            && ((forall x :: x in docs ==> x.name != mention)
                && MentionAlias(mention).Some?
                && (exists x :: x in docs && x.docType == MentionAlias(mention))
                ==> r.Some? && r.value.docType == MentionAlias(mention))
            && (r.None? <==>
                  forall x :: x in docs ==>
                    x.name != mention
                    && (MentionAlias(mention).None? || x.docType != MentionAlias(mention))
                    && !Text.Contains(x.name, mention) && !Text.Contains(mention, x.name))
  {
  }

  // ---------------------------------------------------------------------------------------
  // Entities of a Mermaid ER diagram
  // ---------------------------------------------------------------------------------------

  datatype FieldInfo = FieldInfo(name: string, fieldType: string, nullable: bool, primaryKey: bool, foreignKey: bool)
  datatype RelationshipInfo = RelationshipInfo(targetEntity: string, description: string)  // always one-to-many
  datatype EntityInfo = EntityInfo(name: string, fields: seq<FieldInfo>, relationships: seq<RelationshipInfo>)

  /** The regular-expression word characters `\w`. */
  predicate IsWordChar(c: char)
  {
    'a' <= c <= 'z' || 'A' <= c <= 'Z' || '0' <= c <= '9' || c == '_'
  }

  /** A non-empty run of word characters. */
  predicate IsWord(s: string)
  {
    s != "" && forall k :: 0 <= k < |s| ==> IsWordChar(s[k])
  }

  /** The longest prefix of `t` made of word characters. */
  function WordPrefix(t: string): (r: string)
    ensures |r| <= |t| && r == t[..|r|]
    ensures forall k :: 0 <= k < |r| ==> IsWordChar(r[k])
    ensures |r| == |t| || !IsWordChar(t[|r|])
  {
    if t == [] || !IsWordChar(t[0]) then [] else [t[0]] + WordPrefix(t[1..])
  }

  /** The entity header `^(\w+)\s*\{`: the name it opens, if the line is one. */
  function HeaderName(line: string): (r: Option<string>)
    ensures r.Some? ==> IsWord(r.value)
  {
    var name := WordPrefix(line);
    var rest := Text.TrimLeft(Text.Js, line[|name|..]);
    if name != "" && rest != "" && rest[0] == '{' then Some(name) else None
  }

  const Constraints: set<string> := {"PK", "FK", "UK", "NULL", "NOT_NULL"}

  /**
   * The field pattern `^\s*(\w+)\s+(\w+)(?:\s+(PK|FK|UK|NULL|NOT_NULL))*\s*$` on tokens: two
   * words and any number of constraint words. The first word is stored as the field's name
   * and the second as its type. The repeated group captures only its last repetition, so the
   * flags are read from the last constraint alone.
   */
  function FieldFromTokens(ws: seq<string>): (r: Option<FieldInfo>)
    ensures r.Some? ==> |ws| >= 2 && r.value.name == ws[0] && r.value.fieldType == ws[1]
    ensures r.Some? ==> !(r.value.primaryKey && r.value.foreignKey)
    ensures r.Some? && r.value.primaryKey ==> ws[|ws| - 1] == "PK"
    ensures r.Some? && !r.value.nullable ==> ws[|ws| - 1] == "NOT_NULL"
  {
    if |ws| >= 2 && IsWord(ws[0]) && IsWord(ws[1]) && forall k :: 2 <= k < |ws| ==> ws[k] in Constraints then
      var last := if |ws| > 2 then Some(ws[|ws| - 1]) else None;
      Some(FieldInfo(ws[0], ws[1], last != Some("NOT_NULL"), last == Some("PK"), last == Some("FK")))
    else None
  }

  /**
   * The flags of a field line come from its last constraint only: `int id PK FK` is a foreign
   * key and not a primary key, and a field without constraints is nullable and neither key.
   */
  lemma FieldFlagsFromLastConstraint(name: string, typ: string, cs: seq<string>)
    requires IsWord(name) && IsWord(typ) && forall c :: c in cs ==> c in Constraints
    ensures var f := FieldFromTokens([name, typ] + cs);
            f.Some? && f.value.name == name && f.value.fieldType == typ
            && (cs == [] ==> f.value.nullable && !f.value.primaryKey && !f.value.foreignKey)
            && (cs != [] ==> f.value.primaryKey == (cs[|cs| - 1] == "PK")
                             && f.value.foreignKey == (cs[|cs| - 1] == "FK")
                             && f.value.nullable == (cs[|cs| - 1] != "NOT_NULL"))
    ensures FieldFromTokens(["int", "id", "PK", "FK"]).value.foreignKey
    ensures !FieldFromTokens(["int", "id", "PK", "FK"]).value.primaryKey
  {
    var ws := [name, typ] + cs;
    forall k | 2 <= k < |ws| ensures ws[k] in Constraints {
      assert ws[k] == cs[k - 2];
    }
    assert IsWord("int") && IsWord("id");
    var ex := ["int", "id", "PK", "FK"];
    assert forall k :: 2 <= k < |ex| ==> ex[k] in Constraints;
  }

  /**
   * Mermaid writes an attribute as its type followed by its name, so the parser names the
   * field after its type: `string email` becomes a field named `string` of type `email`.
   */
  lemma FieldNamedAfterType()
    ensures var f := FieldFromTokens(["string", "email"]);
            f.Some? && f.value.name == "string" && f.value.fieldType == "email"
  {
    assert IsWord("string") && IsWord("email");
  }

  /** The field read in Mermaid's order: the first word is the type, the second the name. */
  function FieldFromMermaidTokens(ws: seq<string>): Option<FieldInfo>
  {
    match FieldFromTokens(ws)
    case None => None
    case Some(f) => Some(f.(name := f.fieldType, fieldType := f.name))
  }

  /** Read in Mermaid's order, `type name constraints` gives back that name and that type. */
  lemma MermaidOrderKeepsName(typ: string, name: string, cs: seq<string>)
    requires IsWord(name) && IsWord(typ) && forall c :: c in cs ==> c in Constraints
    ensures var f := FieldFromMermaidTokens([typ, name] + cs);
            f.Some? && f.value.name == name && f.value.fieldType == typ
  {
    FieldFlagsFromLastConstraint(typ, name, cs);
  }

  /** The relationship pattern `(\w+)\s*\|\|--o\{\s*(\w+)\s*:\s*"([^"]+)"` tried at offset `i`. */
  function RelationAt(line: string, i: nat): (r: Option<(string, RelationshipInfo)>)
    requires i <= |line|
    ensures r.Some? ==> IsWord(r.value.0) && IsWord(r.value.1.targetEntity) && r.value.1.description != ""
  {
    var source := WordPrefix(line[i..]);
    var a := Text.TrimLeft(Text.Js, line[i + |source|..]);
    if source == "" || !Text.StartsWith(a, "||--o{") then None
    else
      match RelationTarget(a[6..])
      case None => None
      case Some(rel) => Some((source, rel))
  }

  /** The part of the relationship pattern after the arrow: `\s*(\w+)\s*:\s*"([^"]+)"`. */
  function RelationTarget(t: string): (r: Option<RelationshipInfo>)
    ensures r.Some? ==> IsWord(r.value.targetEntity) && r.value.description != ""
  {
    var b := Text.TrimLeft(Text.Js, t);
    var target := WordPrefix(b);
    var c := Text.TrimLeft(Text.Js, b[|target|..]);
    if target == "" || c == [] || c[0] != ':' then None
    else
      match QuotedText(Text.TrimLeft(Text.Js, c[1..]))
      case None => None
      case Some(description) => Some(RelationshipInfo(target, description))
  }

  /** `"([^"]+)"` at the start of `d`: the non-empty text between two double quotes. */
  function QuotedText(d: string): (r: Option<string>)
    ensures r.Some? ==> r.value != "" && '"' !in r.value
  {
    if d == [] || d[0] != '"' then None
    else
      var description := QuotePrefix(d[1..]);
      if description == "" || 1 + |description| == |d| then None else Some(description)
  }

  /** The longest prefix of `t` without a double quote. */
  function QuotePrefix(t: string): (r: string)
    ensures |r| <= |t| && r == t[..|r|] && '"' !in r
    ensures |r| == |t| || t[|r|] == '"'
  {
    if t == [] || t[0] == '"' then [] else [t[0]] + QuotePrefix(t[1..])
  }

  /** The leftmost match of the relationship pattern at or after offset `i`. */
  function RelationFrom(line: string, i: nat): Option<(string, RelationshipInfo)>
    requires i <= |line|
    decreases |line| - i
  {
    var here := RelationAt(line, i);
    if here.Some? || i == |line| then here else RelationFrom(line, i + 1)
  }

  /** Adds the relationship to the first already-emitted entity named `source`, if any. */
  function Attach(entities: seq<EntityInfo>, source: string, rel: RelationshipInfo): seq<EntityInfo>
  {
    match Lists.FindIndex(entities, (e: EntityInfo) => e.name == source)
    case None => entities
    case Some(k) => entities[k := entities[k].(relationships := entities[k].relationships + [rel])]
  }

  /**
   * A relationship goes to the first emitted entity of its source name and nowhere else; with
   * no such entity nothing changes.
   */
  lemma AttachToFirstNamed(entities: seq<EntityInfo>, source: string, rel: RelationshipInfo)
    ensures var r := Attach(entities, source, rel);
            |r| == |entities|
            && ((forall e :: e in entities ==> e.name != source) ==> r == entities)
            && forall k :: 0 <= k < |entities| ==>
                 r[k].name == entities[k].name && r[k].fields == entities[k].fields
                 && r[k].relationships ==
                      if entities[k].name == source && forall j :: 0 <= j < k ==> entities[j].name != source
                      then entities[k].relationships + [rel]
                      else entities[k].relationships
  {
    match Lists.FindIndex(entities, (e: EntityInfo) => e.name == source)
    case None =>
    case Some(first) =>
      forall k | 0 <= k < |entities| && entities[k].name == source
        ensures (forall j :: 0 <= j < k ==> entities[j].name != source) <==> k == first
      {
        if k > first {
          assert entities[first].name == source;
        }
      }
  }

  /** The parser's state: the emitted entities and the one still open. */
  datatype ParseState = ParseState(entities: seq<EntityInfo>, current: Option<EntityInfo>)

  function Emitted(current: Option<EntityInfo>): seq<EntityInfo>
  {
    match current
    case None => []
    case Some(e) => [e]
  }

  /**
   * One trimmed line: a header emits the open entity and opens a new one; `}` closes the open
   * one; otherwise a field line extends the open entity, and a relationship anywhere in the
   * line attaches to an emitted entity.
   */
  function Step(st: ParseState, line: string): ParseState
  {
    match HeaderName(line)
    case Some(name) => ParseState(st.entities + Emitted(st.current), Some(EntityInfo(name, [], [])))
    case None =>
      if st.current.Some? && line == "}" then ParseState(st.entities + [st.current.value], None)
      else ParseState(Relate(st.entities, line), Extend(st.current, line))
  }

  /** The open entity after a line that is neither a header nor a close: a field line extends it. */
  function Extend(current: Option<EntityInfo>, line: string): Option<EntityInfo>
  {
    if current.None? then None
    else
      match FieldFromTokens(Text.Tokens(line))
      case None => current
      case Some(f) => Some(current.value.(fields := current.value.fields + [f]))
  }

  /** The emitted entities after a line that is neither a header nor a close. */
  function Relate(entities: seq<EntityInfo>, line: string): seq<EntityInfo>
  {
    match RelationFrom(line, 0)
    case None => entities
    case Some((source, rel)) => Attach(entities, source, rel)
  }

  /** The state after the first `n` lines. */
  function Fold(lines: seq<string>, n: nat): ParseState
    requires n <= |lines|
  {
    if n == 0 then ParseState([], None) else Step(Fold(lines, n - 1), lines[n - 1])
  }

  /** The diagram's lines, trimmed. */
  function TrimmedLines(code: string): (r: seq<string>)
    ensures |r| == |Text.Lines(code)|
  {
    var lines := Text.Lines(code);
    seq(|lines|, i requires 0 <= i < |lines| => Text.Trim(lines[i]))
  }

  /**
   * The entities of a diagram: none without `erDiagram` in the text; otherwise those closed
   * by `}` or by the next header, the one still open at the end being dropped.
   */
  function ParseEntities(code: string): (r: seq<EntityInfo>)
    ensures !Text.Contains(code, "erDiagram") ==> r == []
  {
    if !Text.Contains(code, "erDiagram") then []
    else
      var lines := TrimmedLines(code);
      Fold(lines, |lines|).entities
  }

  /** The parser as a loop over the lines that updates the entity list and the open entity. */
  method ParseEntitiesFromMermaid(code: string) returns (entities: seq<EntityInfo>)
    ensures entities == ParseEntities(code)
  {
    if !Text.Contains(code, "erDiagram") {
      return [];
    }
    entities := ReadLines(TrimmedLines(code));
  }

  /** The loop over the trimmed lines; the entity still open at the end is not emitted. */
  method ReadLines(lines: seq<string>) returns (entities: seq<EntityInfo>)
    ensures entities == Fold(lines, |lines|).entities
  {
    entities := [];
    var current: Option<EntityInfo> := None;
    var i := 0;
    while i < |lines|
      invariant 0 <= i <= |lines|
      invariant ParseState(entities, current) == Fold(lines, i)
    {
      entities, current := ReadLine(entities, current, lines[i]);
      FoldNext(lines, i);
      i := i + 1;
    }
  }

  lemma FoldNext(lines: seq<string>, i: nat)
    requires i < |lines|
    ensures Fold(lines, i + 1) == Step(Fold(lines, i), lines[i])
  {
  }

  /** The loop body: one trimmed line against the emitted entities and the open one. */
  method ReadLine(entities: seq<EntityInfo>, current: Option<EntityInfo>, line: string)
    returns (entities': seq<EntityInfo>, current': Option<EntityInfo>)
    ensures ParseState(entities', current') == Step(ParseState(entities, current), line)
  {
    entities', current' := entities, current;
    var header := HeaderName(line);
    if header.Some? {
      if current.Some? {
        entities' := entities + [current.value];
      }
      current' := Some(EntityInfo(header.value, [], []));
    } else if current.Some? && line == "}" {
      entities' := entities + [current.value];
      current' := None;
    } else {
      if current.Some? {
        var field := FieldFromTokens(Text.Tokens(line));
        if field.Some? {
          current' := Some(current.value.(fields := current.value.fields + [field.value]));
        }
      }
      var relation := RelationFrom(line, 0);
      if relation.Some? {
        entities' := Attach(entities, relation.value.0, relation.value.1);
      }
    }
  }

  /** A header line emits the entity still open and opens an empty one, which is not yet emitted. */
  lemma HeaderEmitsOpenEntity(st: ParseState, line: string)
    requires HeaderName(line).Some?
    ensures Step(st, line) == ParseState(st.entities + Emitted(st.current), Some(EntityInfo(HeaderName(line).value, [], [])))
  {
  }

  /** A line that is not a header closes the open entity on `}` and otherwise extends it. */
  lemma StepOnOtherLine(st: ParseState, line: string)
    requires HeaderName(line).None?
    ensures st.current.Some? && line == "}" ==> Step(st, line) == ParseState(st.entities + [st.current.value], None)
    ensures !(st.current.Some? && line == "}") ==>
              Step(st, line) == ParseState(Relate(st.entities, line), Extend(st.current, line))
  {
  }

  predicate WordNamed(st: ParseState)
  {
    (forall e :: e in st.entities ==> IsWord(e.name)) && (st.current.Some? ==> IsWord(st.current.value.name))
  }

  /** A step keeps every entity named by a word: names only come from headers. */
  lemma StepKeepsWordNames(st: ParseState, line: string)
    requires WordNamed(st)
    ensures WordNamed(Step(st, line))
  {
    if HeaderName(line).Some? {
      HeaderEmitsOpenEntity(st, line);
    } else {
      StepOnOtherLine(st, line);
      if !(st.current.Some? && line == "}") {
        RelateKeepsWordNames(st.entities, line);
      }
    }
  }

  /** Attaching a relationship renames no entity. */
  lemma RelateKeepsWordNames(entities: seq<EntityInfo>, line: string)
    requires forall e :: e in entities ==> IsWord(e.name)
    ensures forall e :: e in Relate(entities, line) ==> IsWord(e.name)
  {
    match RelationFrom(line, 0)
    case None =>
    case Some((source, rel)) =>
      var r := Attach(entities, source, rel);
      assert r == Relate(entities, line);
      AttachToFirstNamed(entities, source, rel);
      forall e | e in r ensures IsWord(e.name) {
        var k :| 0 <= k < |r| && r[k] == e;
        assert entities[k] in entities;
      }
  }

  /**
   * Every parsed entity is named by a word, as the header pattern demands: once the state after
   * `i` lines is, so is the state after all of them.
   */
  lemma {:induction false} FoldNamesAreWords(lines: seq<string>, i: nat)
    requires i <= |lines| && WordNamed(Fold(lines, i))
    ensures WordNamed(Fold(lines, |lines|))
    decreases |lines| - i
  {
    if i < |lines| {
      FoldNamesAreWordsAfter(lines, i);
    }
  }

  /** FoldNamesAreWords with at least one line left. */
  lemma {:induction false} FoldNamesAreWordsAfter(lines: seq<string>, i: nat)
    requires i < |lines| && WordNamed(Fold(lines, i))
    ensures WordNamed(Fold(lines, |lines|))
    decreases |lines| - i, 0
  {
    FoldKeepsWordNames(lines, i);
    FoldNamesAreWords(lines, i + 1);
  }

  /** One more line keeps every entity of the fold named by a word. */
  lemma FoldKeepsWordNames(lines: seq<string>, i: nat)
    requires i < |lines| && WordNamed(Fold(lines, i))
    ensures WordNamed(Fold(lines, i + 1))
  {
    StepKeepsWordNames(Fold(lines, i), lines[i]);
    FoldNext(lines, i);
  }

  lemma ParsedNamesAreWords(code: string)
    ensures forall e :: e in ParseEntities(code) ==> IsWord(e.name)
  {
    if Text.Contains(code, "erDiagram") {
      var lines := TrimmedLines(code);
      assert Fold(lines, 0) == ParseState([], None);
      FoldNamesAreWords(lines, 0);
    }
  }

  // ---------------------------------------------------------------------------------------
  // The definition sheet generated from entities
  // ---------------------------------------------------------------------------------------

  datatype SheetCell = SheetCell(r: nat, c: nat, v: string)
  datatype GeneratedSheet = GeneratedSheet(name: string, celldata: seq<SheetCell>, row: nat, column: nat)

  /** The header row: item name, data type, required, description. */
  const HeaderCells: seq<SheetCell> :=
    [SheetCell(0, 0, "項目名"), SheetCell(0, 1, "データ型"), SheetCell(0, 2, "必須"), SheetCell(0, 3, "説明")]

  /** The four cells describing a field in row `r`. */
  function FieldRow(f: FieldInfo, r: nat): seq<SheetCell>
  {
    [SheetCell(r, 0, f.name), SheetCell(r, 1, f.fieldType),
     SheetCell(r, 2, if f.nullable then "任意" else "必須"),
     SheetCell(r, 3, if f.primaryKey then "Primary Key" else "")]
  }

  /** The rows of the first `n` fields, from row `start` on. */
  function FieldRows(fields: seq<FieldInfo>, start: nat, n: nat): seq<SheetCell>
    requires n <= |fields|
  {
    if n == 0 then [] else FieldRows(fields, start, n - 1) + FieldRow(fields[n - 1], start + n - 1)
  }

  /** The rows an entity takes: its title, one per field, and a blank one. */
  function Height(e: EntityInfo): nat
  {
    |e.fields| + 2
  }

  /** The rows the first `n` entities take. */
  function RowsUsed(entities: seq<EntityInfo>, n: nat): nat
    requires n <= |entities|
  {
    if n == 0 then 0 else RowsUsed(entities, n - 1) + Height(entities[n - 1])
  }

  /** An entity's cells from row `start`: `[name]` in the first column, then its fields. */
  function EntityCells(e: EntityInfo, start: nat): seq<SheetCell>
  {
    [SheetCell(start, 0, "[" + e.name + "]")] + FieldRows(e.fields, start + 1, |e.fields|)
  }

  /** The cells of the first `n` entities, below the header row. */
  function BodyCells(entities: seq<EntityInfo>, n: nat): seq<SheetCell>
    requires n <= |entities|
  {
    if n == 0 then [] else BodyCells(entities, n - 1) + EntityCells(entities[n - 1], 1 + RowsUsed(entities, n - 1))
  }

  /** The sheet's row count: five rows beyond those used, and at least 20. */
  function SheetHeight(rows: nat): (h: nat)
    ensures h >= 20 && h >= rows + 5 && (h == 20 || h == rows + 5)
  {
    if rows + 5 > 20 then rows + 5 else 20
  }

  /** The generated sheets: none for no entities, else one sheet at least 20 rows high. */
  function SpreadsheetFor(entities: seq<EntityInfo>): seq<GeneratedSheet>
  {
    if entities == [] then []
    else
      var rows := 1 + RowsUsed(entities, |entities|);
      [GeneratedSheet("データモデル連携", HeaderCells + BodyCells(entities, |entities|),
                      SheetHeight(rows), 10)]
  }

  /** The generator: a row counter advanced while the cells are pushed. */
  method GenerateSpreadsheet(entities: seq<EntityInfo>) returns (sheets: seq<GeneratedSheet>)
    ensures sheets == SpreadsheetFor(entities)
  {
    if |entities| == 0 {
      return [];
    }
    var celldata := HeaderCells;
    var rowIndex := 1;
    var i := 0;
    while i < |entities|
      invariant 0 <= i <= |entities|
      invariant celldata == HeaderCells + BodyCells(entities, i)
      invariant rowIndex == 1 + RowsUsed(entities, i)
    {
      ghost var body := BodyCells(entities, i);
      celldata, rowIndex := PushEntity(celldata, entities[i], rowIndex);
      i := i + 1;
      BodyCellsStep(entities, i);
      RowsUsedStep(entities, i);
      assert celldata == HeaderCells + BodyCells(entities, i) by {
        assert celldata == HeaderCells + body + EntityCells(entities[i - 1], 1 + RowsUsed(entities, i - 1));
      }
    }
    sheets := [GeneratedSheet("データモデル連携", celldata, SheetHeight(rowIndex), 10)];
    SheetOfCells(entities);
  }

  /** The sheet built from all the entities' cells and the rows they use. */
  lemma SheetOfCells(entities: seq<EntityInfo>)
    requires entities != []
    ensures SpreadsheetFor(entities)
            == [GeneratedSheet("データモデル連携", HeaderCells + BodyCells(entities, |entities|),
                               SheetHeight(1 + RowsUsed(entities, |entities|)), 10)]
  {
  }

  /** The inner loop: one row of four cells per field, from row `first` on. */
  method PushFieldRows(before: seq<SheetCell>, fields: seq<FieldInfo>, first: nat)
    returns (celldata: seq<SheetCell>, rowIndex: nat)
    ensures celldata == before + FieldRows(fields, first, |fields|)
    ensures rowIndex == first + |fields|
  {
    celldata, rowIndex := before, first;
    var j := 0;
    while j < |fields|
      invariant 0 <= j <= |fields|
      invariant celldata == before + FieldRows(fields, first, j)
      invariant rowIndex == first + j
    {
      celldata := celldata + FieldRow(fields[j], rowIndex);
      rowIndex := rowIndex + 1;
      j := j + 1;
    }
  }

  /** One entity from row `start`: its title cell, its field rows, and a blank row after them. */
  method PushEntity(before: seq<SheetCell>, e: EntityInfo, start: nat) returns (celldata: seq<SheetCell>, rowIndex: nat)
    ensures celldata == before + EntityCells(e, start)
    ensures rowIndex == start + Height(e)
  {
    var title := [SheetCell(start, 0, "[" + e.name + "]")];
    celldata, rowIndex := PushFieldRows(before + title, e.fields, start + 1);
    rowIndex := rowIndex + 1;
    assert celldata == before + (title + FieldRows(e.fields, start + 1, |e.fields|));
  }

  /** The cells after one more entity: its title and its field rows appended. */
  lemma BodyCellsStep(entities: seq<EntityInfo>, n: nat)
    requires 0 < n <= |entities|
    ensures BodyCells(entities, n)
            == BodyCells(entities, n - 1) + EntityCells(entities[n - 1], 1 + RowsUsed(entities, n - 1))
  {
  }

  /** The rows after one more entity: its title, its fields and a blank row more. */
  lemma RowsUsedStep(entities: seq<EntityInfo>, n: nat)
    requires 0 < n <= |entities|
    ensures RowsUsed(entities, n) == RowsUsed(entities, n - 1) + Height(entities[n - 1])
  {
  }

  lemma {:induction false} FieldRowsShape(fields: seq<FieldInfo>, start: nat, n: nat)
    requires n <= |fields|
    ensures |FieldRows(fields, start, n)| == 4 * n
    ensures forall k :: 0 <= k < 4 * n ==>
              var cell := FieldRows(fields, start, n)[k];
              cell.r == start + k / 4 && cell.c == k % 4
  {
    if n > 0 {
      FieldRowsShape(fields, start, n - 1);
    }
  }

  /** The fields of an entity sit one per row, in order, four cells to a row. */
  lemma FieldCellsDescribeFields(fields: seq<FieldInfo>, start: nat, k: nat)
    requires k < |fields|
    ensures var cells := FieldRows(fields, start, |fields|);
            |cells| == 4 * |fields|
            && cells[4 * k .. 4 * k + 4] == FieldRow(fields[k], start + k)
  {
    FieldCellsAt(fields, start, |fields|, k);
  }

  lemma {:induction false} FieldCellsAt(fields: seq<FieldInfo>, start: nat, n: nat, k: nat)
    requires k < n <= |fields|
    ensures |FieldRows(fields, start, n)| == 4 * n
    ensures FieldRows(fields, start, n)[4 * k .. 4 * k + 4] == FieldRow(fields[k], start + k)
  {
    FieldRowsShape(fields, start, n);
    if k < n - 1 {
      FieldCellsAt(fields, start, n - 1, k);
      assert FieldRows(fields, start, n)[..4 * (n - 1)] == FieldRows(fields, start, n - 1);
    }
  }

  /**
   * The body of the sheet lies in four columns, in rows after the header and before the
   * entities' last row, with rows never decreasing down the list.
   */
  lemma {:induction false} BodyCellsShape(entities: seq<EntityInfo>, n: nat)
    requires n <= |entities|
    ensures forall k :: 0 <= k < |BodyCells(entities, n)| ==>
              BodyCells(entities, n)[k].c < 4 && 1 <= BodyCells(entities, n)[k].r < 1 + RowsUsed(entities, n)
    ensures forall a, b :: 0 <= a < b < |BodyCells(entities, n)| ==>
              BodyCells(entities, n)[a].r <= BodyCells(entities, n)[b].r
  {
    if n > 0 {
      BodyCellsShape(entities, n - 1);
      var e := entities[n - 1];
      var start := 1 + RowsUsed(entities, n - 1);
      assert 1 + RowsUsed(entities, n) == start + Height(e);
      var head := BodyCells(entities, n - 1);
      var tail := EntityCells(e, start);
      EntityCellsShape(e, start);
      var cells := head + tail;
      assert cells == BodyCells(entities, n);
      forall k | 0 <= k < |cells| ensures cells[k].c < 4 && 1 <= cells[k].r < start + Height(e) {
        if k >= |head| {
          assert cells[k] == tail[k - |head|];
          assert tail[k - |head|].c < 4;
        } else {
          assert cells[k] == head[k];
          assert head[k].c < 4 && 1 <= head[k].r < start;
        }
      }
      forall a, b | 0 <= a < b < |cells| ensures cells[a].r <= cells[b].r {
        if b < |head| {
          assert cells[a] == head[a] && cells[b] == head[b];
        } else if a >= |head| {
          assert cells[a] == tail[a - |head|] && cells[b] == tail[b - |head|];
        } else {
          assert cells[a] == head[a] && cells[b] == tail[b - |head|];
        }
      }
    }
  }

  /** An entity's cells lie in four columns within its rows, in row order. */
  lemma EntityCellsShape(e: EntityInfo, start: nat)
    ensures var tail := EntityCells(e, start);
            (forall k :: 0 <= k < |tail| ==> tail[k].c < 4 && start <= tail[k].r < start + Height(e))
            && forall a, b :: 0 <= a < b < |tail| ==> tail[a].r <= tail[b].r
  {
    var rows := FieldRows(e.fields, start + 1, |e.fields|);
    FieldRowsShape(e.fields, start + 1, |e.fields|);
    var tail := EntityCells(e, start);
    forall k | 0 <= k < |tail| ensures tail[k].c < 4 && start <= tail[k].r < start + Height(e) {
      if k > 0 {
        assert tail[k] == rows[k - 1];
      }
    }
    forall a, b | 0 <= a < b < |tail| ensures tail[a].r <= tail[b].r {
      assert tail[b] == rows[b - 1];
      if a > 0 {
        assert tail[a] == rows[a - 1];
      }
    }
  }

  /**
   * The generated sheet: none for no entities; else the four header cells in row 0 followed by
   * the entities' cells in later rows, all within four columns and in row order, and a height
   * of at least 20 rows and five more than the rows used.
   */
  lemma GeneratedSheetShape(entities: seq<EntityInfo>)
    ensures entities == [] ==> SpreadsheetFor(entities) == []
    ensures entities != [] ==>
              var sheet := SpreadsheetFor(entities)[0];
              var used := 1 + RowsUsed(entities, |entities|);
              |SpreadsheetFor(entities)| == 1
              && sheet.celldata[..4] == HeaderCells
              && (forall k :: 0 <= k < |sheet.celldata| ==> sheet.celldata[k].c < 4 && sheet.celldata[k].r < used)
              && (forall k :: 4 <= k < |sheet.celldata| ==> sheet.celldata[k].r >= 1)
              && (forall a, b :: 0 <= a < b < |sheet.celldata| ==> sheet.celldata[a].r <= sheet.celldata[b].r)
              && sheet.row >= 20 && sheet.row >= used + 5
  {
    if entities != [] {
      BodyCellsShape(entities, |entities|);
      var body := BodyCells(entities, |entities|);
      var cells := HeaderCells + body;
      assert |HeaderCells| == 4;
      assert SpreadsheetFor(entities)[0].celldata == cells;
      forall k | 0 <= k < |cells|
        ensures cells[k].c < 4 && cells[k].r < 1 + RowsUsed(entities, |entities|)
        ensures k >= 4 ==> cells[k].r >= 1
      {
        if k >= 4 {
          assert cells[k] == body[k - 4];
        } else {
          assert cells[k] == HeaderCells[k];
        }
      }
      forall a, b | 0 <= a < b < |cells| ensures cells[a].r <= cells[b].r {
        if 4 <= a {
          assert cells[a] == body[a - 4] && cells[b] == body[b - 4];
        } else if 4 <= b {
          assert cells[a] == HeaderCells[a] && cells[b] == body[b - 4];
        } else {
          assert cells[a] == HeaderCells[a] && cells[b] == HeaderCells[b];
        }
      }
    }
  }
}
