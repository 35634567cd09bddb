/**
 * Project export and import: the export file holds one project and exactly its documents; the
 * import re-creates the project under a fresh id and adds its documents to it one by one.
 */
module ProjectOps {
  import opened Wrappers
  import Json
  import Lists
  import Storage

  /** The export file (`ProjectExportData`); `exportedAt` is the clock's text. */
  datatype ExportData = ExportData(
    project: Storage.Project,
    documents: seq<Storage.Document>,
    exportedAt: string,
    version: string)

  const FormatVersion := "1.0"

  /**
   * `handleProjectExport`: None (an alert) when no project has the id; otherwise the first
   * project with it and exactly its documents, in store order.
   */
  function ExportProject(projects: seq<Storage.Project>, documents: seq<Storage.Document>,
                         projectId: string, exportedAt: string): (r: Option<ExportData>)
    ensures r.None? <==> forall p :: p in projects ==> p.id != projectId
    ensures r.Some? ==>
              r.value.project in projects && r.value.project.id == projectId
              && (forall d :: d in r.value.documents <==> d in documents && d.projectId == projectId)
              && r.value.version == FormatVersion && r.value.exportedAt == exportedAt
    ensures r.Some? ==>
              && Lists.SubsequenceOf(r.value.documents, documents)
              && forall d :: multiset(r.value.documents)[d] == if d.projectId == projectId then multiset(documents)[d] else 0
  {
    match Lists.Find(projects, (p: Storage.Project) => p.id == projectId)
    case None => None
    case Some(project) =>
      Lists.FilterKeepsOrder(documents, (d: Storage.Document) => d.projectId == projectId);
      Some(ExportData(project, Lists.Filter(documents, (d: Storage.Document) => d.projectId == projectId),
                      exportedAt, FormatVersion))
  }

  /** The name of the downloaded export file. */
  function ExportFileName(project: Storage.Project): (r: string)
    ensures |r| == |project.name| + 12 && r[..|project.name|] == project.name
  {
    project.name + "_export.json"
  }

  /**
   * `handleProjectMarkdownExport`: the same selection, handed to the Markdown exporter as the
   * project name, its description ('' when absent) and its documents.
   */
  function MarkdownExportSelection(projects: seq<Storage.Project>, documents: seq<Storage.Document>,
                                   projectId: string): (r: Option<(string, string, seq<Storage.Document>)>)
    ensures r.None? <==> forall p :: p in projects ==> p.id != projectId
    ensures r.Some? ==>
              (exists p :: p in projects && p.id == projectId && r.value.0 == p.name
                           && r.value.1 == p.description.GetOr(""))
              && (forall d :: d in r.value.2 <==> d in documents && d.projectId == projectId)
              && Lists.SubsequenceOf(r.value.2, documents)
              && forall d :: multiset(r.value.2)[d] == if d.projectId == projectId then multiset(documents)[d] else 0
  {
    match Lists.Find(projects, (p: Storage.Project) => p.id == projectId)
    case None => None
    case Some(project) =>
      Lists.FilterKeepsOrder(documents, (d: Storage.Document) => d.projectId == projectId);
      Some((project.name, project.description.GetOr(""),
            Lists.Filter(documents, (d: Storage.Document) => d.projectId == projectId)))
  }

  // ---------------------------------------------------------------- import

  /**
   * A parsed import file as the importer reads it: `project` and `documents` are None when
   * missing or falsy.
   */
  datatype ImportFile = ImportFile(project: Option<Storage.Project>, documents: Option<seq<Storage.Document>>)

  /**
   * The end of an import: not a JSON file, a file that failed to parse or validate (both
   * reported in one alert), a declined overwrite, or the new state and the chosen name.
   */
  datatype ImportOutcome =
    | NotJson
    | Failed
    | Declined
    | Imported(state: Storage.AppState, name: string)

  /**
   * The document the import means to add for `d`: the same content under the new project, with
   * a new id and timestamps; the Mermaid text is kept ('' when absent), the AI image is not.
   */
  function Recreate(d: Storage.Document, projectId: string, id: string, now: int): (e: Storage.Document)
    ensures e.id == id && e.projectId == projectId
  {
    Storage.CreateTypedDocument(d.name, projectId, d.docType, d.conditions, d.supplement, d.spreadsheet,
                                d.mockup, Some(d.mermaidCode.GetOr("")), id, now)
  }

  /** Re-creating keeps every content field of the exported document. */
  lemma RecreateKeepsContent(d: Storage.Document, projectId: string, id: string, now: int)
    ensures var e := Recreate(d, projectId, id, now);
            e.name == d.name && e.docType == d.docType && e.conditions == d.conditions
            && e.supplement == d.supplement && e.spreadsheet == d.spreadsheet && e.mockup == d.mockup
            && e.mermaidCode.GetOr("") == d.mermaidCode.GetOr("")
  {
  }

  /** The `type` argument when it lands in the `conditions` slot: '' (the default) when absent. */
  function TypeText(t: Option<Storage.DocumentType>): string
  {
    match t
    case None => ""
    case Some(k) => Storage.DocTypeName(k)
  }

  /**
   * A value landing in the `mockup` slot, as far as the text field holds it: a string stays and
   * null stays absent. The store keeps any other value (the sheet array) as it is; this model
   * reads it as no mockup.
   */
  function MockupSlot(v: Json.Json): Option<string>
  {
    if v.JStr? then Some(v.s) else None
  }

  /**
   * The import's `createDocument` call as written: the store's constructor takes
   * `(name, projectId, conditions, supplement, spreadsheet, mockup)`, so every value from the
   * type onward lands one field early and the Mermaid text is dropped.
   */
  function RecreateAsWritten(d: Storage.Document, projectId: string, id: string, now: int): (e: Storage.Document)
    ensures e.docType.None? && e.mermaidCode.None?
    ensures e.name == d.name && e.projectId == projectId && e.id == id
    ensures e.conditions == TypeText(d.docType) && e.supplement == d.conditions
    ensures e.spreadsheet == Json.JStr(d.supplement)
  {
    Storage.CreateDocument(d.name, projectId, TypeText(d.docType), d.conditions, Json.JStr(d.supplement),
                           MockupSlot(d.spreadsheet), id, now)
  }

  /**
   * The as-written call loses the type and the Mermaid text and shifts the content: the
   * supplement text holds the conditions, and the sheet slot holds the supplement text.
   */
  lemma RecreateAsWrittenShiftsFields(d: Storage.Document, projectId: string, id: string, now: int)
    ensures var e := RecreateAsWritten(d, projectId, id, now);
            e.docType.None? && e.mermaidCode.None?
            && e.conditions == TypeText(d.docType)
            && e.supplement == d.conditions
            && e.spreadsheet == Json.JStr(d.supplement)
            && (d.docType.Some? && d.conditions == "" ==> e.conditions != d.conditions)
            && (!d.spreadsheet.JStr? ==> e.spreadsheet != d.spreadsheet)
  {
  }

  /** A concrete exported document whose content the as-written import does not restore. */
  lemma RecreateAsWrittenLosesContent()
    ensures var d := Storage.Document("d1", "p1", "画面", Some(Storage.Screen), "## 条件", "補足",
                                      Json.JArr([]), None, None, Some("erDiagram"), 0, 0);
            var e := RecreateAsWritten(d, "p2", "d2", 1);
            e.conditions == "screen" && e.conditions != d.conditions
            && e.supplement != d.supplement && e.spreadsheet != d.spreadsheet
            && e.mermaidCode != d.mermaidCode
  {
  }

  /** The state after adding the first `|docs|` re-created documents, in file order. */
  function AddAll(s: Storage.AppState, docs: seq<Storage.Document>, projectId: string,
                  freshId: nat -> string, now: int): Storage.AppState
    decreases |docs|
  {
    if docs == [] then s
    else
      var k := |docs| - 1;
      Storage.AddDocument(AddAll(s, docs[..k], projectId, freshId, now),
                          Recreate(docs[k], projectId, freshId(k), now), now)
  }

  /** The documents the import adds, in file order, with their fresh ids. */
  function Recreated(docs: seq<Storage.Document>, projectId: string, freshId: nat -> string, now: int): (r: seq<Storage.Document>)
    ensures |r| == |docs|
    ensures forall i :: 0 <= i < |docs| ==> r[i] == Recreate(docs[i], projectId, freshId(i), now)
  {
    seq(|docs|, i requires 0 <= i < |docs| => Recreate(docs[i], projectId, freshId(i), now))
  }

  /**
   * The import appends exactly the re-created documents, in file order, after the existing
   * ones; no existing document is touched or removed.
   */
  lemma {:induction false} AddAllAppendsInOrder(s: Storage.AppState, docs: seq<Storage.Document>,
                                                projectId: string, freshId: nat -> string, now: int)
    ensures AddAll(s, docs, projectId, freshId, now).documents == s.documents + Recreated(docs, projectId, freshId, now)
    decreases |docs|
  {
    if docs != [] {
      var k := |docs| - 1;
      AddAllAppendsInOrder(s, docs[..k], projectId, freshId, now);
      assert Recreated(docs[..k], projectId, freshId, now) + [Recreate(docs[k], projectId, freshId(k), now)]
          == Recreated(docs, projectId, freshId, now);
    }
  }

  /** The ids of the first `n` re-created documents. */
  function NewIds(freshId: nat -> string, n: nat): (r: seq<string>)
    ensures |r| == n && forall i :: 0 <= i < n ==> r[i] == freshId(i)
  {
    seq(n, i requires 0 <= i < n => freshId(i))
  }

  /**
   * The projects keep their order and ids; only those with the new id change, and each of
   * them ends up listing the new documents' ids after its old list.
   */
  lemma {:induction false} AddAllTouchesOnlyTarget(s: Storage.AppState, docs: seq<Storage.Document>,
                                                   projectId: string, freshId: nat -> string, now: int)
    ensures var r := AddAll(s, docs, projectId, freshId, now);
            |r.projects| == |s.projects|
            && (forall i :: 0 <= i < |s.projects| ==>
                  r.projects[i].id == s.projects[i].id && r.projects[i].name == s.projects[i].name)
            && (forall i :: 0 <= i < |s.projects| && s.projects[i].id != projectId ==> r.projects[i] == s.projects[i])
            && (forall i :: 0 <= i < |s.projects| && s.projects[i].id == projectId ==>
                  r.projects[i].documentIds == s.projects[i].documentIds + NewIds(freshId, |docs|))
    decreases |docs|
  {
    if docs != [] {
      var k := |docs| - 1;
      AddAllTouchesOnlyTarget(s, docs[..k], projectId, freshId, now);
      assert NewIds(freshId, k) + [freshId(k)] == NewIds(freshId, |docs|);
    }
  }

  /** The ids `freshId` gives the first `n` documents are distinct and unused in `s`. */
  ghost predicate FreshIds(s: Storage.AppState, freshId: nat -> string, n: nat)
  {
    (forall i, j :: 0 <= i < j < n ==> freshId(i) != freshId(j))
    && (forall i, e :: 0 <= i < n && e in s.documents ==> e.id != freshId(i))
  }

  /** Every document after the fold is an old one or carries one of the fresh ids. */
  lemma AddAllDocumentIds(s: Storage.AppState, docs: seq<Storage.Document>, projectId: string,
                          freshId: nat -> string, now: int)
    ensures forall e :: e in AddAll(s, docs, projectId, freshId, now).documents ==>
              e in s.documents || exists j :: 0 <= j < |docs| && e.id == freshId(j)
  {
    AddAllAppendsInOrder(s, docs, projectId, freshId, now);
    var rs := Recreated(docs, projectId, freshId, now);
    forall e | e in s.documents + rs
      ensures e in s.documents || exists j :: 0 <= j < |docs| && e.id == freshId(j)
    {
      if e !in s.documents {
        var j :| 0 <= j < |rs| && rs[j] == e;
        assert e.id == freshId(j);
      }
    }
  }

  /** The target project survives the fold. */
  lemma AddAllKeepsTarget(s: Storage.AppState, docs: seq<Storage.Document>, projectId: string,
                          freshId: nat -> string, now: int)
    requires exists p :: p in s.projects && p.id == projectId
    ensures exists p :: p in AddAll(s, docs, projectId, freshId, now).projects && p.id == projectId
  {
    var r := AddAll(s, docs, projectId, freshId, now);
    AddAllTouchesOnlyTarget(s, docs, projectId, freshId, now);
    var p :| p in s.projects && p.id == projectId;
    var m :| 0 <= m < |s.projects| && s.projects[m] == p;
    assert r.projects[m] in r.projects;
  }

  lemma NextIdIsFresh(s: Storage.AppState, docs: seq<Storage.Document>, freshId: nat -> string, k: nat)
    requires FreshIds(s, freshId, k + 1)
    requires forall e :: e in docs ==> e in s.documents || exists j :: 0 <= j < k && e.id == freshId(j)
    ensures forall e :: e in docs ==> e.id != freshId(k)
  {
    forall e | e in docs ensures e.id != freshId(k) {
      if e !in s.documents {
        var j :| 0 <= j < k && e.id == freshId(j);
      }
    }
  }

  /** With fresh document ids and an existing target project, the fold keeps the invariant. */
  lemma {:induction false} AddAllKeepsConsistent(s: Storage.AppState, docs: seq<Storage.Document>,
                                                 projectId: string, freshId: nat -> string, now: int)
    requires Storage.Consistent(s)
    requires exists p :: p in s.projects && p.id == projectId
    requires FreshIds(s, freshId, |docs|)
    ensures Storage.Consistent(AddAll(s, docs, projectId, freshId, now))
    decreases |docs|, 1
  {
    if docs != [] {
      AddAllKeepsConsistentLast(s, docs, projectId, freshId, now);
    }
  }

  /** AddAllKeepsConsistent for a non-empty list: the fold of all but the last, then the last. */
  lemma {:induction false} AddAllKeepsConsistentLast(s: Storage.AppState, docs: seq<Storage.Document>,
                                                     projectId: string, freshId: nat -> string, now: int)
    requires docs != [] && Storage.Consistent(s)
    requires exists p :: p in s.projects && p.id == projectId
    requires FreshIds(s, freshId, |docs|)
    ensures Storage.Consistent(AddAll(s, docs, projectId, freshId, now))
    decreases |docs|, 0
  {
    var k := |docs| - 1;
    var init := docs[..k];
    var before := AddAll(s, init, projectId, freshId, now);
    var d := Recreate(docs[k], projectId, freshId(k), now);
    FreshIdsPrefix(s, freshId, |docs|, k);
    AddAllKeepsConsistent(s, init, projectId, freshId, now);
    AddAllKeepsTarget(s, init, projectId, freshId, now);
    AddAllDocumentIds(s, init, projectId, freshId, now);
    NextIdIsFresh(s, before.documents, freshId, k);
    Storage.AddDocumentKeepsConsistent(before, d, now);
    AddAllLast(s, docs, projectId, freshId, now);
  }

  /** The fold of a non-empty list adds the last document to the fold of the others. */
  lemma AddAllLast(s: Storage.AppState, docs: seq<Storage.Document>, projectId: string,
                   freshId: nat -> string, now: int)
    requires docs != []
    ensures var k := |docs| - 1;
            AddAll(s, docs, projectId, freshId, now)
            == Storage.AddDocument(AddAll(s, docs[..k], projectId, freshId, now),
                                   Recreate(docs[k], projectId, freshId(k), now), now)
  {
  }

  /** Ids fresh for `n` documents are fresh for fewer. */
  lemma FreshIdsPrefix(s: Storage.AppState, freshId: nat -> string, n: nat, k: nat)
    requires k <= n && FreshIds(s, freshId, n)
    ensures FreshIds(s, freshId, k)
  {
  }

  /** The project the import creates: the file's name, or `<name>_imported` on a clash. */
  function ImportedName(projects: seq<Storage.Project>, name: string): (r: string)
    ensures (exists p :: p in projects && p.name == name) ==> r == name + "_imported"
    ensures (forall p :: p in projects ==> p.name != name) ==> r == name
  {
    if Lists.Find(projects, (p: Storage.Project) => p.name == name).Some? then name + "_imported" else name
  }

  /** The state a successful import produces. */
  function ImportedState(s: Storage.AppState, file: Storage.Project, docs: seq<Storage.Document>,
                         newId: string, freshId: nat -> string, now: int): Storage.AppState
  {
    var project := Storage.CreateProject(ImportedName(s.projects, file.name), file.description, newId, now);
    AddAll(Storage.AddProject(s, project), docs, newId, freshId, now)
  }

  /**
   * `handleProjectImport`. `isJson` is the file's MIME check, `parsed` the parse (None when it
   * fails), `confirmed` the answer to the overwrite question (asked only on a name clash),
   * `newId` the new project's id and `freshId(i)` the id of the i-th re-created document.
   */
  method ImportProject(s: Storage.AppState, isJson: bool, parsed: Option<ImportFile>, confirmed: bool,
                       newId: string, freshId: nat -> string, now: int) returns (r: ImportOutcome)
    ensures !isJson ==> r == NotJson
    ensures isJson && (parsed.None? || parsed.value.project.None? || parsed.value.documents.None?) ==> r == Failed
    ensures r.Declined? <==>
              isJson && parsed.Some? && parsed.value.project.Some? && parsed.value.documents.Some?
              && !confirmed && exists p :: p in s.projects && p.name == parsed.value.project.value.name
    ensures r.Imported? ==>
              parsed.Some? && parsed.value.project.Some? && parsed.value.documents.Some?
              && r.name == ImportedName(s.projects, parsed.value.project.value.name)
              && r.state == ImportedState(s, parsed.value.project.value, parsed.value.documents.value, newId, freshId, now)
    ensures r.NotJson? || r.Failed? || r.Declined? || r.Imported?
  {
    if !isJson {
      return NotJson;
    }
    if parsed.None? || parsed.value.project.None? || parsed.value.documents.None? {
      return Failed;
    }
    var file := parsed.value.project.value;
    var docs := parsed.value.documents.value;
    var existing := Lists.Find(s.projects, (p: Storage.Project) => p.name == file.name);
    if existing.Some? && !confirmed {
      return Declined;
    }
    var name := if existing.Some? then file.name + "_imported" else file.name;
    var project := Storage.CreateProject(name, file.description, newId, now);
    var start := Storage.AddProject(s, project);
    var state := start;
    var i := 0;
    while i < |docs|
      invariant 0 <= i <= |docs|
      invariant state == AddAll(start, docs[..i], newId, freshId, now)
    {
      assert docs[..i + 1][..i] == docs[..i];
      state := Storage.AddDocument(state, Recreate(docs[i], newId, freshId(i), now), now);
      i := i + 1;
    }
    assert docs[..i] == docs;
    return Imported(state, name);
  }

  /**
   * A successful import keeps every existing project in place (a name clash does not remove
   * the old project, whatever the confirmation dialog says) and adds exactly one.
   */
  lemma ImportKeepsExistingProjects(s: Storage.AppState, file: Storage.Project, docs: seq<Storage.Document>,
                                    newId: string, freshId: nat -> string, now: int)
    requires forall p :: p in s.projects ==> p.id != newId
    ensures var r := ImportedState(s, file, docs, newId, freshId, now);
            |r.projects| == |s.projects| + 1 && r.projects[..|s.projects|] == s.projects
  {
    var project := Storage.CreateProject(ImportedName(s.projects, file.name), file.description, newId, now);
    var start := Storage.AddProject(s, project);
    var r := AddAll(start, docs, newId, freshId, now);
    AddAllTouchesOnlyTarget(start, docs, newId, freshId, now);
    forall i | 0 <= i < |s.projects| ensures r.projects[i] == s.projects[i] {
      assert start.projects[i] == s.projects[i];
      assert s.projects[i] in s.projects;
    }
  }

  /**
   * The imported project has the new id (not the one in the file) and the chosen name, and it
   * lists exactly the re-created documents' ids, in file order.
   */
  lemma ImportedProjectListsNewDocuments(s: Storage.AppState, file: Storage.Project, docs: seq<Storage.Document>,
                                         newId: string, freshId: nat -> string, now: int)
    ensures var r := ImportedState(s, file, docs, newId, freshId, now);
            |r.projects| == |s.projects| + 1
            && r.projects[|s.projects|].id == newId
            && r.projects[|s.projects|].name == ImportedName(s.projects, file.name)
            && r.projects[|s.projects|].documentIds == NewIds(freshId, |docs|)
  {
    var project := Storage.CreateProject(ImportedName(s.projects, file.name), file.description, newId, now);
    var start := Storage.AddProject(s, project);
    AddAllTouchesOnlyTarget(start, docs, newId, freshId, now);
    var r := AddAll(start, docs, newId, freshId, now);
    var n := |s.projects|;
    assert start.projects[n] == project;
    assert r.projects[n].documentIds == start.projects[n].documentIds + NewIds(freshId, |docs|);
    assert start.projects[n].documentIds == [];
  }

  /** The re-created documents follow the existing ones in file order; the new project is current. */
  lemma ImportAppendsDocuments(s: Storage.AppState, file: Storage.Project, docs: seq<Storage.Document>,
                               newId: string, freshId: nat -> string, now: int)
    ensures var r := ImportedState(s, file, docs, newId, freshId, now);
            r.documents == s.documents + Recreated(docs, newId, freshId, now)
            && r.currentProjectId == Some(newId)
  {
    var project := Storage.CreateProject(ImportedName(s.projects, file.name), file.description, newId, now);
    var start := Storage.AddProject(s, project);
    AddAllAppendsInOrder(start, docs, newId, freshId, now);
    AddAllKeepsCurrentProject(start, docs, newId, freshId, now);
  }

  lemma {:induction false} AddAllKeepsCurrentProject(s: Storage.AppState, docs: seq<Storage.Document>,
                                                     projectId: string, freshId: nat -> string, now: int)
    ensures AddAll(s, docs, projectId, freshId, now).currentProjectId == s.currentProjectId
    decreases |docs|
  {
    if docs != [] {
      AddAllKeepsCurrentProject(s, docs[..|docs| - 1], projectId, freshId, now);
    }
  }

  /** An import with fresh ids keeps the store's invariant. */
  lemma ImportKeepsConsistent(s: Storage.AppState, file: Storage.Project, docs: seq<Storage.Document>,
                              newId: string, freshId: nat -> string, now: int)
    requires Storage.Consistent(s)
    requires FreshIds(s, freshId, |docs|)
    ensures Storage.Consistent(ImportedState(s, file, docs, newId, freshId, now))
  {
    var project := Storage.CreateProject(ImportedName(s.projects, file.name), file.description, newId, now);
    var start := Storage.AddProject(s, project);
    Storage.AddProjectKeepsConsistent(s, project);
    assert project in start.projects;
    AddAllKeepsConsistent(start, docs, newId, freshId, now);
  }
}
