/**
 * The project/document store: the application state (`AppState`) and the pure transitions
 * the editor applies to it. Ids and timestamps come from a random source and the clock, so
 * they are parameters here; a timestamp is the millisecond instant its ISO text denotes.
 */
module Storage {
  import opened Wrappers
  import Json
  import Lists
  import Sorting

  datatype Project = Project(
    id: string,
    name: string,
    description: Option<string>,
    createdAt: int,
    updatedAt: int,
    documentIds: seq<string>)

  datatype DocumentType = Screen | Model | Api | Database

  /**
   * A design document. `docType` is None when the record has no `type` (the store's own
   * constructor never sets one); `spreadsheet` is whatever the sheet editor stored.
   */
  datatype Document = Document(
    id: string,
    projectId: string,
    name: string,
    docType: Option<DocumentType>,
    conditions: string,
    supplement: string,
    spreadsheet: Json.Json,
    mockup: Option<string>,
    aiGeneratedImage: Option<string>,
    mermaidCode: Option<string>,
    createdAt: int,
    updatedAt: int)

  datatype AppState = AppState(
    projects: seq<Project>,
    documents: seq<Document>,
    currentProjectId: Option<string>,
    currentDocumentId: Option<string>)

  /** The keys a project update may carry; a present key overwrites the project's value. */
  datatype ProjectPatch = ProjectPatch(name: Option<string>, description: Option<string>)

  /** The keys a document update may carry (`mockup: Some(None)` writes `null`). */
  datatype DocumentPatch = DocumentPatch(
    name: Option<string>,
    conditions: Option<string>,
    supplement: Option<string>,
    spreadsheet: Option<Json.Json>,
    mockup: Option<Option<string>>,
    mermaidCode: Option<string>)

  // ---------------------------------------------------------------- constructors

  /** A new project lists no documents and was created and last updated at the same instant. */
  function CreateProject(name: string, description: Option<string>, id: string, now: int): (p: Project)
    ensures p.id == id && p.name == name && p.description == description
    ensures p.documentIds == [] && p.createdAt == now && p.updatedAt == now
  {
    Project(id, name, description, now, now, [])
  }

  /** A new document of `projectId`; the store gives it no type, no image and no Mermaid text. */
  function CreateDocument(name: string, projectId: string, conditions: string, supplement: string,
                          spreadsheet: Json.Json, mockup: Option<string>, id: string, now: int): (d: Document)
    ensures d.id == id && d.projectId == projectId && d.name == name
    ensures d.conditions == conditions && d.supplement == supplement
    ensures d.spreadsheet == spreadsheet && d.mockup == mockup
    ensures d.docType.None? && d.aiGeneratedImage.None? && d.mermaidCode.None?
    ensures d.createdAt == now && d.updatedAt == now
  {
    Document(id, projectId, name, None, conditions, supplement, spreadsheet, mockup, None, None, now, now)
  }

  /** The `type` string of a document type. */
  function DocTypeName(t: DocumentType): (r: string)
    ensures r in {"screen", "model", "api", "database"}
  {
    match t
    case Screen => "screen"
    case Model => "model"
    case Api => "api"
    case Database => "database"
  }

  /**
   * The constructor the callers evidently expect: it takes the document type third and the
   * Mermaid text last, and stores every argument in the field of the same name.
   */
  function CreateTypedDocument(name: string, projectId: string, docType: Option<DocumentType>,
                               conditions: string, supplement: string, spreadsheet: Json.Json,
                               mockup: Option<string>, mermaidCode: Option<string>,
                               id: string, now: int): (d: Document)
    ensures d.id == id && d.projectId == projectId && d.name == name && d.docType == docType
    ensures d.conditions == conditions && d.supplement == supplement
    ensures d.spreadsheet == spreadsheet && d.mockup == mockup && d.mermaidCode == mermaidCode
    ensures d.aiGeneratedImage.None? && d.createdAt == now && d.updatedAt == now
  {
    Document(id, projectId, name, docType, conditions, supplement, spreadsheet, mockup, None, mermaidCode, now, now)
  }

  // ---------------------------------------------------------------- queries

  /** The comparator `new Date(b.updatedAt) - new Date(a.updatedAt)`: most recently updated first. */
  function ProjectsNewest(): (Project, Project) -> bool
  {
    Sorting.Descending((p: Project) => p.updatedAt)
  }

  function DocumentsNewest(): (Document, Document) -> bool
  {
    Sorting.Descending((d: Document) => d.updatedAt)
  }

  /**
   * `getProjects` sorts `state.projects` in place and returns it: the state afterwards holds
   * the same projects, most recently updated first, and the returned list is its `projects`.
   */
  function GetProjects(s: AppState): (r: AppState)
    ensures multiset(r.projects) == multiset(s.projects)
    ensures Sorting.Sorted(r.projects, ProjectsNewest())
    ensures r.documents == s.documents
    ensures r.currentProjectId == s.currentProjectId && r.currentDocumentId == s.currentDocumentId
  {
    Sorting.DescendingIsPreorder((p: Project) => p.updatedAt);
    Sorting.SortSorted(s.projects, ProjectsNewest());
    s.(projects := Sorting.Sort(s.projects, ProjectsNewest()))
  }

  /** Exactly the documents of `projectId`, each once per occurrence, most recently updated first. */
  function GetDocumentsByProjectId(s: AppState, projectId: string): (r: seq<Document>)
    ensures forall d :: d in r <==> d in s.documents && d.projectId == projectId
    ensures multiset(r) == multiset(Lists.Filter(s.documents, (d: Document) => d.projectId == projectId))
    ensures Sorting.Sorted(r, DocumentsNewest())
  {
    var mine := Lists.Filter(s.documents, (d: Document) => d.projectId == projectId);
    Sorting.DescendingIsPreorder((d: Document) => d.updatedAt);
    Sorting.SortSorted(mine, DocumentsNewest());
    var r := Sorting.Sort(mine, DocumentsNewest());
    assert forall d :: d in r <==> d in multiset(r);
    r
  }

  /** An id counts as set only when it is a non-empty string (`!id` is true for null and ''). */
  predicate IdSet(id: Option<string>)
  {
    id.Some? && id.value != ""
  }

  /** The current document: None when the id is unset or names no document, else the first match. */
  function GetCurrentDocument(s: AppState): (r: Option<Document>)
    ensures r.None? <==> !IdSet(s.currentDocumentId)
                         || forall d :: d in s.documents ==> d.id != s.currentDocumentId.value
    ensures r.Some? ==> r.value in s.documents && s.currentDocumentId == Some(r.value.id)
  {
    if !IdSet(s.currentDocumentId) then None
    else Lists.Find(s.documents, (d: Document) => d.id == s.currentDocumentId.value)
  }

  /** The current project: None when the id is unset or names no project, else the first match. */
  function GetCurrentProject(s: AppState): (r: Option<Project>)
    ensures r.None? <==> !IdSet(s.currentProjectId)
                         || forall p :: p in s.projects ==> p.id != s.currentProjectId.value
    ensures r.Some? ==> r.value in s.projects && s.currentProjectId == Some(r.value.id)
  {
    if !IdSet(s.currentProjectId) then None
    else Lists.Find(s.projects, (p: Project) => p.id == s.currentProjectId.value)
  }

  // ---------------------------------------------------------------- transitions

  /** Appends the project and makes it the current one. */
  function AddProject(s: AppState, p: Project): (r: AppState)
    ensures r.projects == s.projects + [p] && r.documents == s.documents
    ensures r.currentProjectId == Some(p.id) && r.currentDocumentId == s.currentDocumentId
  {
    s.(projects := s.projects + [p], currentProjectId := Some(p.id))
  }

  /** The owning project of `d` lists it and is refreshed; any other project is left alone. */
  function AttachTo(p: Project, d: Document, now: int): Project
  {
    if p.id == d.projectId then p.(documentIds := p.documentIds + [d.id], updatedAt := now) else p
  }

  /**
   * Appends the document, appends its id to the `documentIds` of exactly the projects whose id
   * is its `projectId` (refreshing their `updatedAt`), and makes it the current document.
   */
  function AddDocument(s: AppState, d: Document, now: int): (r: AppState)
    ensures r.documents == s.documents + [d]
    ensures |r.projects| == |s.projects|
    ensures forall i :: 0 <= i < |s.projects| && s.projects[i].id != d.projectId ==>
              r.projects[i] == s.projects[i]
    ensures forall i :: 0 <= i < |s.projects| && s.projects[i].id == d.projectId ==>
              r.projects[i] == s.projects[i].(documentIds := s.projects[i].documentIds + [d.id], updatedAt := now)
    ensures r.currentDocumentId == Some(d.id) && r.currentProjectId == s.currentProjectId
  {
    s.(projects := seq(|s.projects|, i requires 0 <= i < |s.projects| => AttachTo(s.projects[i], d, now)),
       documents := s.documents + [d],
       currentDocumentId := Some(d.id))
  }

  /** `{ ...project, ...updates, updatedAt: now }`. */
  function PatchProject(p: Project, u: ProjectPatch, now: int): (q: Project)
    ensures q.name == u.name.GetOr(p.name)
    ensures q.description == (if u.description.Some? then u.description else p.description)
    ensures q.id == p.id && q.createdAt == p.createdAt && q.documentIds == p.documentIds
    ensures q.updatedAt == now
  {
    p.(name := u.name.GetOr(p.name),
       description := if u.description.Some? then u.description else p.description,
       updatedAt := now)
  }

  /** Merges the update into every project with that id; an unknown id changes nothing. */
  function UpdateProject(s: AppState, id: string, u: ProjectPatch, now: int): (r: AppState)
    ensures |r.projects| == |s.projects|
    ensures forall i :: 0 <= i < |s.projects| ==>
              r.projects[i] == if s.projects[i].id == id then PatchProject(s.projects[i], u, now) else s.projects[i]
    ensures r.documents == s.documents
    ensures r.currentProjectId == s.currentProjectId && r.currentDocumentId == s.currentDocumentId
    ensures (forall p :: p in s.projects ==> p.id != id) ==> r == s
  {
    var ps := seq(|s.projects|, i requires 0 <= i < |s.projects| =>
                if s.projects[i].id == id then PatchProject(s.projects[i], u, now) else s.projects[i]);
    assert (forall p :: p in s.projects ==> p.id != id) ==> ps == s.projects;
    s.(projects := ps)
  }

  /** `{ ...document, ...updates, updatedAt: now }`. */
  function PatchDocument(d: Document, u: DocumentPatch, now: int): (e: Document)
    ensures e.name == u.name.GetOr(d.name)
    ensures e.conditions == u.conditions.GetOr(d.conditions)
    ensures e.supplement == u.supplement.GetOr(d.supplement)
    ensures e.spreadsheet == u.spreadsheet.GetOr(d.spreadsheet)
    ensures e.mockup == u.mockup.GetOr(d.mockup)
    ensures e.mermaidCode == (if u.mermaidCode.Some? then u.mermaidCode else d.mermaidCode)
    ensures e.id == d.id && e.projectId == d.projectId && e.docType == d.docType
    ensures e.aiGeneratedImage == d.aiGeneratedImage && e.createdAt == d.createdAt
    ensures e.updatedAt == now
  {
    d.(name := u.name.GetOr(d.name),
       conditions := u.conditions.GetOr(d.conditions),
       supplement := u.supplement.GetOr(d.supplement),
       spreadsheet := u.spreadsheet.GetOr(d.spreadsheet),
       mockup := u.mockup.GetOr(d.mockup),
       mermaidCode := if u.mermaidCode.Some? then u.mermaidCode else d.mermaidCode,
       updatedAt := now)
  }

  /** Refreshes `updatedAt` of the projects with id `projectId`. */
  function Touch(ps: seq<Project>, projectId: string, now: int): (r: seq<Project>)
    ensures |r| == |ps|
    ensures forall i :: 0 <= i < |ps| ==>
              r[i] == if ps[i].id == projectId then ps[i].(updatedAt := now) else ps[i]
  {
    seq(|ps|, i requires 0 <= i < |ps| => if ps[i].id == projectId then ps[i].(updatedAt := now) else ps[i])
  }

  /**
   * Merges the update into every document with that id and refreshes the parent project of
   * the first such document; an unknown id changes nothing.
   */
  function UpdateDocument(s: AppState, id: string, u: DocumentPatch, now: int): (r: AppState)
    ensures |r.documents| == |s.documents|
    ensures forall i :: 0 <= i < |s.documents| ==>
              r.documents[i] == if s.documents[i].id == id then PatchDocument(s.documents[i], u, now) else s.documents[i]
    ensures r.projects == match Lists.Find(s.documents, (d: Document) => d.id == id)
                          case None => s.projects
                          case Some(d) => Touch(s.projects, d.projectId, now)
    ensures r.currentProjectId == s.currentProjectId && r.currentDocumentId == s.currentDocumentId
    ensures (forall d :: d in s.documents ==> d.id != id) ==> r == s
  {
    var ds := seq(|s.documents|, i requires 0 <= i < |s.documents| =>
                if s.documents[i].id == id then PatchDocument(s.documents[i], u, now) else s.documents[i]);
    assert (forall d :: d in s.documents ==> d.id != id) ==> ds == s.documents;
    var ps := match Lists.Find(s.documents, (d: Document) => d.id == id)
              case None => s.projects
              case Some(d) => Touch(s.projects, d.projectId, now);
    s.(projects := ps, documents := ds)
  }

  /**
   * Removes the project and every document of it. The current project is cleared exactly when
   * it was that project, the current document exactly when it was one of the removed documents.
   */
  function DeleteProject(s: AppState, id: string): (r: AppState)
    ensures forall p :: p in r.projects <==> p in s.projects && p.id != id
    ensures forall d :: d in r.documents <==> d in s.documents && d.projectId != id
    ensures r.currentProjectId != s.currentProjectId <==> s.currentProjectId == Some(id)
    ensures r.currentProjectId.None? || r.currentProjectId == s.currentProjectId
    ensures r.currentDocumentId != s.currentDocumentId <==>
              s.currentDocumentId.Some?
              && exists d :: d in s.documents && d.id == s.currentDocumentId.value && d.projectId == id
    ensures r.currentDocumentId.None? || r.currentDocumentId == s.currentDocumentId
  {
    var removesCurrent := s.currentDocumentId.Some?
      && exists d :: d in s.documents && d.id == s.currentDocumentId.value && d.projectId == id;
    AppState(
      Lists.Filter(s.projects, (p: Project) => p.id != id),
      Lists.Filter(s.documents, (d: Document) => d.projectId != id),
      if s.currentProjectId == Some(id) then None else s.currentProjectId,
      if removesCurrent then None else s.currentDocumentId)
  }

  /** The parent of the removed document drops its id and is refreshed; other projects stay. */
  function Detach(p: Project, parentId: string, id: string, now: int): (q: Project)
    ensures p.id != parentId ==> q == p
    ensures p.id == parentId ==>
              q.updatedAt == now
              && (forall x :: x in q.documentIds <==> x in p.documentIds && x != id)
              && q.(documentIds := p.documentIds, updatedAt := p.updatedAt) == p
  {
    if p.id == parentId
    then p.(documentIds := Lists.Filter(p.documentIds, (x: string) => x != id), updatedAt := now)
    else p
  }

  /**
   * Unknown id: the state is returned unchanged. Otherwise every document with that id is
   * removed, the parent of the first one forgets the id, and the current document is cleared
   * exactly when it was that id.
   */
  function DeleteDocument(s: AppState, id: string, now: int): (r: AppState)
    ensures (forall d :: d in s.documents ==> d.id != id) ==> r == s
    ensures (exists d :: d in s.documents && d.id == id) ==>
              (forall d :: d in r.documents <==> d in s.documents && d.id != id)
              && |r.projects| == |s.projects|
              && (forall i :: 0 <= i < |s.projects| ==>
                    r.projects[i].id == s.projects[i].id
                    && (forall x :: x in r.projects[i].documentIds <==>
                          x in s.projects[i].documentIds && (x != id || r.projects[i] == s.projects[i])))
              && (r.currentDocumentId.None? <==> s.currentDocumentId.None? || s.currentDocumentId == Some(id))
              && (r.currentDocumentId.Some? ==> r.currentDocumentId == s.currentDocumentId)
              && r.currentProjectId == s.currentProjectId
    ensures match Lists.Find(s.documents, (d: Document) => d.id == id)
            case None => true
            case Some(doc) =>
              |r.projects| == |s.projects|
              && forall i :: 0 <= i < |s.projects| ==> r.projects[i] == Detach(s.projects[i], doc.projectId, id, now)
  {
    match Lists.Find(s.documents, (d: Document) => d.id == id)
    case None => s
    case Some(doc) =>
      s.(projects := seq(|s.projects|, i requires 0 <= i < |s.projects| => Detach(s.projects[i], doc.projectId, id, now)),
         documents := Lists.Filter(s.documents, (d: Document) => d.id != id),
         currentDocumentId := if s.currentDocumentId == Some(id) then None else s.currentDocumentId)
  }

  // ---------------------------------------------------------------- the referential invariant

  /** Every document's project exists and lists the document. */
  ghost predicate DocumentsListed(s: AppState)
  {
    forall d :: d in s.documents ==>
      exists p :: p in s.projects && p.id == d.projectId && d.id in p.documentIds
  }

  /** Every id a project lists names a document of that project. */
  ghost predicate ListsResolve(s: AppState)
  {
    forall p, x :: p in s.projects && x in p.documentIds ==>
      exists d :: d in s.documents && d.id == x && d.projectId == p.id
  }

  function DocId(d: Document): string
  {
    d.id
  }

  ghost predicate DistinctDocumentIds(docs: seq<Document>)
  {
    Lists.DistinctBy(docs, DocId)
  }

  /** `project.documentIds` and `document.projectId` agree, and document ids are unique. */
  ghost predicate Consistent(s: AppState)
  {
    DocumentsListed(s) && ListsResolve(s) && DistinctDocumentIds(s.documents)
  }

  /** With unique ids, a document of another project has another id. */
  lemma OwnerDiffersIdDiffers(docs: seq<Document>, a: Document, b: Document)
    requires DistinctDocumentIds(docs) && a in docs && b in docs && a.projectId != b.projectId
    ensures a.id != b.id
  {
    var i :| 0 <= i < |docs| && docs[i] == a;
    var j :| 0 <= j < |docs| && docs[j] == b;
    assert DocId(docs[i]) != DocId(docs[j]) by {
      if i < j {
      } else {
        assert j < i;
      }
    }
  }

  /**
   * The states agree on everything the invariant reads: the projects' ids and lists and the
   * documents' ids and owners, position by position.
   */
  ghost predicate SameLinks(s: AppState, r: AppState)
  {
    |r.projects| == |s.projects| && |r.documents| == |s.documents|
    && (forall i :: 0 <= i < |s.projects| ==>
          r.projects[i].id == s.projects[i].id && r.projects[i].documentIds == s.projects[i].documentIds)
    && (forall i :: 0 <= i < |s.documents| ==>
          r.documents[i].id == s.documents[i].id && r.documents[i].projectId == s.documents[i].projectId)
  }

  lemma SameLinksKeepListed(s: AppState, r: AppState)
    requires DocumentsListed(s) && SameLinks(s, r)
    ensures DocumentsListed(r)
  {
    forall e | e in r.documents
      ensures exists q :: q in r.projects && q.id == e.projectId && e.id in q.documentIds
    {
      var i :| 0 <= i < |r.documents| && r.documents[i] == e;
      var d := s.documents[i];
      assert d in s.documents;
      var p :| p in s.projects && p.id == d.projectId && d.id in p.documentIds;
      var k :| 0 <= k < |s.projects| && s.projects[k] == p;
      assert r.projects[k] in r.projects;
    }
  }

  lemma SameLinksKeepResolve(s: AppState, r: AppState)
    requires ListsResolve(s) && SameLinks(s, r)
    ensures ListsResolve(r)
  {
    forall q, x | q in r.projects && x in q.documentIds
      ensures exists e :: e in r.documents && e.id == x && e.projectId == q.id
    {
      var k :| 0 <= k < |r.projects| && r.projects[k] == q;
      var p := s.projects[k];
      assert p in s.projects && x in p.documentIds;
      var d :| d in s.documents && d.id == x && d.projectId == p.id;
      var i :| 0 <= i < |s.documents| && s.documents[i] == d;
      assert r.documents[i] in r.documents;
    }
  }

  lemma SameLinksKeepDistinct(s: AppState, r: AppState)
    requires DistinctDocumentIds(s.documents) && SameLinks(s, r)
    ensures DistinctDocumentIds(r.documents)
  {
    forall i, j | 0 <= i < j < |r.documents| ensures DocId(r.documents[i]) != DocId(r.documents[j]) {
      assert DocId(s.documents[i]) != DocId(s.documents[j]);
    }
  }

  /** Merging an update into a project keeps the invariant: links are untouched. */
  lemma UpdateProjectKeepsConsistent(s: AppState, id: string, u: ProjectPatch, now: int)
    requires Consistent(s)
    ensures Consistent(UpdateProject(s, id, u, now))
  {
    var r := UpdateProject(s, id, u, now);
    SameLinksKeepListed(s, r);
    SameLinksKeepResolve(s, r);
    SameLinksKeepDistinct(s, r);
  }

  lemma UpdateDocumentSameLinks(s: AppState, id: string, u: DocumentPatch, now: int)
    ensures SameLinks(s, UpdateDocument(s, id, u, now))
  {
    var r := UpdateDocument(s, id, u, now);
    match Lists.Find(s.documents, (d: Document) => d.id == id)
    case None =>
      assert r.projects == s.projects;
    case Some(d) =>
      assert r.projects == Touch(s.projects, d.projectId, now);
  }

  /** Merging an update into a document keeps the invariant: links are untouched. */
  lemma UpdateDocumentKeepsConsistent(s: AppState, id: string, u: DocumentPatch, now: int)
    requires Consistent(s)
    ensures Consistent(UpdateDocument(s, id, u, now))
  {
    var r := UpdateDocument(s, id, u, now);
    UpdateDocumentSameLinks(s, id, u, now);
    SameLinksKeepListed(s, r);
    SameLinksKeepResolve(s, r);
    SameLinksKeepDistinct(s, r);
  }

  /** Adding a project that lists no documents keeps the invariant. */
  lemma AddProjectKeepsConsistent(s: AppState, p: Project)
    requires Consistent(s) && p.documentIds == []
    ensures Consistent(AddProject(s, p))
  {
    AddProjectKeepsListed(s, p);
    AddProjectKeepsResolved(s, p);
  }

  /** A new project takes no document from the others, so every document is still listed. */
  lemma AddProjectKeepsListed(s: AppState, p: Project)
    requires DocumentsListed(s)
    ensures DocumentsListed(AddProject(s, p))
  {
    var r := AddProject(s, p);
    forall d | d in r.documents
      ensures exists q :: q in r.projects && q.id == d.projectId && d.id in q.documentIds
    {
      var q :| q in s.projects && q.id == d.projectId && d.id in q.documentIds;
      assert q in r.projects;
    }
  }

  /** A new project lists nothing, so every listed id still resolves. */
  lemma AddProjectKeepsResolved(s: AppState, p: Project)
    requires ListsResolve(s) && p.documentIds == []
    ensures ListsResolve(AddProject(s, p))
  {
    var r := AddProject(s, p);
    forall q, x | q in r.projects && x in q.documentIds
      ensures exists d :: d in r.documents && d.id == x && d.projectId == q.id
    {
      assert q in s.projects;
    }
  }

  lemma AddDocumentKeepsListed(s: AppState, d: Document, now: int)
    requires DocumentsListed(s)
    requires exists p :: p in s.projects && p.id == d.projectId
    ensures DocumentsListed(AddDocument(s, d, now))
  {
    var r := AddDocument(s, d, now);
    forall e | e in r.documents
      ensures exists q :: q in r.projects && q.id == e.projectId && e.id in q.documentIds
    {
      var k: int;
      if e == d {
        var p :| p in s.projects && p.id == d.projectId;
        k :| 0 <= k < |s.projects| && s.projects[k] == p;
      } else {
        assert e in s.documents;
        var p :| p in s.projects && p.id == e.projectId && e.id in p.documentIds;
        k :| 0 <= k < |s.projects| && s.projects[k] == p;
      }
      assert r.projects[k] in r.projects;
    }
  }

  lemma AddDocumentKeepsResolve(s: AppState, d: Document, now: int)
    requires ListsResolve(s)
    ensures ListsResolve(AddDocument(s, d, now))
  {
    var r := AddDocument(s, d, now);
    forall q, x | q in r.projects && x in q.documentIds
      ensures exists e :: e in r.documents && e.id == x && e.projectId == q.id
    {
      var k :| 0 <= k < |r.projects| && r.projects[k] == q;
      var p := s.projects[k];
      if x in p.documentIds {
        assert p in s.projects;
        var e :| e in s.documents && e.id == x && e.projectId == p.id;
        assert e in r.documents;
      } else {
        assert d in r.documents;
      }
    }
  }

  lemma AddDocumentKeepsDistinct(s: AppState, d: Document, now: int)
    requires DistinctDocumentIds(s.documents)
    requires forall e :: e in s.documents ==> e.id != d.id
    ensures DistinctDocumentIds(AddDocument(s, d, now).documents)
  {
    var docs := AddDocument(s, d, now).documents;
    forall i, j | 0 <= i < j < |docs| ensures DocId(docs[i]) != DocId(docs[j]) {
      if j < |s.documents| {
        assert DocId(s.documents[i]) != DocId(s.documents[j]);
      } else {
        assert s.documents[i] in s.documents;
      }
    }
  }

  /**
   * Adding a document with a fresh id to an existing project keeps the invariant: the owner
   * now lists it, and every list that grew names the new document.
   */
  lemma AddDocumentKeepsConsistent(s: AppState, d: Document, now: int)
    requires Consistent(s)
    requires exists p :: p in s.projects && p.id == d.projectId
    requires forall e :: e in s.documents ==> e.id != d.id
    ensures Consistent(AddDocument(s, d, now))
  {
    AddDocumentKeepsListed(s, d, now);
    AddDocumentKeepsResolve(s, d, now);
    AddDocumentKeepsDistinct(s, d, now);
  }

  lemma DeleteProjectKeepsListed(s: AppState, id: string)
    requires DocumentsListed(s)
    ensures DocumentsListed(DeleteProject(s, id))
  {
    var r := DeleteProject(s, id);
    forall e | e in r.documents
      ensures exists q :: q in r.projects && q.id == e.projectId && e.id in q.documentIds
    {
      var p :| p in s.projects && p.id == e.projectId && e.id in p.documentIds;
      assert p in r.projects;
    }
  }

  lemma DeleteProjectKeepsResolve(s: AppState, id: string)
    requires ListsResolve(s)
    ensures ListsResolve(DeleteProject(s, id))
  {
    var r := DeleteProject(s, id);
    forall q, x | q in r.projects && x in q.documentIds
      ensures exists e :: e in r.documents && e.id == x && e.projectId == q.id
    {
      var e :| e in s.documents && e.id == x && e.projectId == q.id;
      assert e in r.documents;
    }
  }

  /** Deleting a project keeps the invariant: no surviving document is left without its project. */
  lemma DeleteProjectKeepsConsistent(s: AppState, id: string)
    requires Consistent(s)
    ensures Consistent(DeleteProject(s, id))
  {
    DeleteProjectKeepsListed(s, id);
    DeleteProjectKeepsResolve(s, id);
    Lists.FilterKeepsDistinct(s.documents, (d: Document) => d.projectId != id, DocId);
  }

  lemma DeleteDocumentKeepsListed(s: AppState, id: string, now: int, doc: Document)
    requires DocumentsListed(s)
    requires Lists.Find(s.documents, (d: Document) => d.id == id) == Some(doc)
    ensures DocumentsListed(DeleteDocument(s, id, now))
  {
    var r := DeleteDocument(s, id, now);
    assert doc in s.documents && doc.id == id;
    assert forall d :: d in r.documents ==> d in s.documents && d.id != id;
    ListedAfterDetach(s, r, doc.projectId, id, now);
  }

  /** Projects detached from `id` still list every other document that stays. */
  lemma ListedAfterDetach(s: AppState, r: AppState, parentId: string, id: string, now: int)
    requires DocumentsListed(s)
    requires forall d :: d in r.documents ==> d in s.documents && d.id != id
    requires |r.projects| == |s.projects|
    requires forall i :: 0 <= i < |s.projects| ==> r.projects[i] == Detach(s.projects[i], parentId, id, now)
    ensures DocumentsListed(r)
  {
    forall e | e in r.documents
      ensures exists q :: q in r.projects && q.id == e.projectId && e.id in q.documentIds
    {
      var p :| p in s.projects && p.id == e.projectId && e.id in p.documentIds;
      var k :| 0 <= k < |s.projects| && s.projects[k] == p;
      DetachKeepsOthers(p, parentId, id, now, e.id);
      assert r.projects[k] in r.projects;
    }
  }

  /** Detaching one id leaves a project's id and every other id it lists. */
  lemma DetachKeepsOthers(p: Project, parentId: string, id: string, now: int, x: string)
    requires x != id && x in p.documentIds
    ensures Detach(p, parentId, id, now).id == p.id && x in Detach(p, parentId, id, now).documentIds
  {
  }

  lemma DeleteDocumentKeepsResolve(s: AppState, id: string, now: int, doc: Document)
    requires ListsResolve(s) && DistinctDocumentIds(s.documents)
    requires Lists.Find(s.documents, (d: Document) => d.id == id) == Some(doc)
    ensures ListsResolve(DeleteDocument(s, id, now))
  {
    var r := DeleteDocument(s, id, now);
    forall q, x | q in r.projects && x in q.documentIds
      ensures exists e :: e in r.documents && e.id == x && e.projectId == q.id
    {
      var k :| 0 <= k < |r.projects| && r.projects[k] == q;
      var p := s.projects[k];
      assert q == Detach(p, doc.projectId, id, now);
      assert p in s.projects && x in p.documentIds;
      var e :| e in s.documents && e.id == x && e.projectId == p.id;
      if p.id != doc.projectId {
        OwnerDiffersIdDiffers(s.documents, e, doc);
      }
      assert e in r.documents;
    }
  }

  /** Deleting a document keeps the invariant: its parent forgets it and nobody else listed it. */
  lemma DeleteDocumentKeepsConsistent(s: AppState, id: string, now: int)
    requires Consistent(s)
    ensures Consistent(DeleteDocument(s, id, now))
  {
    match Lists.Find(s.documents, (d: Document) => d.id == id)
    case None =>
    case Some(doc) =>
      DeleteDocumentKeepsListed(s, id, now, doc);
      DeleteDocumentKeepsResolve(s, id, now, doc);
      Lists.FilterKeepsDistinct(s.documents, (d: Document) => d.id != id, DocId);
  }
}
