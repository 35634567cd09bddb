/**
 * The application session: the stored state and the three-screen navigation state, both
 * overwritten by the handlers the views call (project list, document list, document editor).
 */
module Navigation {
  import opened Wrappers
  import Json
  import Storage
  import Lists

  datatype AppMode = ProjectList | DocumentList | DocumentEdit

  datatype NavigationState = NavigationState(
    mode: AppMode,
    currentProjectId: Option<string>,
    currentDocumentId: Option<string>)

  /**
   * The back button: the editor returns to the list of its project, the list returns to the
   * project overview with nothing selected, and the overview has nowhere to go.
   */
  function Back(n: NavigationState): NavigationState
  {
    match n.mode
    case DocumentEdit => NavigationState(DocumentList, n.currentProjectId, None)
    case DocumentList => NavigationState(ProjectList, None, None)
    case ProjectList => n
  }

  /** At most two presses of the back button reach the overview, with nothing selected. */
  lemma BackTwiceReachesOverview(n: NavigationState)
    ensures Back(Back(n)).mode == ProjectList
    ensures n.mode != ProjectList ==> Back(Back(n)) == NavigationState(ProjectList, None, None)
  {
    if n.mode == DocumentEdit {
      assert Back(n).mode == DocumentList;
    }
  }

  /**
   * The documents the list screen shows: those of the selected project, newest first, or none
   * when no project is selected (a null or empty id).
   */
  function CurrentDocuments(s: Storage.AppState, n: NavigationState): (r: seq<Storage.Document>)
    ensures !Storage.IdSet(n.currentProjectId) ==> r == []
    ensures Storage.IdSet(n.currentProjectId) ==>
              forall d :: d in r <==> d in s.documents && d.projectId == n.currentProjectId.value
  {
    if Storage.IdSet(n.currentProjectId)
    then Storage.GetDocumentsByProjectId(s, n.currentProjectId.value)
    else []
  }

  /**
   * `handleCreateDocument` as written: it passes the type where the store's constructor takes
   * the conditions text, so the new document has no type and its conditions hold the type name.
   */
  function NewDocumentAsWritten(name: string, projectId: string, t: Storage.DocumentType,
                                id: string, now: int): (d: Storage.Document)
    ensures d.docType.None? && d.conditions == Storage.DocTypeName(t) && d.conditions != ""
    ensures d.id == id && d.projectId == projectId && d.name == name && d.supplement == ""
  {
    Storage.CreateDocument(name, projectId, Storage.DocTypeName(t), "", Json.JNull, None, id, now)
  }

  lemma NewDocumentAsWrittenLosesType(name: string, projectId: string, t: Storage.DocumentType,
                                      id: string, now: int)
    ensures NewDocumentAsWritten(name, projectId, t, id, now).docType.None?
    ensures NewDocumentAsWritten(name, projectId, t, id, now).conditions == Storage.DocTypeName(t)
    ensures NewDocumentAsWritten(name, projectId, t, id, now).conditions != ""
  {
  }

  /** The document `handleCreateDocument` evidently means to create: typed, with empty content. */
  function NewDocument(name: string, projectId: string, t: Storage.DocumentType, id: string, now: int): (d: Storage.Document)
    ensures d.docType == Some(t) && d.conditions == "" && d.supplement == ""
    ensures d.id == id && d.projectId == projectId && d.name == name
  {
    Storage.CreateTypedDocument(name, projectId, Some(t), "", "", Json.JNull, None, None, id, now)
  }

  /** Adding a document keeps the invariant whenever its project exists and its id is fresh. */
  lemma AddedKeepsConsistent(s: Storage.AppState, d: Storage.Document, now: int)
    ensures Storage.Consistent(s)
            && (exists p :: p in s.projects && p.id == d.projectId)
            && (forall e :: e in s.documents ==> e.id != d.id)
            ==> Storage.Consistent(Storage.AddDocument(s, d, now))
  {
    if Storage.Consistent(s) && (exists p :: p in s.projects && p.id == d.projectId) {
      if forall e :: e in s.documents ==> e.id != d.id {
        Storage.AddDocumentKeepsConsistent(s, d, now);
      }
    }
  }

  /** A session: the application state and the navigation state, each replaced by the handlers. */
  class Session {
    var appState: Storage.AppState
    var nav: NavigationState

    /** Both start from the loaded state, on the project overview. */
    constructor(loaded: Storage.AppState)
      ensures appState == loaded
      ensures nav == NavigationState(ProjectList, loaded.currentProjectId, loaded.currentDocumentId)
    {
      appState := loaded;
      nav := NavigationState(ProjectList, loaded.currentProjectId, loaded.currentDocumentId);
    }

    /** Creates a project and opens its document list. */
    method CreateProject(name: string, description: Option<string>, id: string, now: int)
      modifies this
      ensures appState == Storage.AddProject(old(appState), Storage.CreateProject(name, description, id, now))
      ensures nav == NavigationState(DocumentList, Some(id), None)
      ensures Storage.Consistent(old(appState)) ==> Storage.Consistent(appState)
    {
      var project := Storage.CreateProject(name, description, id, now);
      if Storage.Consistent(appState) {
        Storage.AddProjectKeepsConsistent(appState, project);
      }
      appState := Storage.AddProject(appState, project);
      nav := NavigationState(DocumentList, Some(id), None);
    }

    /**
     * Creates a document of the given type in `projectId` and opens it in the editor. The
     * invariant survives when the project exists and the id is fresh; the handler checks neither.
     */
    method CreateDocument(name: string, projectId: string, t: Storage.DocumentType, id: string, now: int)
      modifies this
      ensures appState == Storage.AddDocument(old(appState), NewDocument(name, projectId, t, id, now), now)
      ensures nav == NavigationState(DocumentEdit, Some(projectId), Some(id))
      ensures Storage.Consistent(old(appState))
              && (exists p :: p in old(appState).projects && p.id == projectId)
              && (forall e :: e in old(appState).documents ==> e.id != id)
              ==> Storage.Consistent(appState)
    {
      var document := NewDocument(name, projectId, t, id, now);
      AddedKeepsConsistent(appState, document, now);
      appState := Storage.AddDocument(appState, document, now);
      nav := NavigationState(DocumentEdit, Some(projectId), Some(id));
    }

    /** Selects a project: it becomes current, no document is, and its list opens. */
    method SelectProject(projectId: string)
      modifies this
      ensures appState == old(appState).(currentProjectId := Some(projectId), currentDocumentId := None)
      ensures nav == NavigationState(DocumentList, Some(projectId), None)
    {
      appState := appState.(currentProjectId := Some(projectId), currentDocumentId := None);
      nav := NavigationState(DocumentList, Some(projectId), None);
    }

    /**
     * Opens a document: an unknown id changes nothing; otherwise the document and its project
     * become current and the editor opens.
     */
    method SelectDocument(documentId: string)
      modifies this
      ensures (forall d :: d in old(appState).documents ==> d.id != documentId) ==>
                appState == old(appState) && nav == old(nav)
      ensures (exists d :: d in old(appState).documents && d.id == documentId) ==>
                exists d :: d in old(appState).documents && d.id == documentId
                  && appState == old(appState).(currentProjectId := Some(d.projectId), currentDocumentId := Some(documentId))
                  && nav == NavigationState(DocumentEdit, Some(d.projectId), Some(documentId))
    {
      match Lists.Find(appState.documents, (d: Storage.Document) => d.id == documentId)
      case None =>
      case Some(document) =>
        appState := appState.(currentProjectId := Some(document.projectId), currentDocumentId := Some(documentId));
        nav := NavigationState(DocumentEdit, Some(document.projectId), Some(documentId));
    }

    /** Merges an update into a project; navigation is untouched. */
    method UpdateProject(projectId: string, u: Storage.ProjectPatch, now: int)
      modifies this
      ensures appState == Storage.UpdateProject(old(appState), projectId, u, now) && nav == old(nav)
      ensures Storage.Consistent(old(appState)) ==> Storage.Consistent(appState)
    {
      if Storage.Consistent(appState) {
        Storage.UpdateProjectKeepsConsistent(appState, projectId, u, now);
      }
      appState := Storage.UpdateProject(appState, projectId, u, now);
    }

    /** Merges an update into a document; navigation is untouched. */
    method UpdateDocument(documentId: string, u: Storage.DocumentPatch, now: int)
      modifies this
      ensures appState == Storage.UpdateDocument(old(appState), documentId, u, now) && nav == old(nav)
      ensures Storage.Consistent(old(appState)) ==> Storage.Consistent(appState)
    {
      if Storage.Consistent(appState) {
        Storage.UpdateDocumentKeepsConsistent(appState, documentId, u, now);
      }
      appState := Storage.UpdateDocument(appState, documentId, u, now);
    }

    /** Deletes a project with its documents and returns to the overview with nothing selected. */
    method DeleteProject(projectId: string)
      modifies this
      ensures appState == Storage.DeleteProject(old(appState), projectId)
      ensures nav == NavigationState(ProjectList, None, None)
      ensures Storage.Consistent(old(appState)) ==> Storage.Consistent(appState)
    {
      if Storage.Consistent(appState) {
        Storage.DeleteProjectKeepsConsistent(appState, projectId);
      }
      appState := Storage.DeleteProject(appState, projectId);
      nav := NavigationState(ProjectList, None, None);
    }

    /**
     * Deletes a document. When it existed, the list of its project opens; otherwise navigation
     * is untouched.
     */
    method DeleteDocument(documentId: string, now: int)
      modifies this
      ensures appState == Storage.DeleteDocument(old(appState), documentId, now)
      ensures (forall d :: d in old(appState).documents ==> d.id != documentId) ==> nav == old(nav)
      ensures (exists d :: d in old(appState).documents && d.id == documentId) ==>
                exists d :: d in old(appState).documents && d.id == documentId
                  && nav == NavigationState(DocumentList, Some(d.projectId), None)
      ensures Storage.Consistent(old(appState)) ==> Storage.Consistent(appState)
    {
      var found := Lists.Find(appState.documents, (d: Storage.Document) => d.id == documentId);
      if Storage.Consistent(appState) {
        Storage.DeleteDocumentKeepsConsistent(appState, documentId, now);
      }
      appState := Storage.DeleteDocument(appState, documentId, now);
      if found.Some? {
        nav := NavigationState(DocumentList, Some(found.value.projectId), None);
      }
    }

    /** Switches the screen and nothing else. */
    method ChangeMode(mode: AppMode)
      modifies this
      ensures nav == old(nav).(mode := mode) && appState == old(appState)
    {
      nav := nav.(mode := mode);
    }

    /** The back button; the stored state is untouched. */
    method GoBack()
      modifies this
      ensures nav == Back(old(nav)) && appState == old(appState)
      ensures old(nav).mode == DocumentEdit ==>
                nav.mode == DocumentList && nav.currentProjectId == old(nav).currentProjectId
                && nav.currentDocumentId.None?
      ensures old(nav).mode == DocumentList ==> nav == NavigationState(ProjectList, None, None)
      ensures old(nav).mode == ProjectList ==> nav == old(nav)
    {
      match nav.mode
      case DocumentEdit =>
        nav := NavigationState(DocumentList, nav.currentProjectId, None);
      case DocumentList =>
        nav := NavigationState(ProjectList, None, None);
      case ProjectList =>
    }
  }
}
