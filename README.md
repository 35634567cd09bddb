# mdai-designer, modelled in Dafny

mdai-designer is a browser editor for Japanese design documents. It stores projects, and each
project holds screen, data-model, API and database documents. Their content is a display-
conditions text, a supplement text, a spreadsheet of item definitions, a mock-up image and a
Mermaid ER diagram. AI chat panels propose drafts and modifications. A small Python server
answers the panels' `generate_data_model` calls over an MCP-style HTTP endpoint.

This project models the core of both halves. One Dafny module stands for one source file.

- **The store.** `Storage` holds the pure state transitions. Each is proved to keep the link
  between `project.documentIds` and `document.projectId`. `Backup` is the local-storage backup
  ring. `Navigation` and `ProjectOps` are the editor's hooks that drive the store.
- **The documents.** `DocData` and `FileOps` cover the document file format and its loader.
  `DocumentTypes` is the type registry. `DomainModel` holds the data-model records.
  `ERDiagram`, `MermaidEditor` and `ModelText` read and write Mermaid diagrams. `HtmlPreview`
  is the mock-up preview.
- **The exports.** `MarkdownTable`, `MarkdownExport` and `ZipExport` produce the Markdown and
  ZIP exports.
- **The chat panels.** `CommonChat` and `ChatShared` hold the shared chat panel logic.
  `ScreenChat` and `ModelChat` are the two panels, each a class over its message list.
  `DraftTools` covers draft application. `Modification` covers modification proposals, their
  diffs and their application. `DocRefs` handles document references and @-mentions.
- **The AI services.** `AiService`, `Providers`, `Bedrock` and `OpenAiProvider` are the
  browser-side AI services and their providers.
- **The server.** `HttpServer` is the server's request handler. `ServerAiService` is its AI
  service with the Mermaid extraction and repair.

The remaining modules hold shared vocabulary:

- `Wrappers`: `Option` and `Outcome`, where `Outcome` is a value or the message an exception
  carried.
- `Json`: parsed JSON values and JavaScript coercions.
- `Text`: string helpers with JavaScript and Python whitespace.
- `Lists`, `Sorting` and `Keywords`: list, sorting and keyword helpers.

The model replaces everything the program cannot compute by itself with a parameter:

- Clocks, random ids and user confirmations become values.
- Every call into an AI model, the MCP server or an SDK becomes a function parameter whose
  result is a reply or a raised message.
- A component's parent callbacks become returned lists of updates.

Where code and intent part ways, both are modelled and the pair is listed under Findings. The
providers' error handling, the server's request handler, the data-model generation and the
Mermaid repair follow the code as written. Document creation, the project import and the
common chat panel's cell references use the intended behaviour, and each operation that does
so has a line under Left out.

## Model

| member | source | states |
|---|---|---|
| Storage.CreateProject | src/utils/storage.ts:68-78 | a new project carries the given id, name and description, lists no documents, and was created and last updated at the same instant |
| Storage.CreateDocument | src/utils/storage.ts:83-103 | a new document carries the given fields; the store's constructor gives it no type, no AI image and no Mermaid text |
| Storage.DocTypeName | src/types/index.ts:14 | a document type is written as one of `screen`, `model`, `api`, `database` |
| Storage.CreateTypedDocument | src/hooks/useAppState.ts:62-63 | the constructor the callers evidently expect: every argument, the type and the Mermaid text included, lands in the field of the same name |
| Storage.GetProjects | src/utils/storage.ts:108-112 | the projects afterwards are a permutation of those before, most recently updated first, and nothing else in the state changes |
| Storage.GetDocumentsByProjectId | src/utils/storage.ts:117-123 | exactly the documents of the project, as a permutation of the filtered list, most recently updated first |
| Storage.GetCurrentDocument | src/utils/storage.ts:260-263 | none exactly when the current id is unset, empty or names no document; otherwise a stored document carrying that id |
| Storage.GetCurrentProject | src/utils/storage.ts:268-271 | none exactly when the current id is unset, empty or names no project; otherwise a stored project carrying that id |
| Storage.AddProject | src/utils/storage.ts:128-134 | the project is appended and becomes the current one; documents and the current document are kept |
| Storage.AddDocument | src/utils/storage.ts:139-157 | the document is appended and becomes current; exactly the projects with its project id list it and are refreshed, every other project is kept |
| Storage.PatchProject | src/utils/storage.ts:164-170 | a present key of the update overwrites the project's value, an absent one keeps it; id, creation time and document list are kept; the update time is now |
| Storage.UpdateProject | src/utils/storage.ts:162-177 | exactly the projects with that id are patched; documents and the current ids are kept; an unknown id changes nothing |
| Storage.PatchDocument | src/utils/storage.ts:184-190 | a present key of the update overwrites the document's value, an absent one keeps it; id, project, type, AI image and creation time are kept; the update time is now |
| Storage.Touch | src/utils/storage.ts:196-200 | exactly the projects with the given id get a new update time, and nothing else changes |
| Storage.UpdateDocument | src/utils/storage.ts:182-208 | exactly the documents with that id are patched, the parent of the first one is refreshed, and an unknown id changes nothing |
| Storage.DeleteProject | src/utils/storage.ts:213-227 | exactly the other projects and their documents survive; the current project is cleared exactly when it was the deleted one, the current document exactly when it belonged to it |
| Storage.DeleteDocument | src/utils/storage.ts:232-255 | an unknown id returns the state unchanged; otherwise exactly the other documents survive, every project is its old self detached from the first such document's parent, the current project stays, and the current document is cleared exactly when it was that one |
| Storage.Detach | src/utils/storage.ts:237-244 | the parent drops exactly that id and is stamped with the time, every other field kept; any other project is left as it is |
| Storage.UpdateProjectKeepsConsistent | src/utils/storage.ts:162-177 | merging a project update keeps every document listed by its project, every listed id resolving, and document ids unique |
| Storage.UpdateDocumentKeepsConsistent | src/utils/storage.ts:182-208 | merging a document update keeps the same invariant |
| Storage.AddProjectKeepsConsistent | src/utils/storage.ts:128-134 | adding a project that lists no documents keeps the invariant |
| Storage.AddDocumentKeepsConsistent | src/utils/storage.ts:139-157 | adding a document with a fresh id to an existing project keeps the invariant |
| Storage.DeleteProjectKeepsConsistent | src/utils/storage.ts:213-227 | deleting a project keeps the invariant: no surviving document is left without its project |
| Storage.DeleteDocumentKeepsConsistent | src/utils/storage.ts:232-255 | deleting a document keeps the invariant: its parent forgets it and no other project listed it |
| Backup.StoredUnderOwnKey | src/services/backupService.ts:29-31 | in a well-formed store each backup is saved under the prefixed key of its own id |
| Backup.DistinctKeys | src/services/backupService.ts:6-29 | distinct backups of a well-formed store sit under distinct keys |
| Backup.BackupStore.constructor | src/services/backupService.ts:6 | the store starts from the given storage contents |
| Backup.BackupStore.GetAllBackups | src/services/backupService.ts:75-97 | with every entry readable, the result holds exactly the stored backups, each once, newest first; one unreadable entry makes the result empty |
| Backup.BackupStore.GetBackup | src/services/backupService.ts:101-116 | a backup is returned exactly when its key holds a readable entry, and it is that entry |
| Backup.BackupStore.RestoreFromBackup | src/services/backupService.ts:121-129 | the stored document content is returned exactly when the backup exists |
| Backup.BackupStore.DeleteBackup | src/services/backupService.ts:134-144 | the key of the id, and only it, is removed; success is reported and the backup is gone |
| Backup.BackupStore.CleanupOldBackups | src/services/backupService.ts:149-165 | only backups beyond the ten newest are removed, so exactly min(n, 10) backups remain; other keys are untouched |
| Backup.BackupStore.CreateAutoBackup | src/services/backupService.ts:13-42 | the id is `auto_`, the time and the random suffix; the new backup is stored under its key, then every backup beyond the ten newest is pruned |
| Backup.BackupStore.CreateManualBackup | src/services/backupService.ts:47-70 | the id is `manual_`, the time and the random suffix; exactly that key is written and nothing is pruned |
| Backup.BackupStore.ClearAllBackups | src/services/backupService.ts:170-181 | only listed backup keys are removed, other entries keep their values, and an unreadable store is left as it was |
| Backup.AutoBackup | src/services/backupService.ts:17-26 | the automatic backup carries the id, the time, the data and the modification id and reason |
| Backup.ManualBackup | src/services/backupService.ts:51-59 | the manual backup keeps a non-empty label, the caller's when given, and the fixed manual reason |
| Backup.PruneKeepsNewest | src/services/backupService.ts:149-165 | deleting every backup after the tenth in the newest-first list leaves exactly the ten newest |
| Backup.WriteKeepsListable | src/services/backupService.ts:29-36 | writing a backup under its own key keeps the store well-formed and readable and lists the new backup |
| Navigation.BackTwiceReachesOverview | src/hooks/useAppState.ts:159-178 | at most two presses of the back button reach the project overview, and from any other screen they clear both selections |
| Navigation.CurrentDocuments | src/hooks/useAppState.ts:194-196 | the list screen shows exactly the selected project's documents, and none when no project is selected |
| Navigation.NewDocumentAsWrittenLosesType | src/hooks/useAppState.ts:62-63 | the document created as written has no type, and its conditions text holds the type's name |
| Navigation.NewDocumentAsWritten | src/hooks/useAppState.ts:62-63 | as written, the new document has no type and its conditions hold the type's name; name, project and id are the given ones |
| Navigation.NewDocument | src/hooks/useAppState.ts:62-63 | the document the handler means to create carries the chosen type, the given name, project and id, and empty content |
| Navigation.Session.constructor | src/hooks/useAppState.ts:25-32 | the session starts from the loaded state on the project overview, with the stored selections |
| Navigation.Session.CreateProject | src/hooks/useAppState.ts:49-60 | the new project is added, its document list opens, and the store's consistency is kept |
| Navigation.Session.CreateDocument | src/hooks/useAppState.ts:62-73 | the new typed document is added, the editor opens on it, and consistency is kept when the project exists and the id is fresh |
| Navigation.Session.SelectProject | src/hooks/useAppState.ts:75-87 | the project becomes current, no document is, and its list opens |
| Navigation.Session.SelectDocument | src/hooks/useAppState.ts:89-104 | an unknown id changes nothing; otherwise the document and its project become current and the editor opens |
| Navigation.Session.UpdateProject | src/hooks/useAppState.ts:106-111 | the update is merged into the project, navigation is untouched and consistency is kept |
| Navigation.Session.UpdateDocument | src/hooks/useAppState.ts:113-124 | the update is merged into the document, navigation is untouched and consistency is kept |
| Navigation.Session.DeleteProject | src/hooks/useAppState.ts:126-136 | the project goes with its documents, the overview opens with nothing selected, and consistency is kept |
| Navigation.Session.DeleteDocument | src/hooks/useAppState.ts:138-152 | the document goes; when it existed its project's list opens, otherwise navigation is untouched |
| Navigation.Session.ChangeMode | src/hooks/useAppState.ts:154-156 | only the screen changes |
| Navigation.Session.GoBack | src/hooks/useAppState.ts:159-178 | the editor goes back to its project's list, the list to the overview with nothing selected, and the overview stays; the stored state is untouched |
| ProjectOps.ExportProject | src/hooks/useProjectOperations.ts:33-71 | no export (an alert) exactly when no project has the id; otherwise the project found and exactly its documents, in store order and each as often as stored |
| Lists.FilterKeepsOrder | src/hooks/useProjectOperations.ts:44 | `filter` keeps the surviving elements in their original order, each as often as it occurs, and drops the others entirely |
| ProjectOps.ExportFileName | src/hooks/useProjectOperations.ts:66 | the file name is the project's name followed by `_export.json` |
| ProjectOps.MarkdownExportSelection | src/hooks/useProjectOperations.ts:165-190 | no export exactly when no project has the id; otherwise the project's name, its description or '', and exactly its documents, in store order and each as often as stored |
| ProjectOps.Recreate | src/hooks/useProjectOperations.ts:121-131 | the document the import means to add carries the new id and the new project |
| ProjectOps.RecreateKeepsContent | src/hooks/useProjectOperations.ts:121-131 | re-creating keeps the name, type, both texts, the sheets, the mock-up and the Mermaid text of the exported document |
| ProjectOps.RecreateAsWrittenShiftsFields | src/hooks/useProjectOperations.ts:122-131 | the call as written loses the type and the Mermaid text: the conditions hold the type name, the supplement the conditions and the sheets the supplement |
| ProjectOps.RecreateAsWrittenLosesContent | src/hooks/useProjectOperations.ts:122-131 | a concrete exported document whose conditions, supplement, sheets and Mermaid text the as-written import does not restore |
| ProjectOps.RecreateAsWritten | src/hooks/useProjectOperations.ts:122-131 | as written, the re-created document has no type and no Mermaid text; its conditions hold the type name, its supplement the conditions, and its sheet slot the supplement text |
| ProjectOps.Recreated | src/hooks/useProjectOperations.ts:121-134 | one re-created document per exported one, in file order, each with its fresh id |
| ProjectOps.AddAllAppendsInOrder | src/hooks/useProjectOperations.ts:120-134 | the import appends exactly the re-created documents after the existing ones, in file order, touching none of them |
| ProjectOps.NewIds | src/hooks/useProjectOperations.ts:121-134 | the ids of the first n re-created documents, in order |
| ProjectOps.AddAllTouchesOnlyTarget | src/hooks/useProjectOperations.ts:120-134 | the projects keep their order and ids; only the target changes, listing the new documents' ids after its old list |
| ProjectOps.AddAllDocumentIds | src/hooks/useProjectOperations.ts:120-134 | every document after the import is an old one or carries one of the fresh ids |
| ProjectOps.AddAllKeepsTarget | src/hooks/useProjectOperations.ts:120-134 | the target project survives the import of its documents |
| ProjectOps.AddAllKeepsConsistent | src/hooks/useProjectOperations.ts:120-134 | with fresh document ids and an existing target, adding the documents keeps the store consistent |
| ProjectOps.AddAllKeepsCurrentProject | src/hooks/useProjectOperations.ts:120-134 | adding the documents leaves the current project as it was |
| ProjectOps.ImportedName | src/hooks/useProjectOperations.ts:98-113 | the new project keeps the file's name, or gets `_imported` appended when a project of that name exists |
| ProjectOps.ImportProject | src/hooks/useProjectOperations.ts:74-161 | a non-JSON file and an unreadable or incomplete file are refused; a declined overwrite question changes nothing; otherwise the imported state |
| ProjectOps.ImportKeepsExistingProjects | src/hooks/useProjectOperations.ts:98-117 | an import keeps every existing project, even on a name clash, and adds exactly one |
| ProjectOps.ImportedProjectListsNewDocuments | src/hooks/useProjectOperations.ts:111-134 | the imported project has the new id and the chosen name and lists exactly the re-created documents, in file order |
| ProjectOps.ImportAppendsDocuments | src/hooks/useProjectOperations.ts:116-134 | the re-created documents follow the existing ones in file order, and the new project is current |
| ProjectOps.ImportKeepsConsistent | src/hooks/useProjectOperations.ts:116-137 | an import with fresh ids keeps the store consistent |
| DocumentTypes.Lookup | src/utils/documentTypes.ts:4-33 | looking up a key in the type table finds a record exactly when the key is one of the four types, and that record's type is the key |
| DocumentTypes.GetDocumentTypeInfo | src/utils/documentTypes.ts:35-37 | every well-typed document type has its record, whose type field is that type |
| DocumentTypes.GetAllDocumentTypes | src/utils/documentTypes.ts:39-41 | the list has the four records in declaration order, each the table's record for its key |
| DocumentTypes.GetDocumentTypeName | src/utils/documentTypes.ts:43-45 | a known type is named by its label; an unknown key is named by the key itself |
| DocumentTypes.GetDocumentTypeIcon | src/utils/documentTypes.ts:47-49 | a known type gets its icon; an unknown key gets the generic document icon |
| DocumentTypes.TableShape | src/utils/documentTypes.ts:4-33 | the table has exactly four distinct keys and each record's type is its own key |
| DocumentTypes.EveryStoredTypeListed | src/utils/documentTypes.ts:4-33 | every document type a stored document can carry has a record, and every key is such a type |
| DocumentTypes.ShouldShowTabIff | src/utils/documentTypes.ts:51-54 | a tab is shown if and only if the type is known and lists the tab among its default tabs |
| DocumentTypes.ScreenTabs | src/utils/documentTypes.ts:5-11 | a screen document shows conditions, mockup, definitions and supplement, and no models tab |
| DocumentTypes.ModelTabs | src/utils/documentTypes.ts:12-18 | a model document shows models, conditions and supplement, and neither mockup nor definitions |
| DocumentTypes.UnknownTypeFallbacks | src/utils/documentTypes.ts:43-54 | an unknown type shows no tab, is named by its key and gets the generic icon |
| DomainModel.RelationshipTypeName | src/types/domainModel.ts:46-50 | a relationship type is written as one of `one-to-one`, `one-to-many`, `many-to-one`, `many-to-many` |
| FileOps.FormatMembers | src/hooks/useFileOperations.ts:128-138 | every formatting key of a stored cell is copied in order, one member per key, holding the cell's value under that key |
| FileOps.ConvertRow | src/hooks/useFileOperations.ts:110-160 | one row's pass pushes exactly its converted, non-skipped cells, in column order |
| FileOps.ConvertData | src/hooks/useFileOperations.ts:107-162 | the grid pass pushes exactly the converted cells of every array row, in order |
| FileOps.NormaliseCells | src/hooks/useFileOperations.ts:168-196 | the cell filter never adds cells |
| FileOps.LoadSheet | src/hooks/useFileOperations.ts:96-232 | one sheet is loaded, grid converted by the nested passes, as the sheet normalisation defines |
| FileOps.NormaliseAll | src/hooks/useFileOperations.ts:96-232 | the load keeps one sheet per stored sheet, and fails exactly when some sheet throws |
| FileOps.LoadSheets | src/hooks/useFileOperations.ts:96-232 | the sheets are converted one after the other into the normalised list, and the first throw ends the load |
| FileOps.Load | src/hooks/useFileOperations.ts:72-260 | the load handler converts the sheets one after the other and gives the load result, the first throw ending it |
| FileOps.EntryKept | src/hooks/useFileOperations.ts:168-196 | an entry with a non-empty value passes the filter and keeps its coordinates and value |
| FileOps.ConvertedCellShape | src/hooks/useFileOperations.ts:113-156 | empty grid entries are skipped, and a converted cell passes the filter at its grid position with the stored cell's own value or the plain value itself |
| FileOps.TextCellKeptIffNotBlank | src/hooks/useFileOperations.ts:143-155 | a text cell is kept exactly when it is not all whitespace, and then shows that text |
| FileOps.GridCellsAt | src/hooks/useFileOperations.ts:107-162 | the rebuilt grid holds exactly the converted non-skipped cells, each from some row and column of the grid |
| FileOps.DataCellsKept | src/hooks/useFileOperations.ts:107-176 | every cell rebuilt from a grid passes the cell filter |
| FileOps.GridSheetCoordinates | src/hooks/useFileOperations.ts:105-211 | a sheet stored as a grid loads with one cell per non-skipped grid cell, each at the grid position it came from |
| FileOps.NonArraySpreadsheetLoadsEmpty | src/hooks/useFileOperations.ts:89-93 | a document whose spreadsheet is not an array loads with no sheets |
| FileOps.NullSheetFailsLoad | src/hooks/useFileOperations.ts:200-251 | a `null` sheet anywhere, or a `null` document, makes the whole load fail |
| FileOps.SaveLoadRoundTrip | src/hooks/useFileOperations.ts:50-245 | loading a saved document gives back its texts and its mock-up, an empty mock-up as `null`; with no sheets the load succeeds |
| FileOps.WellFormedCellsKept | src/hooks/useFileOperations.ts:106-196 | a sheet without a grid whose cells already have the loaded shape keeps every cell at the same coordinates |
| FileOps.EmptySheetDefaults | src/hooks/useFileOperations.ts:198-222 | a sheet with no settings gets `Sheet<i+1>`, status 1, its index as order, 100 rows, 26 columns, empty layout maps and no cells |
| ERDiagram.DeleteRemovesExactly | src/components/Model/ERDiagramEditor.tsx:43-52 | deleting removes exactly the models with that id and exactly the relationships touching it; everything else survives |
| ERDiagram.DeleteKeepsOrder | src/components/Model/ERDiagramEditor.tsx:43-52 | the survivors keep their order: deletion distributes over any split of the lists |
| ERDiagram.DeleteUnknownIsNoop | src/components/Model/ERDiagramEditor.tsx:43-52 | deleting a model nothing refers to changes nothing |
| ERDiagram.Edges | src/components/Model/ERDiagramEditor.tsx:72-86 | there is one edge per relationship, in order |
| ERDiagram.EdgesMirrorRelationships | src/components/Model/ERDiagramEditor.tsx:72-86 | every edge keeps its relationship's id and endpoints and is labelled by its type; two edges share a label exactly when their types agree |
| ERDiagram.LabelsDiffer | src/types/domainModel.ts:41-45 | different relationship types have different wire names |
| ERDiagram.NoEdgeToDeletedModel | src/components/Model/ERDiagramEditor.tsx:43-86 | after a deletion no edge has the deleted model at either end |
| ERDiagram.NewModel | src/components/Model/ERDiagramEditor.tsx:102-118 | the new entity is named `Entity` plus the next count and has one required string primary key `id` and no relationships or rules |
| ERDiagram.AddModel | src/components/Model/ERDiagramEditor.tsx:101-121 | adding keeps the old models and appends the new entity |
| ERDiagram.AddTwiceNamesDiffer | src/components/Model/ERDiagramEditor.tsx:104 | two additions in a row give their entities different names |
| ERDiagram.NewRelationship | src/components/Model/ERDiagramEditor.tsx:127-135 | the new relationship is one-to-many from source to target, from `id` to the source's `_id` field |
| ERDiagram.Connect | src/components/Model/ERDiagramEditor.tsx:125-138 | with both endpoints present and non-empty one relationship is appended; a missing or empty endpoint leaves the list unchanged; the old list is always a prefix |
| ERDiagram.ConnectAddsOneEdge | src/components/Model/ERDiagramEditor.tsx:125-156 | a connection adds exactly one edge, at the end, labelled `one-to-many` |
| MermaidEditor.NextMode | src/components/Model/MermaidEditor.tsx:325-329 | the mode button always changes the mode |
| MermaidEditor.ModeCycle | src/components/Model/MermaidEditor.tsx:325-329 | three presses return to the starting mode, passing through all three modes |
| MermaidEditor.ClampHeight | src/components/Model/MermaidEditor.tsx:95 | the height is kept within 300 to 800, unchanged inside that range |
| MermaidEditor.ClampMonotone | src/components/Model/MermaidEditor.tsx:92-95 | clamping keeps the order of heights: dragging further down never makes the editor shorter |
| MermaidEditor.Render | src/components/Model/MermaidEditor.tsx:123-198 | an unmounted pane changes nothing but the error; a blank value shows the placeholder with no error; a value without `erDiagram` is an error before Mermaid is called; otherwise Mermaid's outcome decides |
| MermaidEditor.RenderConsultsMermaidOnlyAfterPrecheck | src/components/Model/MermaidEditor.tsx:124-155 | the Mermaid library is reached only for a non-blank value that mentions `erDiagram` |
| MermaidEditor.SamplePassesPrecheck | src/components/Model/MermaidEditor.tsx:230-263 | the sample passes the editor's own pre-check |
| MermaidEditor.InsertSample | src/components/Model/MermaidEditor.tsx:216-266 | a blank value is replaced by the sample; a non-blank one exactly when the user confirms |
| MermaidEditor.Editor.constructor | src/components/Model/MermaidEditor.tsx:74-77 | the editor starts in split view, 500 pixels high, with no error and not resizing |
| MermaidEditor.Editor.CycleMode | src/components/Model/MermaidEditor.tsx:325-329 | the mode button moves to the next mode and changes nothing else |
| MermaidEditor.Editor.MouseDown | src/components/Model/MermaidEditor.tsx:83-86 | pressing on the handle starts resizing and changes nothing else |
| MermaidEditor.Editor.MouseUp | src/components/Model/MermaidEditor.tsx:99-101 | releasing stops resizing and changes nothing else |
| MermaidEditor.Editor.MouseMove | src/components/Model/MermaidEditor.tsx:88-97 | while resizing with a known container, the height follows the pointer less the toolbar, clamped; otherwise nothing changes |
| MermaidEditor.Editor.RenderDiagram | src/components/Model/MermaidEditor.tsx:123-198 | rendering sets the error and the pane as the render function says, and nothing else |
| MermaidEditor.Editor.Refresh | src/components/Model/MermaidEditor.tsx:201-213 | a change of value or mode renders unless only the editor is shown |
| MermaidEditor.Editor.InsertSampleCode | src/components/Model/MermaidEditor.tsx:216-266 | the sample is written unless a non-blank value would be lost without confirmation; nothing else changes |
| ModelText.FieldLines | src/components/Model/ModelTextEditor.tsx:25-27 | one written line per field, in order |
| ModelText.RelationshipLines | src/components/Model/ModelTextEditor.tsx:30-32 | one written line per relationship, in order |
| ModelText.Blocks | src/components/Model/ModelTextEditor.tsx:20-33 | one text block per model, in order |
| ModelText.ModelsToText | src/components/Model/ModelTextEditor.tsx:19-34 | no models are written as the empty text; otherwise the text starts with the first model's block |
| ModelText.NameMatch | src/components/Model/ModelTextEditor.tsx:42-43 | a heading is found exactly when the line is `# ` followed by at least one character and no line terminator, and the name is the rest of the line |
| ModelText.TextToModels | src/components/Model/ModelTextEditor.tsx:37-83 | one model per non-blank section between `---` separators, each read from its own section and position |
| ModelText.TrimmedNeverStartsWithSpaces | src/components/Model/ModelTextEditor.tsx:54 | a trimmed line never starts with two spaces, so the field filter accepts no line |
| ModelText.NoFieldLines | src/components/Model/ModelTextEditor.tsx:52-54 | the field filter leaves no line, whatever the section holds |
| ModelText.ReadModelsHaveNoFields | src/components/Model/ModelTextEditor.tsx:52-81 | every model read from text has no fields, no relationships and no business rules |
| ModelText.ReadModelIds | src/components/Model/ModelTextEditor.tsx:43-75 | the id of the i-th model read is `model_i`, and a section without a heading is named `Entity(i+1)` |
| ModelText.TypeNameNoRun | src/types/domainModel.ts:46-50 | the relationship type names hold no run of dashes, so they never split a section |
| ModelText.BlockNoRun | src/components/Model/ModelTextEditor.tsx:20-33 | a written block has no `---` run when none of its model's texts has one |
| ModelText.SplitJoined | src/components/Model/ModelTextEditor.tsx:33-38 | splitting blocks joined by the `---` separator at `---` cuts exactly at the separators |
| ModelText.BlockFramed | src/components/Model/ModelTextEditor.tsx:20-33 | every written block starts and ends with a newline |
| ModelText.ReadSection | src/components/Model/ModelTextEditor.tsx:41-46 | a section starting with a heading line and a description line is read as that name and trimmed description |
| ModelText.ReadPiece | src/components/Model/ModelTextEditor.tsx:20-46 | reading one written block back gives the model's name and its trimmed description |
| ModelText.SectionsOfText | src/components/Model/ModelTextEditor.tsx:33-38 | the sections of written text are exactly the written blocks: none is blank |
| ModelText.RoundTrip | src/components/Model/ModelTextEditor.tsx:19-83 | writing models and reading them back keeps their number, order, names and trimmed descriptions when no text holds `---` or a line break; ids are renumbered and fields and relationships are lost |
| ModelText.RoundTripEmpty | src/components/Model/ModelTextEditor.tsx:19-38 | no models are written as the empty text, which reads back as no models |
| HtmlPreview.CloseFrom | src/utils/htmlToImage.ts:166 | the scan finds the first `>` at or after the position, or reports that there is none |
| HtmlPreview.TagAt | src/utils/htmlToImage.ts:166 | a tag match is `<`, a character other than `/`, and everything up to the first `>` after it, at least three characters |
| HtmlPreview.ComplexityOf | src/utils/htmlToImage.ts:167-173 | more than 50 elements is complex, 21 to 50 moderate, at most 20 simple |
| HtmlPreview.RoundDiv | src/utils/htmlToImage.ts:176-178 | rounding a quotient gives the nearest integer, halves rounding up |
| HtmlPreview.PreviewHtmlImageConversion | src/utils/htmlToImage.ts:156-187 | the preview reports the length, styles exactly when `<style>` or `style=` occurs, the complexity of the element count, and a 4 MB estimate |
| HtmlPreview.EstimatedSizeIsFourMB | src/utils/htmlToImage.ts:176-179 | the size estimate is the same for every input, 4 MB |
| HtmlPreview.CountTagsBound | src/utils/htmlToImage.ts:166 | each counted tag spends at least three characters, so there are at most a third as many tags as characters |
| HtmlPreview.ShortFragmentsAreSimple | src/utils/htmlToImage.ts:166-173 | a fragment shorter than 63 characters is always simple, and one shorter than 153 is never complex |
| HtmlPreview.NoAngleNoTags | src/utils/htmlToImage.ts:166 | text without `<` has no elements |
| HtmlPreview.ClosingTagsNotCounted | src/utils/htmlToImage.ts:166 | a closing tag is not counted, while an opening tag in the same place is |
| MarkdownTable.CoordinateOf | src/utils/markdownExport.ts:26-27 | a falsy coordinate selects index 0, a numeric one selects the index equal to it, and every index lies below the array length limit 2^32 − 1 |
| MarkdownTable.CellText | src/utils/markdownExport.ts:28 | a cell whose inner value is falsy is written as the empty text |
| MarkdownTable.GrowRows | src/utils/markdownExport.ts:30-33 | rows are pushed, empty, just until the row exists; the old rows are kept |
| MarkdownTable.Pad | src/utils/markdownExport.ts:34-58 | empty cells are pushed just until the row is long enough; the old cells are kept |
| MarkdownTable.RaisedPersists | src/utils/markdownExport.ts:25-40 | once a cell has raised, the later cells are never reached |
| MarkdownTable.BuildGrid | src/utils/markdownExport.ts:22-40 | the cell loop, with its two growing loops, builds exactly the grid function's rows |
| MarkdownTable.PlaceCellWrites | src/utils/markdownExport.ts:26-39 | writing a cell grows the grid just enough to hold its position, puts its text there, and leaves every other position as it was or empty |
| MarkdownTable.PlaceCell | src/utils/markdownExport.ts:26-39 | a cell throws exactly when its placement throws, as when padding reaches the array length limit; otherwise the grid grows just enough to hold its row and keeps every other row, an index column gets its text at its position, and any other column still pads the row to its width |
| MarkdownTable.Reach | src/utils/markdownExport.ts:35-37 | padding against a number raises the invalid-length RangeError exactly for Infinity and for values from the array length limit 2^32 − 1 on; otherwise it stops at a length no larger than the limit |
| MarkdownTable.ReachIsFirstLengthPast | src/utils/markdownExport.ts:35-37 | padding stops at the first length that exceeds the number, or at once for NaN and negative numbers |
| MarkdownTable.OverflowColumnRaises | src/utils/markdownExport.ts:27-37 | a column given as the text `1e400` names no index and reads as Infinity, so the cell raises the invalid-length RangeError |
| MarkdownTable.LimitColumnRaises | src/utils/markdownExport.ts:27-37 | a column of 4294967295 names no index, so padding to it raises the invalid-length RangeError |
| MarkdownTable.FractionalColumnPads | src/utils/markdownExport.ts:27-37 | a column of 1.5 names no index but pads the row to two cells |
| MarkdownTable.TrueColumnPads | src/utils/markdownExport.ts:27-37 | a column of `true` names no index but pads the row to two cells |
| MarkdownTable.PaddedDigitsColumnPads | src/utils/markdownExport.ts:27-37 | a column of the text `02` names no index but pads the row to three cells |
| MarkdownTable.WriteCell | src/utils/markdownExport.ts:31-39 | the two growing loops and the write give exactly the cell's placement |
| MarkdownTable.ExponentColumnPads | src/utils/markdownExport.ts:27-37 | a column given as the text `1e1` is not an index, yet pads the row to 11 cells |
| MarkdownTable.ExponentColumn | src/utils/markdownExport.ts:27 | the text `1e1` is truthy and no index, yet converts to the number 10 for the padding comparison |
| MarkdownTable.OkPrefix | src/utils/markdownExport.ts:25-40 | if the whole grid was built, every prefix of the cell list builds too |
| MarkdownTable.LastCellWins | src/utils/markdownExport.ts:25-40 | the last cell written at a position decides its text |
| MarkdownTable.ValidRows | src/utils/markdownExport.ts:43 | the rows kept are exactly the non-blank ones, in order |
| MarkdownTable.Width | src/utils/markdownExport.ts:54 | the width is the length of the widest row |
| MarkdownTable.ShownCells | src/utils/markdownExport.ts:60 | an empty cell prints as `-`; every other cell prints as itself |
| MarkdownTable.RenderRows | src/utils/markdownExport.ts:50-69 | the printing loop writes each row padded to the widest and the separator once after the first |
| MarkdownTable.PadRow | src/utils/markdownExport.ts:56-58 | empty cells are appended until the row is as wide as the widest |
| MarkdownTable.ConvertSpreadsheetToMarkdownTable | src/utils/markdownExport.ts:10-72 | the converter's placeholder checks, grid, row filter and printing loop give the table function's result |
| MarkdownTable.TableShape | src/utils/markdownExport.ts:52-69 | there is exactly one separator, right after the first row, and every row shows as many cells as the widest row, none empty |
| MarkdownTable.TableTextIsJoinedLines | src/utils/markdownExport.ts:71 | trimming the printed table removes exactly the final newline |
| MarkdownTable.PlaceholderWhenEmpty | src/utils/markdownExport.ts:11-47 | no sheet data, a first sheet without cells, or no non-blank row gives the placeholder table |
| MarkdownTable.TableOfRows | src/utils/markdownExport.ts:43-71 | otherwise the table is its lines joined by newlines, without a trailing one |
| MarkdownExport.LinePrefix | src/utils/markdownExport.ts:214 | the longest prefix without a line terminator: `.` in the brace pattern cannot cross a line end |
| MarkdownExport.LastClose | src/utils/markdownExport.ts:214 | the index of the last `}`, or none when there is no `}` |
| MarkdownExport.BraceBodyFrom | src/utils/markdownExport.ts:214-216 | a brace body found is non-empty, stays on one line and stands between a `{` and a `}` of the text |
| MarkdownExport.TrimAll | src/utils/markdownExport.ts:218 | each comma-separated piece is trimmed, one result per piece |
| MarkdownExport.FieldsFrom | src/utils/markdownExport.ts:218-230 | fields come only from pieces of at least two tokens, so there are never more fields than pieces |
| MarkdownExport.EntityOfHeaderLine | src/utils/markdownExport.ts:202-211 | a line opens an entity exactly when its trimmed text is a header, and the entity is named by a word |
| MarkdownExport.ReadEntityLines | src/utils/markdownExport.ts:201-234 | the loop over the lines pushes the entity of each header line, in order |
| MarkdownExport.ExtractEntitiesFromMermaid | src/utils/markdownExport.ts:197-237 | the extraction loop yields the entities of the extraction function |
| MarkdownExport.EntitiesAreHeaderLines | src/utils/markdownExport.ts:197-237 | the entities extracted are exactly those of the header lines, all named by words |
| MarkdownExport.NoCloseNoBody | src/utils/markdownExport.ts:214 | without a `}` later on the line no brace body is found |
| MarkdownExport.HeaderWithoutCloseHasNoFields | src/utils/markdownExport.ts:205-233 | a header line without `}` on it, the usual layout, yields an entity with no fields |
| MarkdownExport.ConstraintText | src/utils/markdownExport.ts:148-153 | the constraint cell is `-` exactly when the field is neither key and nullable |
| MarkdownExport.RenderFieldRows | src/utils/markdownExport.ts:147-154 | the field loop writes one table row per field, in order |
| MarkdownExport.RenderEntities | src/utils/markdownExport.ts:141-157 | the entity loop writes a numbered heading per entity and its field table when it has fields |
| MarkdownExport.DiagramBody | src/utils/markdownExport.ts:133-161 | with a diagram the body holds it in a `mermaid` fence; without one it is `ER図なし` |
| MarkdownExport.RenderDiagramBody | src/utils/markdownExport.ts:133-161 | the extraction and entity loops build exactly the diagram body |
| MarkdownExport.ScreenDocumentMarkdown | src/utils/markdownExport.ts:76-121 | the screen document succeeds exactly when its sheet converts, starts with the title and holds the item table under its heading |
| MarkdownExport.ModelDocumentMarkdown | src/utils/markdownExport.ts:125-178 | the data-model document starts with the title and holds the diagram in a `mermaid` fence, or `ER図なし` under the ER heading |
| MarkdownExport.DownloadChoice | src/utils/markdownExport.ts:425-439 | the data-model renderer is used exactly for data-model documents; the file name starts with the document's name and ends `_data-model.md` or `_screen-design.md` exactly for those two types |
| MarkdownExport.DocumentDownload | src/utils/markdownExport.ts:425-451 | the download is the chosen renderer's output under the chosen file name, failing only when a screen rendering's sheet does not convert |
| MarkdownExport.ProjectFileName | src/utils/markdownExport.ts:403 | the project file is named by the project and ends `_project-design.md` |
| MarkdownExport.OfType | src/utils/markdownExport.ts:261-264 | a type group holds exactly the documents of that type |
| MarkdownExport.Untyped | src/utils/markdownExport.ts:261-264 | the untyped documents are exactly those without a type |
| MarkdownExport.ScreenSection | src/utils/markdownExport.ts:266-305 | the screen section is absent without screen documents and otherwise opens with its heading and count |
| MarkdownExport.ModelSection | src/utils/markdownExport.ts:306-355 | the data-model section is empty exactly when there is no data-model document, and otherwise opens with its heading and count |
| MarkdownExport.PlannedSection | src/utils/markdownExport.ts:356-377 | an API or database section is empty exactly when it has no document, and otherwise opens with its heading and count |
| MarkdownExport.CountLine | src/utils/markdownExport.ts:384-387 | a per-type count line is written exactly when the count is not zero |
| MarkdownExport.Footer | src/utils/markdownExport.ts:379-387 | the footer states the total over all documents |
| MarkdownExport.ProjectMarkdown | src/utils/markdownExport.ts:244-390 | the project document succeeds exactly when its screen section does, and states the total |
| MarkdownExport.RenderScreenDocs | src/utils/markdownExport.ts:270-304 | the screen loop appends one entry per screen document |
| MarkdownExport.RenderModelDocs | src/utils/markdownExport.ts:310-354 | the data-model loop appends one entry per data-model document |
| MarkdownExport.RenderPlannedDocs | src/utils/markdownExport.ts:360-376 | the API and database loops append one entry per document |
| MarkdownExport.RenderScreenSection | src/utils/markdownExport.ts:266-305 | the screen section method builds the screen section |
| MarkdownExport.RenderModelSection | src/utils/markdownExport.ts:306-355 | the data-model section method builds the data-model section |
| MarkdownExport.RenderPlannedSection | src/utils/markdownExport.ts:356-377 | the planned section method builds the API or database section |
| MarkdownExport.ConvertProjectToMarkdown | src/utils/markdownExport.ts:244-390 | the converter writes the overview, each non-empty type section in fixed order and the footer, as the project document defines |
| MarkdownExport.GroupCountsStep | src/utils/markdownExport.ts:261-264 | each document adds one to the count of its own group and nothing to the others |
| MarkdownExport.OfTypeNone | src/utils/markdownExport.ts:261-264 | a type no document has gets an empty group |
| MarkdownExport.TypeGroupsPartition | src/utils/markdownExport.ts:261-383 | the four type groups and the untyped documents together count every document once |
| MarkdownExport.UntypedDocumentsOnlyCounted | src/utils/markdownExport.ts:261-383 | a document without a type appears in no section, yet the footer total counts it, so the section counts add up to less than the total |
| ZipExport.ReplaceForbiddenSpec | src/utils/zipExport.ts:271 | the first replacement keeps the length and every allowed character, and turns each forbidden character (angle brackets, colon, double quote, both slashes, vertical bar, question mark, asterisk) into `_` |
| ZipExport.CollapseSpacesSpec | src/utils/zipExport.ts:272 | collapsing whitespace runs never lengthens the name, leaves no whitespace and brings in no character but `_` |
| ZipExport.SanitizedIsSafe | src/utils/zipExport.ts:269-274 | a sanitised stem is at most 100 characters long and holds no forbidden character and no whitespace |
| ZipExport.CollapseRun | src/utils/zipExport.ts:272 | a whole run of whitespace becomes exactly one `_` |
| ZipExport.SanitizeKeepsSafeNames | src/utils/zipExport.ts:269-274 | a name that is already a safe stem is its own sanitised form |
| ZipExport.SanitizeIdempotent | src/utils/zipExport.ts:269-274 | sanitising a sanitised name changes nothing |
| ZipExport.SanitizeCollides | src/utils/zipExport.ts:269-274 | sanitising is not injective: `a b` and `a:b` share the stem `a_b` |
| ZipExport.FileKindsDistinct | src/utils/zipExport.ts:44-51 | a mock-up file and an AI-image file never share a name |
| ZipExport.AiImagesSpec | src/utils/zipExport.ts:19-24 | the AI image map holds exactly the ids of documents with an AI image, each with the image of the last such document |
| ZipExport.AiImageCount | src/utils/zipExport.ts:19-24 | with unique document ids the map has one entry per document with an AI image |
| ZipExport.ImageFilesSpec | src/utils/zipExport.ts:41-55 | every document of any type with a mock-up or an AI image has its file in the image folder, and the folder holds no other file |
| ZipExport.LastMockupWins | src/utils/zipExport.ts:43-46 | a mock-up file holds the upload of the last document whose name sanitises to the same stem |
| ZipExport.MockupCollision | src/utils/zipExport.ts:43-274 | documents named `a b` and `a:b`, both with a mock-up, leave one file holding the second upload |
| ZipExport.BuildAiImageMap | src/utils/zipExport.ts:19-24 | the loop builds exactly the specified AI image map |
| ZipExport.AddImageFiles | src/utils/zipExport.ts:38-55 | the loop writes exactly the specified image folder |
| ZipExport.ImagePartShape | src/utils/zipExport.ts:120-140 | the image part links the upload exactly when there is one, the AI image exactly when the map holds one for the document's id, and says `画像なし` exactly when there is neither |
| ZipExport.ScreenEntriesRaisedPersists | src/utils/zipExport.ts:103-151 | once a table cannot be converted the later documents are never reached |
| ZipExport.ScreenEntryShowsImages | src/utils/zipExport.ts:103-151 | a screen entry holds its document's image part |
| ZipExport.ZipDiagramIsPrefix | src/utils/zipExport.ts:162-167 | the ZIP diagram part is the start of the plain export's, which adds the entity list after the fence |
| ZipExport.ScreenSection | src/utils/zipExport.ts:100-152 | no screen document gives no section; otherwise the section opens with its heading and count |
| ZipExport.ModelSection | src/utils/zipExport.ts:155-179 | the data-model section is empty exactly when there is no data-model document, and otherwise opens with its heading and count |
| ZipExport.ImageCountLines | src/utils/zipExport.ts:190-195 | the image counts appear exactly when there is at least one image |
| ZipExport.Footer | src/utils/zipExport.ts:182-195 | the export information holds the total document count |
| ZipExport.MarkdownWithImageRefs | src/utils/zipExport.ts:78-198 | the Markdown is produced exactly when every screen table converts, and then holds the total count |
| ZipExport.OnlyScreenAndModelSections | src/utils/zipExport.ts:96-97 | documents of the API and database types get no section: without screen and data-model documents the Markdown is the overview followed by the footer |
| ZipExport.RenderScreenEntry | src/utils/zipExport.ts:104-264 | one screen entry, with the table converter run on the first sheet, is the specified entry |
| ZipExport.RenderScreenDocs | src/utils/zipExport.ts:103-151 | the loop over the screen documents gives the specified entries |
| ZipExport.RenderModelDocs | src/utils/zipExport.ts:158-178 | the loop over the data-model documents gives the specified entries |
| ZipExport.RenderScreenSection | src/utils/zipExport.ts:100-152 | the screen section is the specified one |
| ZipExport.RenderModelSection | src/utils/zipExport.ts:155-179 | the data-model section is the specified one |
| ZipExport.GenerateMarkdownWithImageRefs | src/utils/zipExport.ts:78-198 | the generator's appends give the specified Markdown |
| ZipExport.OwnAiImage | src/utils/zipExport.ts:19-130 | with unique document ids, an entry links an AI image exactly when the document itself has one |
| ZipExport.LinkedImagesExist | src/utils/zipExport.ts:41-135 | with unique document ids, every image an entry links is a file of the image folder |
| ZipExport.ImageCountsIffImages | src/utils/zipExport.ts:190-195 | the footer counts images exactly when some document has an upload or an AI image |
| ZipExport.NoAiImages | src/utils/zipExport.ts:19-24 | without any AI image the map stays empty |
| ZipExport.ZipFileName | src/utils/zipExport.ts:64 | the archive is named after the project and ends in `_設計書.zip` |
| ZipExport.ProjectArchive | src/utils/zipExport.ts:8-73 | the archive exists exactly when the Markdown is produced; it then holds the Markdown under the project's name and the specified image folder |
| ZipExport.DownloadProjectAsZip | src/utils/zipExport.ts:8-73 | the map, the Markdown and the images, in the order the archive is filled, give the specified archive |
| CommonChat.StatsOf | src/components/Common/ChatPanel.tsx:118-137 | a text's statistics: its length, content exactly when non-empty, and a preview that is a prefix of at most 100 characters, the whole text when short |
| CommonChat.SheetName | src/components/Common/ChatPanel.tsx:115 | the sheet name is never empty: the first sheet's own name when it has one, a stand-in otherwise |
| CommonChat.AnalyzeCurrentData | src/components/Common/ChatPanel.tsx:111-143 | the analysis counts the first sheet's cells, has data exactly when there is a cell, samples the first five cells at most, and reports an image exactly when there is a mock-up |
| CommonChat.Completeness | src/components/Common/ChatPanel.tsx:180-185 | completeness is a multiple of 25 up to 100, is 100 exactly when all four parts are filled and 0 exactly when none is |
| CommonChat.CellOrderIsPreorder | src/components/Common/ChatPanel.tsx:192-195 | the row-then-column comparison is a total preorder, so the sort is well defined |
| CommonChat.ShiftDown | src/components/Common/ChatPanel.tsx:192-195 | one insertion step's shifting loop moves the following cells that must come first one place down and leaves the rest in place |
| CommonChat.InsertBack | src/components/Common/ChatPanel.tsx:192-195 | one insertion step puts a cell into the sorted run after it, leaving the cells before it alone |
| CommonChat.SortCells | src/components/Common/ChatPanel.tsx:192-195 | the sheet's own cell list is sorted in place into the stable row-then-column order of the sort function |
| CommonChat.CharFromCode | src/components/Common/ChatPanel.tsx:200 | a character code below the surrogate range gives the character with that code |
| CommonChat.ColumnPastZIsNotALetter | src/components/Common/ChatPanel.tsx:200 | as written, the 27th column's reference starts with `[`, not a column letter |
| CommonChat.ColumnName | src/components/Common/ChatPanel.tsx:200-299 | a column name is a non-empty run of capital letters, one letter exactly for the first 26 columns, ending in the column's letter modulo 26 |
| CommonChat.ColumnNameInjective | src/components/Common/ChatPanel.tsx:200-299 | different columns get different names |
| CommonChat.ColumnNameExamples | src/components/Common/ChatPanel.tsx:200-299 | the first 26 columns keep the single letter the panel writes, and columns 27, 28, 702 and 703 are AA, AB, ZZ and AAA |
| CommonChat.CellRef | src/components/Common/ChatPanel.tsx:200-299 | the corrected reference agrees with the written one on the first 26 columns |
| CommonChat.CellRefInjective | src/components/Common/ChatPanel.tsx:200-299 | with the corrected reference, cells at different non-negative places get different references |
| CommonChat.ShownAreFirst | src/components/Common/ChatPanel.tsx:192-206 | the listed cells are sorted, as many as the limit allows, all cells of the sheet, all of them when they fit, and each comes before every cell left out |
| CommonChat.ListCells | src/components/Common/ChatPanel.tsx:189-310 | the listing sorts the sheet's own cell list in place and writes the head, one line per listed cell and the count of the rest |
| CommonChat.ListSorted | src/components/Common/ChatPanel.tsx:197-206 | the listing of sorted cells is the head, one line for each of the first `limit` cells, and a note counting the rest |
| CommonChat.GridHolds | src/components/Common/ChatPanel.tsx:247-254 | the collected rows hold a place exactly when a cell is there, with the value of the last cell written there |
| CommonChat.CollectRows | src/components/Common/ChatPanel.tsx:247-254 | the loop over the cells builds exactly the collected rows |
| CommonChat.AscendingDistinct | src/components/Common/ChatPanel.tsx:256 | the row numbers are listed in increasing order, each once, no more of them than cells |
| CommonChat.ShownRows | src/components/Common/ChatPanel.tsx:256 | the shown rows are the lowest row numbers with a cell, increasing, at most ten, and any row left out is above ten shown ones |
| CommonChat.ColumnsIn | src/components/Common/ChatPanel.tsx:260 | a row's column list holds exactly the columns its cells use |
| CommonChat.Width | src/components/Common/ChatPanel.tsx:260-262 | a row shows at most six columns, up to one its cells use, and covers every used column below the sixth |
| CommonChat.PadEnd | src/components/Common/ChatPanel.tsx:263 | padding keeps the text and fills it with spaces up to the width, never shortening it |
| CommonChat.RowCellsAligned | src/components/Common/ChatPanel.tsx:262-264 | with values of at most 15 characters, column k starts at character 17k and is followed by the separator at 17k+15 |
| CommonChat.RangeAsWrittenCountsFromZero | src/components/Common/ChatPanel.tsx:273 | as written, a sheet with one cell in A1 is reported as one row by zero columns; the corrected range says one by one |
| CommonChat.ExtentCoversShownRows | src/components/Common/ChatPanel.tsx:273 | the corrected column figure exceeds every column used in a shown row and is one past one of them |
| CommonChat.RowText | src/components/Common/ChatPanel.tsx:261-264 | the loop over a row's columns builds exactly that row's padded cells |
| CommonChat.DescribeRows | src/components/Common/ChatPanel.tsx:242-276 | the table and the range are built row by row, column by column, as the table and range functions define |
| CommonChat.TopicsIgnoreCase | src/components/Common/ChatPanel.tsx:147-349 | no keyword has an ASCII letter, so lower-casing the message changes no answer |
| CommonChat.SheetFeaturesOnlyForTable | src/components/Common/ChatPanel.tsx:242-345 | the sheet-features answer never fires because of スプレッドシート, which an earlier arm catches: it goes only to messages with 表 and without that word |
| CommonChat.TopicOrder | src/components/Common/ChatPanel.tsx:220-361 | a keyword arm answers when it fires and no earlier arm does, and the default answers when none fires |
| CommonChat.SuggestedOverview | src/components/Common/ChatPanel.tsx:46-220 | the suggested question about the current data gets the overview answer |
| CommonChat.SheetDetailWhenSheetFirst | src/components/Common/ChatPanel.tsx:242 | a message opening with スプレッドシート that has none of the overview words' first characters gets the spreadsheet answer |
| CommonChat.SuggestedSheetDetail | src/components/Common/ChatPanel.tsx:47-242 | the suggested spreadsheet question gets the spreadsheet answer |
| CommonChat.NoCommand | src/components/Common/ChatPanel.tsx:151-215 | a message not starting with a slash is no command |
| CommonChat.ConditionsWhenFirst | src/components/Common/ChatPanel.tsx:313 | a message opening with 表示条件 that has no character of an earlier arm's words gets the conditions answer |
| CommonChat.SuggestedConditions | src/components/Common/ChatPanel.tsx:48-313 | the suggested conditions question gets the conditions answer |
| CommonChat.SuggestedCommands | src/components/Common/ChatPanel.tsx:49-215 | the three command buttons get the status, help and write answers |
| CommonChat.OnlyWriteAnswerWrites | src/components/Common/ChatPanel.tsx:146-361 | of all answers only the history write changes the document |
| CommonChat.WriteOnlyByCommand | src/components/Common/ChatPanel.tsx:215-217 | the history is written exactly for the `/write` command, never for a keyword |
| CommonChat.OnlyWriteChangesConditions | src/components/Common/ChatPanel.tsx:55-217 | the display conditions change exactly for `/write`, becoming the old field with the history of the earlier conversation written under the heading |
| CommonChat.GetDummyResponse | src/components/Common/ChatPanel.tsx:146-361 | the reply is the routed answer, and the sheet's cell list ends up sorted exactly for the two listing answers |
| CommonChat.CommonPanel.constructor | src/components/Common/ChatPanel.tsx:33-41 | the panel starts with the greeting alone and an empty input |
| CommonChat.CommonPanel.Ask | src/components/Common/ChatPanel.tsx:366-414 | asking appends the user's message, whatever was posted meanwhile and the answer computed from the conversation before the question, and clears the input |
| CommonChat.CommonPanel.HandleSendMessage | src/components/Common/ChatPanel.tsx:363-388 | a blank input changes nothing; otherwise the input is asked and cleared |
| CommonChat.CommonPanel.HandleQuestionClick | src/components/Common/ChatPanel.tsx:391-416 | the question goes into the input; a blank one stays there and changes nothing else, any other is asked, the input cleared and the sheet's cells sorted in place exactly when the question asks for the sheet listing |
| ChatShared.Recent | src/components/Chat/ScreenChatPanel.tsx:217 | the history takes the last six messages, or all of them when there are fewer |
| ChatShared.SnippetShape | src/components/Chat/ScreenChatPanel.tsx:222 | a message of at most 100 characters is quoted whole; a longer one by its first 100 characters and an ellipsis |
| ChatShared.HistoryEndsWithLatest | src/components/Chat/ScreenChatPanel.tsx:218-226 | the history ends with the newest message's line, when there is one, and the closing rule |
| ChatShared.WrittenAddsSection | src/components/Chat/ScreenChatPanel.tsx:209-234 | a field without the heading gets the heading once, followed by the history |
| ChatShared.WrittenAppends | src/components/Chat/ScreenChatPanel.tsx:229-232 | a field with exactly one heading is kept whole and the history is appended after it |
| ChatShared.WrittenLosesAfterSecondHeading | src/components/Chat/ScreenChatPanel.tsx:229-232 | with a second heading, everything from the second heading on is dropped by the write |
| ChatShared.WrittenHasHeading | src/components/Chat/ScreenChatPanel.tsx:209-234 | after any write the field contains the heading |
| ChatShared.AppendLines | src/components/Chat/ScreenChatPanel.tsx:220-224 | the loop appends exactly one line per message, in order, to the heading |
| ChatShared.WriteToMarkdown | src/components/Chat/ScreenChatPanel.tsx:201-245 | the written field is the old field with the history of the latest messages added, and the reported count is that history's length, at most six |
| ChatShared.SettledShape | src/components/Chat/ScreenChatPanel.tsx:653-662 | after the reply arrives no placeholder remains, the reply is last, and every other message is still there |
| ChatShared.SettledTurn | src/components/Chat/ScreenChatPanel.tsx:627-675 | one turn turns the list into the earlier messages, the user's message, whatever was posted meanwhile, and the reply |
| ChatShared.SendTurn | src/components/Chat/ScreenChatPanel.tsx:627-675 | performed one append at a time, a turn leaves the earlier messages, the user's message, what was posted meanwhile and the reply, with no placeholder |
| ChatShared.IdAt | src/components/Chat/ScreenChatPanel.tsx:632 | a message id made from the clock is never the placeholder's id |
| ChatShared.ReplyId | src/components/Chat/ScreenChatPanel.tsx:656 | the reply's id, the clock plus one, is never the placeholder's id |
| ChatShared.UserAndReplyIdsDiffer | src/components/Chat/ScreenChatPanel.tsx:632-656 | the user's message and the reply created at the same clock time have different ids |
| ChatShared.ChangeLines | src/components/Chat/ModelChatPanel.tsx:185 | the applied-message lists one line per proposed change, in order, each naming the change's target, action and reason |
| ScreenChat.ClassifiersIgnoreCase | src/components/Chat/ScreenChatPanel.tsx:251-271 | both classifiers lower-case first, so a message and its lower case are classified alike |
| ScreenChat.ShortWordsMatchInsideWords | src/components/Chat/ScreenChatPanel.tsx:251-260 | the two-letter keywords match inside unrelated English words: "record" and "build" count as screen-design requests |
| ScreenChat.CapitalsMatch | src/components/Chat/ScreenChatPanel.tsx:251-260 | capital letters count: "UI" and "CRUD" are screen-design requests |
| ScreenChat.ExistingDataIff | src/components/Chat/ScreenChatPanel.tsx:402-410 | existing data means non-blank conditions, a first sheet with a cell, a non-blank supplement or a non-empty mock-up, and nothing else |
| ScreenChat.SheetCoversCells | src/components/Chat/ScreenChatPanel.tsx:114-176 | for a non-empty cell list the generated sheet's row and column counts are one past the largest indices, so every cell lies inside and the last row and column are used; for an empty list both are minus infinity |
| ScreenChat.CallsByBranch | src/components/Chat/ScreenChatPanel.tsx:109-198 | the callbacks a draft fires are the ones its branches select |
| ScreenChat.DraftTypeSelectsCallbacks | src/components/Chat/ScreenChatPanel.tsx:113-187 | an unknown draft type fires nothing; a sheet is installed exactly for a spreadsheet or mixed draft with cells; the conditions or supplement are set exactly for their own or a mixed draft with non-empty text, and to that text |
| ScreenChat.DraftCallsCarryDraft | src/components/Chat/ScreenChatPanel.tsx:109-198 | each callback fires at most once, a sheet carries the draft's cells under its branch's id, the backup manager is never opened, and the summary opens with the fixed head |
| ScreenChat.ModelContextNonEmpty | src/components/Chat/ScreenChatPanel.tsx:354-388 | a referenced data-model document adds context exactly when its diagram yields entities or it has a supplement |
| ScreenChat.OtherMentionsChangeNothing | src/components/Chat/ScreenChatPanel.tsx:343-396 | mentions that resolve to no data-model document change neither the message nor the context |
| ScreenChat.ContextIffContributingModel | src/components/Chat/ScreenChatPanel.tsx:343-431 | the panel has a model reference exactly when some mention resolves to a data-model document that contributes context |
| ScreenChat.EmptyModelReplacedWithoutContext | src/components/Chat/ScreenChatPanel.tsx:350-395 | a data-model document with no entities and no supplement still has its mention replaced yet adds no context |
| ScreenChat.ModelContextText | src/components/Chat/ScreenChatPanel.tsx:354-388 | the context block built line by line is the specified one for the document |
| ScreenChat.ProcessDataModelReference | src/components/Chat/ScreenChatPanel.tsx:338-399 | for each mention in order, a data-model document it resolves to adds its context and replaces the first occurrence of the mention in the message |
| ScreenChat.ProjectRef | src/components/Chat/ScreenChatPanel.tsx:509-611 | the project reference is never empty: the current project id, or `default` when there is none |
| ScreenChat.DispatchOrder | src/components/Chat/ScreenChatPanel.tsx:450-619 | each handler runs exactly when its own test holds and no earlier one does: modification, /write, /backup, model-driven draft, screen design, chat; the guard against modifications on the screen branch never matters |
| ScreenChat.ExistingDataNotOverwritten | src/components/Chat/ScreenChatPanel.tsx:525-569 | without model context existing data is never overwritten: the only callbacks are the backup manager and the history write, which keeps the conditions text before the history |
| ScreenChat.ModelReferenceOverwrites | src/components/Chat/ScreenChatPanel.tsx:496-522 | a screen request with model context generates even over existing data, without offering a choice |
| ScreenChat.ExistingDataOffersChoice | src/components/Chat/ScreenChatPanel.tsx:529-569 | a screen request without model context over existing data only posts one selection message carrying the request, whatever the services answer |
| ScreenChat.AnswerPostsReplies | src/components/Chat/ScreenChatPanel.tsx:456-569 | every message a handler posts is a reply-side message, never a placeholder |
| ScreenChat.PostedAreReplies | src/components/Chat/ScreenChatPanel.tsx:413-625 | every message posted while answering is a reply-side message, never a placeholder |
| ScreenChat.GetAIResponse | src/components/Chat/ScreenChatPanel.tsx:413-625 | mentions resolved, request classified and handler run step by step give the specified reply |
| ScreenChat.Dispatch | src/components/Chat/ScreenChatPanel.tsx:450-619 | the handlers tried in order give the answer the routing specifies |
| ScreenChat.ScreenPanel.constructor | src/components/Chat/ScreenChatPanel.tsx:50-58 | the conversation starts with the greeting alone |
| ScreenChat.ScreenPanel.HandleSendMessage | src/components/Chat/ScreenChatPanel.tsx:627-675 | the user's message and a placeholder are appended, the answer is computed from the messages before the send, and every placeholder is replaced by the one reply after whatever was posted meanwhile |
| ScreenChat.ScreenPanel.ShowPending | src/components/Chat/ScreenChatPanel.tsx:637-646 | the user's message and then the placeholder are appended to the messages |
| ScreenChat.ScreenPanel.FinishTurn | src/components/Chat/ScreenChatPanel.tsx:653-663 | the answer's messages are appended and the placeholder replaced by the reply, keeping the history before it |
| ScreenChat.ReceivedConcat | src/components/Chat/ScreenChatPanel.tsx:287-297 | running two lists of callbacks in turn is running their concatenation |
| ScreenChat.ChangedFieldsSync | src/components/Chat/ScreenChatPanel.tsx:287-297 | a callback fires exactly for a changed field among the conditions, the supplement and the sheets, with the new value, and running them brings the parent to the updated document |
| ScreenChat.SyncCalls | src/components/Chat/ScreenChatPanel.tsx:287-297 | the callbacks of an applied proposal are exactly those of the changed fields, conditions, supplement and sheets in that order |
| ScreenChat.WriteHandler | src/components/Chat/ScreenChatPanel.tsx:201-246 | `/write` writes the recent history into the conditions and reports the count, as the write turn specifies |
| ScreenChat.ProposalOutcome | src/components/Chat/ScreenChatPanel.tsx:285-321 | a proposal that fails to apply changes nothing and is reported as rejected; one that applies is reported as applied and brings the parent's three fields to the updated document's |
| ScreenChat.MermaidChangesKeepFields | src/services/modificationService.ts:292-295 | changes that all target the Mermaid code leave the conditions, supplement and sheets as they were, and report no error exactly when none of them stores a value that is not a string into the text the changes before it left |
| ScreenChat.MermaidProposalIsLost | src/components/Chat/ScreenChatPanel.tsx:276-297 | a proposal that only edits the Mermaid code fires no callback; it is reported as applied, its edit so lost, exactly when no change stores a value that is not a string into the panel's empty Mermaid text, and otherwise as rejected |
| ScreenChat.ReplaceAllIsTheNewDraft | src/components/Chat/ScreenChatPanel.tsx:571-722 | choosing to replace everything fires exactly the callbacks the same request fires as a new draft over an empty document |
| ScreenChat.ActionOutcomes | src/components/Chat/ScreenChatPanel.tsx:695-760 | every option posts at most one non-placeholder message with the clock's id; only replacing fires callbacks; an unknown option does nothing; adding or modifying shows the proposal |
| ScreenChat.ScreenPanel.HandleModificationProposal | src/components/Chat/ScreenChatPanel.tsx:274-334 | the document is backed up under the proposal's id and pruned to the ten newest backups; the proposal is applied to the current data, a Mermaid change that stores a non-string value counting as a failure, the changed fields are handed to the parent on success and the outcome is reported in one message |
| ScreenChat.ScreenPanel.HandleRejectProposal | src/components/Chat/ScreenChatPanel.tsx:683-692 | one rejected message is appended and the document is left alone |
| ScreenChat.ScreenPanel.HandleActionSelect | src/components/Chat/ScreenChatPanel.tsx:695-760 | the chosen option's message is appended and its callbacks returned, as the option specifies |
| ModelChat.ModificationWidensScreenTest | src/components/Chat/ModelChatPanel.tsx:142-152 | the data-model modification test holds exactly when the lower-cased message names one of the general modification phrases or one of the four model phrases |
| ModelChat.CaseIsIrrelevant | src/components/Chat/ModelChatPanel.tsx:136-152 | no phrase of either test holds an ASCII letter, so lower-casing changes neither the modification nor the generation answer |
| ModelChat.CurrentData | src/components/Chat/ModelChatPanel.tsx:157-228 | the data both handlers build carries the supplement and the Mermaid code and leaves the conditions, sheets and mock-up empty |
| ModelChat.IsEmptyIffShort | src/components/Chat/ModelChatPanel.tsx:131-133 | the document counts as empty exactly when its trimmed Mermaid code is shorter than ten characters |
| ModelChat.ExtractDiagramSpec | src/components/Chat/ModelChatPanel.tsx:320-324 | a diagram is found exactly when the reply says erDiagram in some case; the diagram starts with it and has no surrounding whitespace, and one taken from a fence holds no fence |
| ModelChat.FencedDiagram | src/components/Chat/ModelChatPanel.tsx:320 | when the reply holds a fenced block the diagram is the trimmed body of the first such block |
| ModelChat.UnfencedDiagram | src/components/Chat/ModelChatPanel.tsx:321 | without a fenced block the diagram is the trimmed rest of the reply from its first erDiagram |
| ModelChat.PanelAndServerAgree | src/components/Chat/ModelChatPanel.tsx:320-321 | the panel finds a diagram in exactly the replies in which the server's extraction finds a non-empty one |
| ModelChat.DispatchOrder | src/components/Chat/ModelChatPanel.tsx:239-335 | each handler of the reply runs exactly when its own test holds and no earlier one does: modification, then /write, then /backup, then generation, then the plain chat |
| ModelChat.ModelWordMeansProposal | src/components/Chat/ModelChatPanel.tsx:148-257 | a message naming a table, relation, field or attribute is answered with a proposal, even when it also asks to generate |
| ModelChat.MakeTableIsModification | src/components/Chat/ModelChatPanel.tsx:137-257 | a request to make a table is both a generation and a modification request and is handled as a modification |
| ModelChat.DiagramOnlyFromReply | src/components/Chat/ModelChatPanel.tsx:278-330 | the Mermaid code is replaced only by a generation whose reply holds a diagram, and then by code starting with erDiagram; nothing else in the document changes |
| ModelChat.GenerationReportsOutcome | src/components/Chat/ModelChatPanel.tsx:318-330 | a generation replies with the success text exactly when the reply held a diagram and then sets the code to it; otherwise it replies with the failure text and calls nothing |
| ModelChat.AnswerPostsReplies | src/components/Chat/ModelChatPanel.tsx:244-255 | every message a handler posts is a reply-side message |
| ModelChat.GetAIResponse | src/components/Chat/ModelChatPanel.tsx:221-341 | the reply computed step by step is the one the specification gives for the message |
| ModelChat.Dispatch | src/components/Chat/ModelChatPanel.tsx:239-335 | the handlers tried in order give the answer the routing specifies |
| ModelChat.ChangedFieldsSync | src/components/Chat/ModelChatPanel.tsx:168-180 | a callback fires exactly for a field whose value changed, with the new value, and running the callbacks brings the parent to the updated document |
| ModelChat.SyncCalls | src/components/Chat/ModelChatPanel.tsx:168-180 | the callbacks of an applied proposal are exactly those of the changed fields, in the panel's order |
| ModelChat.WriteHandler | src/components/Chat/ModelChatPanel.tsx:82-127 | `/write` writes the recent history into the supplement and reports the count, as the write turn specifies |
| ModelChat.ProposalOutcome | src/components/Chat/ModelChatPanel.tsx:166-205 | a proposal that fails to apply, a Mermaid change storing a non-string value included, changes nothing in the parent and is reported as rejected; one that applies is reported as applied and brings the parent's supplement and Mermaid text to the updated document's, the Mermaid slot then holding text |
| ModelChat.ModelPanel.constructor | src/components/Chat/ModelChatPanel.tsx:42-50 | the conversation starts with the greeting alone |
| ModelChat.ModelPanel.HandleSendMessage | src/components/Chat/ModelChatPanel.tsx:344-394 | the user's message and a placeholder are appended, the answer is computed from the messages before the send, and the placeholder is replaced by the reply after whatever was posted meanwhile |
| ModelChat.ModelPanel.HandleModificationProposal | src/components/Chat/ModelChatPanel.tsx:155-218 | the document is backed up under the proposal's id and pruned to the ten newest backups; the proposal is applied to the current data, a Mermaid change that stores a non-string value counting as a failure, the changed fields are handed to the parent on success and the outcome is reported in one message |
| ModelChat.ModelPanel.HandleRejectProposal | src/components/Chat/ModelChatPanel.tsx:400-408 | one rejected message is appended and the document is left alone |
| DraftTools.Str | mcp-server/src/mdai_mcp_server/tools/design_draft_generator.py:68-99 | a service exception is reported by its own message |
| DraftTools.OrDefault | mcp-server/src/mdai_mcp_server/tools/design_draft_generator.py:95-148 | `x or default` keeps a non-empty value and replaces an absent or empty one by the default |
| DraftTools.ContextOrEmpty | mcp-server/src/mdai_mcp_server/tools/design_draft_generator.py:44-134 | a given context is passed on as it is, an absent one as an empty dict |
| DraftTools.IndexFailure | mcp-server/src/mdai_mcp_server/tools/design_draft_generator.py:50-52 | indexing a value by a key fails exactly when the value is not a dict holding the key |
| DraftTools.LogFailure | mcp-server/src/mdai_mcp_server/tools/design_draft_generator.py:49-57 | the success log lines can only pass when the result is a dict with `metadata` |
| DraftTools.GenerateDesignDraft | mcp-server/src/mdai_mcp_server/tools/design_draft_generator.py:16-103 | a draft comes only from a present service; the error envelope has one row and mode `error` |
| DraftTools.DraftOutcomes | mcp-server/src/mdai_mcp_server/tools/design_draft_generator.py:40-103 | the tool never raises: it returns the service's result untouched exactly when the service answered and the log lines could read it, and otherwise the error envelope carrying the error text and the target type or `unknown` |
| DraftTools.DraftReportsServiceMessage | mcp-server/src/mdai_mcp_server/tools/design_draft_generator.py:61-101 | a service exception's message is what the envelope's row and metadata report |
| DraftTools.DraftWithoutModeFails | mcp-server/src/mdai_mcp_server/tools/design_draft_generator.py:50 | an answer without `metadata.mode` is turned into an error by the log line that reads it |
| DraftTools.DraftNoneContextIsEmptyDict | mcp-server/src/mdai_mcp_server/tools/design_draft_generator.py:44 | an absent context and an empty one give the same result |
| DraftTools.DraftAsShipped | mcp-server/src/mdai_mcp_server/tools/design_draft_generator.py:42-47 | the shipped service has no `generate_design_draft`, so every call returns the error envelope |
| DraftTools.GenerateChatResponse | mcp-server/src/mdai_mcp_server/tools/design_draft_generator.py:106-190 | the metadata names the document type, `general` by default, and the message used |
| DraftTools.ChatOutcomes | mcp-server/src/mdai_mcp_server/tools/design_draft_generator.py:130-190 | a chat call succeeds, passing the service's response on with mode `chat_response`, exactly when the service answered with a value that has a length; any failure still carries an apology with mode `error` and the error text |
| DraftTools.ChatNoneContextIsEmptyDict | mcp-server/src/mdai_mcp_server/tools/design_draft_generator.py:134 | an absent context and an empty one give the same chat result |
| DraftTools.ChatAsShipped | mcp-server/src/mdai_mcp_server/tools/design_draft_generator.py:132-137 | the shipped service has no `generate_chat_response`, so every call is an apology with mode `error` |
| Modification.MaxRow | src/services/modificationService.ts:406-408 | the largest row index among the sheet's cells: no cell lies below it and some cell is on it |
| Modification.SpreadsheetAddAppendsBelow | src/services/modificationService.ts:394-423 | a spreadsheet add appends one draft cell in column 0 below every existing cell and grows the row count to cover it |
| Modification.SpreadsheetOtherActionsAddNothing | src/services/modificationService.ts:394-404 | other spreadsheet actions only supply the missing sheet |
| Modification.SpreadsheetEdit | src/services/modificationService.ts:390-424 | the sheet list keeps its length, with one sheet created when there was none; only an add changes anything, and only in the first sheet |
| Modification.ApplyChange | src/services/modificationService.ts:280-300 | an unknown target raises the unknown-target message and changes nothing; the other targets edit only the field they name, and only a Mermaid change can raise, with one of its TypeErrors; on Mermaid text the change stores its edit and raises the `substring` TypeError of the log line exactly when the stored value is not a string, which then stays in the copy |
| Modification.ListTargetIsUnknown | src/services/modificationService.ts:280-298 | a target given as a one-element array holding `conditions` prints as `conditions` but matches no case, so it raises and the proposal fails |
| Modification.ErrorsReportFailures | src/services/modificationService.ts:247-256 | every change with an unknown target has an error entry naming that target, and every error entry reports the failure of a change of the run: its unknown target or one of the Mermaid TypeErrors |
| Modification.NoErrorsIffClean | src/services/modificationService.ts:247-264 | a run reports no error exactly when every target is known and no Mermaid change stores a non-string value into the text the changes before it left; such a run leaves the Mermaid slot holding the text its changes build |
| Modification.CleanStep | src/services/modificationService.ts:247-258 | a run is clean exactly when its prefix is, its last target is known, and a last Mermaid change stores text into the text the prefix left |
| Modification.FailuresDoNotStopLaterChanges | src/services/modificationService.ts:247-256 | a change with an unknown target has no effect and stops nothing: the copy is what the known-target changes alone produce, with one more error entry per unknown target |
| Modification.ApplyOutcome | src/services/modificationService.ts:258-264 | success exactly when there is no error entry, which is exactly when the run is clean (known targets, no non-string Mermaid value stored); the updated document is always returned, and on success its Mermaid slot holds the text the changes build |
| Modification.MarkdownAddAppends | src/services/modificationService.ts:313-317 | a Markdown add keeps the text and appends the highlighted content after a blank line |
| Modification.MarkdownEdit | src/services/modificationService.ts:305-343 | an action other than the strings `add`, `modify` and `delete` leaves the text as it is; an add, and a modify that cannot locate its original, keep the text in front; a delete that cannot locate its original leaves the text as it is |
| Text.ReplaceFirst | src/services/modificationService.ts:323 | `replace` with a text pattern changes nothing when the pattern does not occur |
| Text.ReplaceFirstShape | src/services/modificationService.ts:323 | when the pattern occurs, exactly its first occurrence is replaced and the text before and after it is kept |
| Modification.MarkdownModifyShape | src/services/modificationService.ts:319-329 | a Markdown modify of located text rewrites only its first occurrence and keeps the text around it; otherwise the highlighted content is appended |
| Modification.MarkdownDeleteKeepsText | src/services/modificationService.ts:331-337 | a Markdown delete never loses text: located text stays, struck through; otherwise nothing changes |
| Modification.MarkdownUnknownActionKeeps | src/services/modificationService.ts:312-338 | any other Markdown action leaves the field as it is |
| Modification.MermaidAddShape | src/services/modificationService.ts:348-363 | a Mermaid add sets blank code to the raw new content, a string or not, and otherwise appends the new text after a blank line |
| Modification.MermaidDeleteShape | src/services/modificationService.ts:375-383 | a Mermaid delete cuts out exactly the first located occurrence and otherwise clears the code |
| Modification.MermaidEdit | src/services/modificationService.ts:344-389 | the value a Mermaid change stores into text is a string or truthy; an action other than the strings `add`, `modify` and `delete` leaves the code; an add to blank code and a modify that cannot locate its original store the raw new content, and every other case stores text |
| Modification.MermaidEditValue | src/services/modificationService.ts:344-385 | on a Mermaid slot that holds no text, an add raises the `trim` TypeError; a modify or delete with a falsy original stores the new content or the empty text; a truthy original raises the `includes` TypeError on a non-array and the `replace` TypeError when an array holds it; every stored value is text or truthy |
| Modification.MermaidStore | src/services/modificationService.ts:344-385 | on Mermaid text the change stores exactly its Mermaid edit, which is no text exactly when it stores a raw non-string new content; whatever it stores is text or truthy |
| Modification.RawSlotBlocksAdd | src/services/modificationService.ts:348-351 | a Mermaid add on a slot that holds no text raises the `trim` TypeError and changes nothing |
| Modification.NumberContentFails | src/services/modificationService.ts:247-295 | a Mermaid add of the number 5 to blank code stores 5, reports the `substring` TypeError as the one error entry, and fails the proposal |
| Modification.Draft.constructor | src/services/modificationService.ts:238 | the working copy starts equal to the current document |
| Modification.Draft.ApplyMarkdownChange | src/services/modificationService.ts:305-339 | only the named Markdown field changes, to its edited value |
| Modification.Draft.ApplyMermaidChange | src/services/modificationService.ts:344-385 | only the Mermaid slot changes, to the value the change stores from the slot's current value; when that raises a TypeError first, nothing changes and the error is returned |
| Modification.Draft.ApplySpreadsheetChange | src/services/modificationService.ts:390-424 | only the sheets change, to their edited value |
| Modification.Draft.ApplyIndividualChange | src/services/modificationService.ts:280-300 | the copy and the reported error are exactly one `ApplyChange` step: an unknown target is reported and changes nothing, and a Mermaid change that stores a non-string value keeps it and reports the `substring` TypeError |
| Modification.ApplyModificationProposal | src/services/modificationService.ts:231-275 | the document is backed up under the proposal's id and the backups pruned to the ten newest, and the changes applied in order give the specified outcome, Mermaid TypeErrors included |
| Modification.GenerateModificationProposal | src/services/modificationService.ts:17-56 | the document is backed up first and the backups pruned to the ten newest; the proposal carries the fresh id and the request, is parsed from the AI reply with every field kept as parsed, and is the fallback proposal when the AI call raises |
| Modification.CreateFallbackProposal | src/services/modificationService.ts:205-226 | the fallback is one add to the conditions, with confidence 0.1, whose content holds the user's request |
| Modification.LazyGroupEnd | src/services/modificationService.ts:169 | the lazy group of the JSON-block pattern stops at the first place where whitespace and a fence follow |
| Modification.GroupAfter | src/services/modificationService.ts:169 | the captured JSON text exists exactly when a fence follows; it holds no fence and does not start with whitespace |
| Modification.JsonBlockShape | src/services/modificationService.ts:169-172 | a block is found exactly when a json fence is followed later by a closing fence, and it holds no fence itself |
| Modification.Clamp | src/services/modificationService.ts:184 | the clamped confidence lies in [0, 1] and equals the input when that already does |
| Modification.ConfidenceOf | src/services/modificationService.ts:184 | every normalised confidence lies in [0, 1] or is NaN, and a falsy one becomes 0.5; a number is clamped, and numeric text, exponent and `0x` literals included, converts first to a double, out-of-range text to Infinity or 0 |
| Modification.NotationConfidenceConverts | src/services/modificationService.ts:184 | a confidence of `"1e-1"` becomes 0.1 and one of `"0x1"` becomes 1 |
| Modification.OutOfRangeConfidence | src/services/modificationService.ts:184 | a confidence text of `1e-400` becomes 0 and one of `1e400` becomes 1, the doubles they read as clamped |
| Json.ToNumber | src/services/modificationService.ts:184 | the coercion `Math.max` applies reads a number as itself, a boolean as 0 or 1, and undefined or an object as NaN; text and arrays go through the string reading |
| Json.UnpaddedIsTrim | src/services/modificationService.ts:184 | the string reading ignores exactly the surrounding JavaScript whitespace: stripping it one character at a time is trimming |
| Json.DigitStringReads | src/services/modificationService.ts:184 | a string of decimal digits reads as the double of the number it spells: that number within range, Infinity past it |
| Json.DecimalStringReads | src/services/modificationService.ts:184 | digits, a point and digits read as the double of the decimal fraction they spell |
| Json.PointEightReads | src/services/modificationService.ts:184 | the text `0.8` reads as 0.8 |
| Json.WordStringIsNaN | src/services/modificationService.ts:184 | the text `abc` reads as NaN |
| Json.ScientificReads | src/services/modificationService.ts:184 | a decimal mantissa followed by `e` or `E` and a signed exponent reads as the double of the mantissa scaled by that power of ten: Infinity past the double range and 0 below it |
| Json.OneTenthReads | src/services/modificationService.ts:184 | the text `1e-1` reads as 0.1 |
| Json.FiveHundredReads | src/services/modificationService.ts:184 | the text `5E2` reads as 500 |
| Json.TenReads | src/services/modificationService.ts:184 | the text `1e1` reads as 10 |
| Json.RadixLiteralReads | src/services/modificationService.ts:184 | `0x`, `0o` or `0b` followed by digits of that base reads as the double of their value in that base |
| Json.ToDouble | src/services/modificationService.ts:184 | a literal's exact value becomes an infinity of its sign exactly from the overflow threshold 2^1024 − 2^970 on, and otherwise stays itself except that a nonzero value becomes 0 exactly when it is at most 2^-1075 in size |
| Json.OverflowReads | src/services/modificationService.ts:184 | the text `1e400` reads as Infinity |
| Json.UnderflowReads | src/services/modificationService.ts:184 | the text `1e-400` reads as 0 |
| Json.PrefixedNotDecimal | src/services/modificationService.ts:184 | a text with a base prefix is no decimal literal |
| Json.SignedRadixIsNaN | src/services/modificationService.ts:184 | a minus sign before a base-prefixed literal makes the text NaN |
| Json.HexExamples | src/services/modificationService.ts:184 | the texts `0x1F` and `0x1` read as 31 and 1 |
| Modification.NormaliseChange | src/services/modificationService.ts:177-185 | a change element normalises exactly when it is not null or undefined, with a confidence in [0, 1] or NaN and a new content that is text or a truthy value kept as parsed |
| Modification.NormaliseChanges | src/services/modificationService.ts:177-185 | the changes array normalises exactly when no element is null or undefined, keeping length and order, each element normalised on its own |
| Modification.ParseModificationResponse | src/services/modificationService.ts:160-200 | the proposal keeps the id and request, every confidence lies in [0, 1] or is NaN, and it is the fallback when there is no JSON block or the block does not parse |
| Modification.ParsedChangesKeepOrder | src/services/modificationService.ts:177-185 | a parsed changes array keeps length and order; each target and new content is the parsed value itself when truthy, else `conditions` and the empty text, and a missing confidence becomes 0.5 |
| Modification.NewLines | src/services/modificationService.ts:475-483 | the new lines with the given AI marking are exactly the modified lines absent from the original with that marking |
| Modification.MissingLines | src/services/modificationService.ts:485-489 | the deletions are exactly the original lines absent from the modified text |
| Modification.DiffChangesIffLineSetsDiffer | src/services/modificationService.ts:457-497 | the diff reports a change exactly when the two texts do not have the same set of lines |
| Modification.CollectNewLines | src/services/modificationService.ts:475-483 | the first scan collects the specified additions and modifications |
| Modification.CollectMissingLines | src/services/modificationService.ts:485-489 | the second scan collects the specified deletions |
| Modification.CalculateMarkdownDiff | src/services/modificationService.ts:457-497 | the scans give the specified diff, labelled with its target, and equal texts report no change |
| Modification.CalculateDiff | src/services/modificationService.ts:429-452 | a diff is listed for the conditions and the supplement exactly when that field has changes, the conditions diff first, and nothing else is listed |
| Modification.KeepChanged | src/services/modificationService.ts:434-447 | a diff is pushed exactly when it has changes, the conditions diff before the supplement diff |
| DocRefs.ProjectDocumentsExactly | src/services/documentReferenceService.ts:54-58 | the project's references are exactly the references of the documents belonging to it, and all carry its id |
| DocRefs.ProjectDocuments | src/services/documentReferenceService.ts:54-58 | there is at most one reference per stored document, and every reference belongs to the project |
| DocRefs.DocumentsByType | src/services/documentReferenceService.ts:63-85 | the project's references of a type are exactly its references carrying that type |
| DocRefs.ReferenceBeforeIsPreorder | src/services/documentReferenceService.ts:241-246 | models first, then names in the locale order, is a total preorder whenever the name order is |
| DocRefs.ReferenceableExactlyOthers | src/services/documentReferenceService.ts:234-247 | the mentionable documents are exactly the project's documents other than the current one, and every data-model document comes before every other |
| DocRefs.ReferenceableDocuments | src/services/documentReferenceService.ts:234-247 | every mentionable document belongs to the project and is not the current document |
| DocRefs.Mentions | src/services/documentReferenceService.ts:252-262 | every mention found is a non-empty run without whitespace |
| DocRefs.AdjacentMentionsGlue | src/services/documentReferenceService.ts:253 | two mentions written back to back are one: `@a@b` mentions only `a@b` |
| DocRefs.MentionsOfMentionText | src/services/documentReferenceService.ts:252-262 | names written as `@name ` in a row are read back as exactly those names, in order |
| DocRefs.MentionAlias | src/services/documentReferenceService.ts:279-289 | the type aliases never name the database type |
| DocRefs.FindByMentionPrecedence | src/services/documentReferenceService.ts:267-304 | an exact name wins, then the aliased type, then containment either way; the result is a document of the project, and none exactly when nothing matches in any of the three ways |
| DocRefs.FindByMention | src/services/documentReferenceService.ts:267-304 | the document found belongs to the project, and when a document has exactly the mentioned name, the one found has that name |
| DocRefs.WordPrefix | src/services/documentReferenceService.ts:116 | the longest prefix of word characters: a prefix, all word characters, stopped by the end or a non-word character |
| DocRefs.HeaderName | src/services/documentReferenceService.ts:116-122 | an entity header names a word |
| DocRefs.FieldFlagsFromLastConstraint | src/services/documentReferenceService.ts:117-153 | a field's flags come from its last constraint only, so `int id PK FK` is a foreign key and not a primary key; a field without constraints is nullable and neither key |
| DocRefs.FieldFromTokens | src/services/documentReferenceService.ts:144-153 | a field line's first word is the field name and its second word the type; the field is never both primary and foreign key, a primary key ends in `PK`, and a required field ends in `NOT_NULL` |
| DocRefs.RelationAt | src/services/documentReferenceService.ts:158-159 | a relationship match names two words and a non-empty description |
| DocRefs.RelationTarget | src/services/documentReferenceService.ts:158 | the part after the arrow names a word and a non-empty description |
| DocRefs.QuotedText | src/services/documentReferenceService.ts:158 | a quoted description is non-empty and holds no double quote |
| DocRefs.QuotePrefix | src/services/documentReferenceService.ts:158 | the longest prefix without a double quote, stopped by the end or a quote |
| DocRefs.AttachToFirstNamed | src/services/documentReferenceService.ts:160-170 | a relationship goes to the first emitted entity with the source name and nowhere else; without such an entity nothing changes |
| DocRefs.TrimmedLines | src/services/documentReferenceService.ts:113 | there is one trimmed line per line of the diagram |
| DocRefs.ParseEntities | src/services/documentReferenceService.ts:107-111 | a text without `erDiagram` has no entities |
| DocRefs.ParseEntitiesFromMermaid | src/services/documentReferenceService.ts:107-176 | the loop over the lines yields the entities of the parse function |
| DocRefs.ReadLines | src/services/documentReferenceService.ts:121-173 | the loop over the trimmed lines yields the emitted entities, dropping the one still open at the end |
| DocRefs.ReadLine | src/services/documentReferenceService.ts:122-172 | the loop body takes one line exactly as one parse step does |
| DocRefs.HeaderEmitsOpenEntity | src/services/documentReferenceService.ts:122-133 | a header emits the entity still open and opens a new empty one |
| DocRefs.StepOnOtherLine | src/services/documentReferenceService.ts:135-171 | another line closes the open entity on `}` and otherwise adds its field and relationship |
| DocRefs.StepKeepsWordNames | src/services/documentReferenceService.ts:116-133 | a step keeps every entity named by a word, names coming only from headers |
| DocRefs.FoldNamesAreWords | src/services/documentReferenceService.ts:121-173 | once every entity after some lines is named by a word, so is every entity after all the lines |
| DocRefs.ParsedNamesAreWords | src/services/documentReferenceService.ts:107-176 | every parsed entity is named by a word |
| DocRefs.GenerateSpreadsheet | src/services/documentReferenceService.ts:179-228 | the row counter loop pushes exactly the cells of the generated sheet |
| DocRefs.FieldRowsShape | src/services/documentReferenceService.ts:203-211 | each field adds four cells on its own row, in columns 0 to 3 |
| DocRefs.PushFieldRows | src/services/documentReferenceService.ts:203-211 | the field loop appends exactly the fields' rows, one row per field, and advances the row index by the field count |
| DocRefs.PushEntity | src/services/documentReferenceService.ts:196-213 | one entity appends its title cell, its field rows and a blank row, and advances the row index by its height |
| DocRefs.FieldCellsDescribeFields | src/services/documentReferenceService.ts:203-211 | the fields of an entity sit one per row, in order, with name, type, required flag and key note |
| DocRefs.BodyCellsShape | src/services/documentReferenceService.ts:194-214 | the body lies in four columns, below the header and above the last used row, with rows never decreasing |
| DocRefs.EntityCellsShape | src/services/documentReferenceService.ts:196-213 | an entity's cells lie in four columns within its own rows, in row order |
| DocRefs.GeneratedSheetShape | src/services/documentReferenceService.ts:179-228 | no entities give no sheet; otherwise the four header cells in row 0 and the entities' cells below, within four columns and in row order, with a height of at least 20 and five more than the rows used |
| DocRefs.GetDocumentContent | src/services/documentReferenceService.ts:89-103 | none exactly when no document has that id; otherwise the content of such a document, its sheet kept only when it has a length and `[]` otherwise |
| DocRefs.ContentAgreesWithReference | src/services/documentReferenceService.ts:89-323 | for a document with a unique id, the content read directly equals the one inside its reference exactly when the sheet is falsy, has a length, or is the empty array |
| AiService.BlankIffAtMostOneFilled | src/services/aiService.ts:14-24 | the screen counts as blank exactly when at most one of conditions, supplement, first-sheet cells and mock-up holds content |
| AiService.InferTargetTypeSpec | src/services/aiService.ts:29-45 | the inferred target type is the answer of the first keyword group whose words occur in the lower-cased prompt |
| AiService.InferGeneral | src/services/aiService.ts:29-45 | a prompt mentioning no keyword of any group is given the `general` type |
| AiService.EcWinsOverEverything | src/services/aiService.ts:32-33 | any prompt whose lower-cased text contains `ec` anywhere (as in `project` or `select`) is taken for an e-commerce system |
| AiService.UserAdminKeywordRedundant | src/services/aiService.ts:34 | the `ユーザー管理` keyword never decides anything, since every text containing it contains `管理`, which is checked first |
| AiService.TargetTypeOf | src/services/aiService.ts:54 | the request's own target type is used when given and non-empty, the inferred one otherwise |
| AiService.Preview | src/services/aiService.ts:170-171 | a non-empty text is previewed by its first 200 characters at most; an empty one by `未入力` |
| AiService.CreateSystemPrompt | src/services/aiService.ts:159-208 | the all-in-one blank-screen prompt is used exactly when the screen is blank; either prompt names the target type, and the detailed one carries the previews and the cell count |
| AiService.DraftRequest | src/services/aiService.ts:50-70 | the draft request asks `gpt-4o` with the user's prompt, the blank-screen prompt exactly when the screen is blank, and the chosen target type |
| AiService.ExplicitTargetWins | src/services/aiService.ts:54-58 | an explicit non-empty target type is the one the prompt carries, whatever the prompt text says |
| AiService.ParseTextResponse | src/services/aiService.ts:254-281 | the fallback yields the six-cell sample sheet exactly when the lower-cased prompt mentions items, spreadsheet or definitions, and otherwise the whole reply under a heading as display conditions |
| AiService.DraftFromJson | src/services/aiService.ts:215-240 | a parsed value with a known `type` is turned into a well-formed draft of that kind; any other `type` gives none |
| AiService.ParseAIResponse | src/services/aiService.ts:210-251 | every reply yields a well-formed draft |
| AiService.DraftJsonRoundTrip | src/services/aiService.ts:215-240 | reading back the JSON form of any well-formed draft gives that same draft |
| AiService.ParseAIResponseReadsBlock | src/services/aiService.ts:213-240 | a reply whose fenced `json` block parses to a draft's JSON yields exactly that draft, whatever the prompt |
| AiService.ParseAIResponseFallsBack | src/services/aiService.ts:213-251 | a missing block, a parse error, a `null` value or an unknown `type` each fall back to the text parser |
| AiService.UnfencedReplyIsText | src/services/aiService.ts:213-243 | a reply without a `json` fence is parsed as text |
| AiService.GenerateDesignDraft | src/services/aiService.ts:50-78 | the draft fails, with the fixed message, exactly when the completion call fails; otherwise it is the parse of the reply, and well-formed |
| AiService.EmptyReplyFallsBack | src/services/aiService.ts:71-73 | an empty reply still produces a draft, through the text fallback |
| AiService.ChatRequest | src/services/aiService.ts:83-108 | the chat request carries the user's message and a summary holding the two text lengths, the first sheet's cell count and the mock-up flag |
| AiService.GenerateChatResponse | src/services/aiService.ts:83-115 | the chat reply is never empty: the model's text when it said something, a fixed apology when it said nothing, a fixed failure message when the call failed |
| AiService.ChatReplyOrigin | src/services/aiService.ts:108-115 | the reply is the model's own text exactly when the model returned non-empty text |
| Providers.SelectProvider | src/services/providers/providerSelector.ts:11-43 | Bedrock is chosen exactly when both AWS keys are set; OpenAI exactly when they are not but the OpenAI key is; otherwise the missing-keys error is raised |
| Providers.SelectedIsAvailable | src/services/providers/providerSelector.ts:11-60 | the provider chosen is always one that the availability check reports as configured |
| Providers.GetProviderStatus | src/services/providers/providerSelector.ts:65-80 | each availability flag is the availability check's answer, and the recommendation names the provider the selector would choose, or none when it would raise |
| Bedrock.RequestFor | src/services/providers/bedrockProvider.ts:61-84 | the request carries the model id, the system prompt, the user's text, a 2000-token limit and JSON content and accept types |
| Bedrock.TryInvoke | src/services/providers/bedrockProvider.ts:78-114 | content is returned only when truthy; a missing body throws a MODEL_ERROR with the empty-response message; an SDK failure throws its own message |
| Bedrock.ClassifySpec | src/services/providers/bedrockProvider.ts:120-133 | an error is given the type of the first ladder arm whose words occur in its message |
| Bedrock.ClassifyUnknown | src/services/providers/bedrockProvider.ts:121-133 | a message containing no ladder word is UNKNOWN |
| Bedrock.ClassifyLadder | src/services/providers/bedrockProvider.ts:123-133 | the classification is the source's five-arm `includes` ladder, arm by arm |
| Bedrock.Respond | src/services/providers/bedrockProvider.ts:52-142 | without both keys the call fails with AUTHENTICATION before any request; otherwise it answers truthy content or fails with the prefixed message, typed by that message alone |
| Bedrock.FreeOfKeywords | src/services/providers/bedrockProvider.ts:96-109 | neither message thrown by the body checks contains a ladder word |
| Bedrock.EmptyBodyReportedUnknown | src/services/providers/bedrockProvider.ts:92-140 | as written, a response without a body is reported as UNKNOWN, not as the MODEL_ERROR thrown for it |
| Bedrock.NoTextReportedUnknown | src/services/providers/bedrockProvider.ts:104-140 | as written, a body without text is likewise reported as UNKNOWN |
| Bedrock.RespondCorrected | src/services/providers/bedrockProvider.ts:52-142 | with an `AIError` thrown inside the `try` re-raised unchanged, failures still name Bedrock and missing keys still fail with AUTHENTICATION |
| Bedrock.EmptyBodyIsModelError | src/services/providers/bedrockProvider.ts:92-140 | with the re-raise, an empty body is reported as MODEL_ERROR, and SDK errors are classified exactly as before |
| Bedrock.BedrockProvider.constructor | src/services/providers/bedrockProvider.ts:13-15 | region and model id come from the environment, with `us-east-1` and the Claude 3.5 Sonnet id as defaults |
| Bedrock.BedrockProvider.CheckAvailability | src/services/providers/bedrockProvider.ts:42-47 | the provider is usable exactly when the provider selector finds both AWS keys |
| Bedrock.BedrockProvider.GenerateResponse | src/services/providers/bedrockProvider.ts:52-142 | one call is the availability check, the `try` block and the classifying `catch`, as the response function describes |
| OpenAiProvider.CallFor | src/services/providers/openaiProvider.ts:58-66 | the call carries the model, both prompts and a 2000-token limit |
| OpenAiProvider.TryComplete | src/services/providers/openaiProvider.ts:56-81 | content is returned only when truthy; a falsy reply throws a MODEL_ERROR with the empty-response message |
| OpenAiProvider.ClassifySpec | src/services/providers/openaiProvider.ts:87-98 | an error is given the type of the first ladder arm whose words occur in its message |
| OpenAiProvider.ClassifyUnknown | src/services/providers/openaiProvider.ts:88-98 | a message containing no ladder word is UNKNOWN |
| OpenAiProvider.ClassifyLadder | src/services/providers/openaiProvider.ts:90-98 | the classification is the source's four-arm `includes` ladder, arm by arm |
| OpenAiProvider.ClassifyRange | src/services/providers/openaiProvider.ts:88-98 | the OpenAI classification never yields MODEL_ERROR or CORS |
| OpenAiProvider.Respond | src/services/providers/openaiProvider.ts:43-107 | without a key the call fails with AUTHENTICATION before any request; otherwise it answers truthy content or fails with the prefixed message, typed by that message alone |
| OpenAiProvider.EmptyReplyReportedUnknown | src/services/providers/openaiProvider.ts:71-105 | as written, an empty reply is reported as UNKNOWN, not as the MODEL_ERROR thrown for it |
| OpenAiProvider.RespondCorrected | src/services/providers/openaiProvider.ts:43-107 | with an `AIError` thrown inside the `try` re-raised unchanged, failures still name OpenAI and a missing key still fails with AUTHENTICATION |
| OpenAiProvider.EmptyReplyIsModelError | src/services/providers/openaiProvider.ts:71-105 | with the re-raise, a falsy reply is reported as MODEL_ERROR, and errors of the call itself are classified as before |
| OpenAiProvider.OpenAIProvider.constructor | src/services/providers/openaiProvider.ts:12-13 | the model comes from the environment, `gpt-4o` by default |
| OpenAiProvider.OpenAIProvider.CheckAvailability | src/services/providers/openaiProvider.ts:36-38 | the provider is usable exactly when the provider selector finds the API key |
| OpenAiProvider.OpenAIProvider.GenerateResponse | src/services/providers/openaiProvider.ts:43-107 | one call is the availability check, the `try` block and the classifying `catch`, as the response function describes |
| HttpServer.Registered | mcp-server/src/mdai_mcp_server/http_server.py:184-186 | registration binds exactly `generate_data_model`, `ping` and `get_server_info` to their tools |
| HttpServer.ArgsOf | mcp-server/src/mdai_mcp_server/http_server.py:203-224 | a truthy dict is spread as keywords, another truthy value passed positionally, a falsy one dropped |
| HttpServer.FirstUnexpected | mcp-server/src/mdai_mcp_server/http_server.py:220 | an unexpected keyword is reported exactly when some keyword is not a parameter, and it is one of those |
| HttpServer.BindDataModel | mcp-server/src/mdai_mcp_server/http_server.py:34-224 | binding `generate_data_model`'s arguments: no arguments lack `prompt`, a positional value is the prompt, and unexpected keywords are reported before a missing `prompt` |
| HttpServer.BindNothing | mcp-server/src/mdai_mcp_server/http_server.py:145-224 | a tool without parameters accepts only the empty call |
| HttpServer.ProjectName | mcp-server/src/mdai_mcp_server/http_server.py:42 | a falsy context prints the unknown project; a truthy context that is not a dict makes the call fail |
| HttpServer.DictKeys | mcp-server/src/mdai_mcp_server/http_server.py:121 | iterating a dict yields exactly its keys |
| HttpServer.StringItems | mcp-server/src/mdai_mcp_server/http_server.py:121 | a list's items can be joined exactly when every item is a string, and then in order |
| HttpServer.IteratedStrings | mcp-server/src/mdai_mcp_server/http_server.py:121 | joining iterates a string's characters, a dict's keys or a list's items; any other value cannot be joined |
| HttpServer.ReferencesLine | mcp-server/src/mdai_mcp_server/http_server.py:120-121 | falsy references give the "none" line; a truthy list gives its strings joined by commas; anything unjoinable fails |
| HttpServer.RunDataModel | mcp-server/src/mdai_mcp_server/http_server.py:34-143 | the tool returns the fixed diagram with the prompt, mode `fixed_response` and the references or `[]`, and fails exactly when the project name or the references line fails |
| HttpServer.Route | mcp-server/src/mdai_mcp_server/http_server.py:209-224 | an unhashable method fails, an unregistered one fails as unknown, and a registered one calls its tool |
| HttpServer.ReplyTo | mcp-server/src/mdai_mcp_server/http_server.py:202-244 | a dict body always gets a reply carrying its `id`, and every error is -32603 |
| HttpServer.HandleMcpRequest | mcp-server/src/mdai_mcp_server/http_server.py:196-244 | an unparsable body gets -32603 with a null id, and a body that is not a dict gets no reply at all because the handler raises again |
| HttpServer.HandleMcpRequestCorrected | mcp-server/src/mdai_mcp_server/http_server.py:196-244 | with the id read only from a dict body, every request gets a reply, -32603 for a body that is not an object |
| HttpServer.McpHttpServer.constructor | mcp-server/src/mdai_mcp_server/http_server.py:29 | the registry starts empty |
| HttpServer.McpHttpServer.RegisterTools | mcp-server/src/mdai_mcp_server/http_server.py:31-186 | registration rebinds the three names and keeps every other entry |
| HttpServer.McpHttpServer.Handle | mcp-server/src/mdai_mcp_server/http_server.py:196-244 | the POST endpoint answers as the handler does over the current registry |
| HttpServer.StartUp | mcp-server/src/mdai_mcp_server/http_server.py:29-194 | after start-up the registry holds exactly the three tools |
| HttpServer.AnswerOnlyForRegisteredMethod | mcp-server/src/mdai_mcp_server/http_server.py:209-231 | a `result` reply comes only for a registered string method, with the body's `id` or null |
| HttpServer.UnknownMethodIsInternalError | mcp-server/src/mdai_mcp_server/http_server.py:209-244 | an unknown method never yields a result: the 400 exception is caught and reported as -32603 |
| HttpServer.MissingMethodIsUnknown | mcp-server/src/mdai_mcp_server/http_server.py:202-213 | a body without `method` is an unknown method on the registry |
| HttpServer.PingSpec | mcp-server/src/mdai_mcp_server/http_server.py:145-159 | `ping` answers exactly the call without arguments, always with status `ok` |
| HttpServer.ServerInfoListsRegistry | mcp-server/src/mdai_mcp_server/http_server.py:161-181 | `get_server_info` lists exactly the registered tool names, with status `ready` |
| HttpServer.DataModelIsConstant | mcp-server/src/mdai_mcp_server/http_server.py:45-143 | any two successful data-model calls return the same diagram whatever their arguments |
| HttpServer.PromptOnlySucceeds | mcp-server/src/mdai_mcp_server/http_server.py:34-143 | a prompt alone always succeeds, with references reported as `[]` and the "none" references line |
| HttpServer.NonObjectBodyEscapes | mcp-server/src/mdai_mcp_server/http_server.py:202-242 | as written, a JSON body that is not an object gets no JSON reply at all |
| HttpServer.CorrectedAgreesOnReplies | mcp-server/src/mdai_mcp_server/http_server.py:196-244 | the corrected handler differs from the written one only where that one lets the exception escape |
| ServerAiService.ProviderList | mcp-server/src/mdai_mcp_server/ai_service.py:42-48 | `bedrock` is listed exactly when boto3 imports and an AWS access key is set, `openai` exactly when its package imports and its key is set, nothing else is listed, and Bedrock comes first |
| ServerAiService.FirstAnswer | mcp-server/src/mdai_mcp_server/ai_service.py:167-184 | Bedrock is tried first when listed and OpenAI next when listed, one attempt each; the first reply wins, and the call raises "No AI providers available" exactly when no listed provider answers |
| ServerAiService.Answerer | mcp-server/src/mdai_mcp_server/ai_service.py:167-184 | the provider whose reply the chain returns is a listed one, and there is one exactly when the chain answers |
| ServerAiService.FindFold | mcp-server/src/mdai_mcp_server/ai_service.py:253 | the leftmost case-insensitive occurrence of a word at or after a position, and none exactly when there is no such occurrence |
| ServerAiService.FencedAt | mcp-server/src/mdai_mcp_server/ai_service.py:248 | a fenced match starting at a position captures text that starts with erDiagram and stops at the nearest closing fence, holding none |
| ServerAiService.FencedBlock | mcp-server/src/mdai_mcp_server/ai_service.py:248 | the leftmost fenced match captures text that starts with erDiagram and stops at the nearest closing fence |
| ServerAiService.WithoutBackticks | mcp-server/src/mdai_mcp_server/ai_service.py:274 | the text with every backtick removed holds no backtick |
| ServerAiService.DropPairsThenRemove | mcp-server/src/mdai_mcp_server/ai_service.py:269-274 | unwrapping backtick pairs first removes nothing that removing every backtick would keep |
| ServerAiService.StripBackticksRemovesAll | mcp-server/src/mdai_mcp_server/ai_service.py:269-274 | the two backtick passes together remove exactly the backticks and keep everything else in order |
| ServerAiService.RepairedHasNoBackticks | mcp-server/src/mdai_mcp_server/ai_service.py:263-292 | a repaired diagram holds no backtick |
| ServerAiService.RepairedKeepsHeader | mcp-server/src/mdai_mcp_server/ai_service.py:263-292 | repairing a text that starts with erDiagram keeps that start |
| ServerAiService.ExtractWithSpec | mcp-server/src/mdai_mcp_server/ai_service.py:244-261 | the extracted diagram is empty exactly when the reply never says erDiagram in any case; otherwise it starts with it; it never holds a backtick |
| ServerAiService.ExtractMermaidCodeSpec | mcp-server/src/mdai_mcp_server/ai_service.py:244-261 | the extraction as written and the corrected one find a diagram for the same replies, starting with erDiagram and free of backticks |
| ServerAiService.FixedSyntaxCorrectedKeepsLines | mcp-server/src/mdai_mcp_server/ai_service.py:277-286 | the corrected repair keeps every line break, so no two lines of the diagram are joined |
| ServerAiService.PkFkJoinsLines | mcp-server/src/mdai_mcp_server/ai_service.py:280 | as written, a `PK FK` pair at the end of a line swallows the line break and glues the next line onto the `PK` |
| ServerAiService.PkFkKeepsLinesCorrected | mcp-server/src/mdai_mcp_server/ai_service.py:280 | with blanks confined to the line, the same lines keep their line break |
| ServerAiService.FkPkCollapses | mcp-server/src/mdai_mcp_server/ai_service.py:286 | an `FK PK` pair followed by a word becomes one ` PK` |
| ServerAiService.FkPkOnePass | mcp-server/src/mdai_mcp_server/ai_service.py:283-286 | the `FK PK` rewrite is one pass that does not rescan its output: ` FK FK PK` becomes ` FK PK`, which a second pass would turn into ` PK` |
| ServerAiService.NoPkFkAfterRewrite | mcp-server/src/mdai_mcp_server/ai_service.py:280 | after the `PK FK` rewrite, no blank, `PK`, run of blanks, `FK` sequence is left anywhere in the text |
| ServerAiService.PkFkKept | mcp-server/src/mdai_mcp_server/ai_service.py:286 | the `FK PK` rewrite creates no such pair: every pair in its output is a pair of its input |
| ServerAiService.RepairedHasNoPkFk | mcp-server/src/mdai_mcp_server/ai_service.py:277-286 | for every input and any blank set that holds the space but not the letters of the keys, the repair leaves no blank-separated `PK FK` pair |
| ServerAiService.FixedSyntaxHasNoPkFk | mcp-server/src/mdai_mcp_server/ai_service.py:277-286 | as written, no `PK FK` pair separated by Python whitespace survives the repair |
| ServerAiService.FixedSyntaxCorrectedHasNoPkFk | mcp-server/src/mdai_mcp_server/ai_service.py:277-286 | the corrected repair leaves no `PK FK` pair separated by spaces or tabs |
| ServerAiService.PkFkWithoutBlankSurvives | mcp-server/src/mdai_mcp_server/ai_service.py:280 | where a pair survives: `PK FK` with no blank in front, here at the start of the diagram, is no match and stays as it is |
| ServerAiService.ReferencesOrEmpty | mcp-server/src/mdai_mcp_server/ai_service.py:147-415 | the given references, or the empty list when there are none |
| ServerAiService.FallbackData | mcp-server/src/mdai_mcp_server/ai_service.py:345-422 | the fallback is the constant diagram with a supplement, and metadata saying `fallback` with provider `none` |
| ServerAiService.DataModel | mcp-server/src/mdai_mcp_server/ai_service.py:57-165 | the result is generated or the fallback, and keeps the prompt and the references |
| ServerAiService.DataModelSpec | mcp-server/src/mdai_mcp_server/ai_service.py:118-165 | the result falls back exactly when no provider answers or the reply names no erDiagram; otherwise it carries a diagram starting with erDiagram and free of backticks |
| ServerAiService.DataModelMiscreditsProvider | mcp-server/src/mdai_mcp_server/ai_service.py:150 | as written, with both providers listed and Bedrock failing, OpenAI's diagram is credited to Bedrock |
| ServerAiService.DataModelCorrectedSpec | mcp-server/src/mdai_mcp_server/ai_service.py:150-184 | the corrected result falls back on the same calls, and a generated result credits the provider whose reply the diagram came from |
| ServerAiService.DataModelCorrected | mcp-server/src/mdai_mcp_server/ai_service.py:150-184 | the corrected result is either generated or a fallback, and it echoes the request's prompt and references |
| ServerAiService.AIService.constructor | mcp-server/src/mdai_mcp_server/ai_service.py:34-48 | the keys are read from the environment, the region defaults to us-west-2, and the provider list is the specified one |
| ServerAiService.AIService.GenerateWithAi | mcp-server/src/mdai_mcp_server/ai_service.py:167-184 | trying the listed providers in turn gives the specified first answer |
| ServerAiService.AIService.FixMermaidSyntax | mcp-server/src/mdai_mcp_server/ai_service.py:263-292 | the repair is the specified pipeline of backtick passes and key-pair rewrites; its output holds no backtick and no `PK FK` pair separated by whitespace |
| ServerAiService.AIService.GenerateDataModel | mcp-server/src/mdai_mcp_server/ai_service.py:57-165 | generation, extraction and fallback give the specified result |
| TagInput.AddTag | src/components/Common/TagInput.tsx:23-29 | an input whose trimmed value is non-empty and not yet a tag is appended trimmed; any other input leaves the tags as they were |
| TagInput.AddKeepsDistinct | src/components/Common/TagInput.tsx:23-29 | adding never creates a duplicate tag, and an added tag carries no surrounding whitespace |
| TagInput.TrimIdempotent | src/components/Common/TagInput.tsx:24 | trimming an already trimmed value changes nothing |
| TagInput.AddAppends | src/components/Common/TagInput.tsx:25-26 | the earlier tags stay in front, and a non-blank input is among the tags afterwards, whether newly added or already present |
| TagInput.RemoveDropsOnlyThatTag | src/components/Common/TagInput.tsx:40-42 | removing drops exactly the tags equal to the given one and brings in nothing new |
| TagInput.RemoveKeepsOrder | src/components/Common/TagInput.tsx:40-42 | the remaining tags keep their order: removal distributes over concatenation |
| TagInput.RemoveAbsentIsNoop | src/components/Common/TagInput.tsx:40-42 | removing a tag that is not shown changes nothing |
| TagInput.RemoveUndoesAdd | src/components/Common/TagInput.tsx:23-42 | removing a tag just added restores the earlier list |
| TagInput.TagBox.constructor | src/components/Common/TagInput.tsx:14-20 | the widget shows the given tags and an empty input |
| TagInput.TagBox.Type | src/components/Common/TagInput.tsx:59 | typing replaces the input text and leaves the tags alone |
| TagInput.TagBox.HandleAddTag | src/components/Common/TagInput.tsx:23-29 | the tags become the specified addition, and the input is cleared exactly when the tag was accepted |
| TagInput.TagBox.HandleKeyDown | src/components/Common/TagInput.tsx:32-37 | Enter behaves as adding a tag; any other key changes nothing |
| TagInput.TagBox.HandleRemoveTag | src/components/Common/TagInput.tsx:40-42 | the tags become the specified removal and the input is untouched |

## Left out

- `BackupService.getStorageUsage` (src/services/backupService.ts:185-211): it measures serialised JSON length in bytes against a 5 MB quota; JSON serialisation sizes are not modelled.
- `getDebugInfo` of both providers (src/services/providers/bedrockProvider.ts:147-159, src/services/providers/openaiProvider.ts:112-119): diagnostic output only, so it is not modelled.
- Provider client construction failures (src/services/providers/bedrockProvider.ts:19-36, src/services/providers/openaiProvider.ts:16-30): SDK constructors are outside the model, so they are taken to succeed.
- `handleImageUpload` (src/hooks/useFileOperations.ts:35-47): reading a file as a data URL is browser I/O; the mock-up is treated as an opaque string everywhere.
- The download in `handleSave` (src/hooks/useFileOperations.ts:62-68) and the alerts of `handleLoad` are I/O; the saved JSON value and the load outcome are modelled.
- `convertHtmlToImage` and `convertAiMockupToImage` (src/utils/htmlToImage.ts:13-154): they render through the DOM and a canvas library; only the pure preview is modelled.
- The `/health` endpoint and the uvicorn start-up (mcp-server/src/mdai_mcp_server/http_server.py:246-262): a constant reply with a clock reading, and process start-up.
- The global Mermaid error suppression of `MermaidEditor.tsx` (src/components/Model/MermaidEditor.tsx:33-67): it patches `console.error` and deletes DOM nodes on a timer; no state of the editor depends on it.
- The 500 ms debounce of the diagram render (src/components/Model/MermaidEditor.tsx:201-206) is collapsed into one render step per change.
- The suggested questions of the three chat panels (src/components/Chat/ModelChatPanel.tsx:62-75 and the like) are a fixed display list; handleQuestionClick only forwards to handleSendMessage, which is modelled.
- createModificationSystemPrompt and generateModificationResponse (src/services/modificationService.ts:61-155) build the prompt text and call the MCP server; the model takes the AI call as the `respond` parameter of Modification.GenerateModificationProposal, which may raise.
- The two effects of src/hooks/useAppState.ts:35-46 are not modelled: saving the state to local storage after every change, and copying the state's current ids into the navigation state when they change. Each handler's own navigation update is modelled.
- Rendering, styling, scrolling, focus and every other DOM effect of the React components are not modelled; only the state each handler computes is.
- Console logging and the Python `print` diagnostics are not modelled.
- Case folding is ASCII only; JavaScript's and Python's Unicode lower-casing of other letters is not modelled.
- Strings are sequences of characters: the UTF-16 code units JavaScript counts and the code points Python counts are not distinguished, which matters only for lengths of text outside the Basic Multilingual Plane.
- Floating-point number formatting (`toFixed`, `toLocaleString`, `String(n)` of a number) is taken as given: a number carries the text it renders as.
- Clock readings, `Date.now()`-based ids, `generateUUID` and `uuid4` are parameters of the operations that use them.
- Every AI or MCP call (`mcpClient.*`, the Bedrock and OpenAI SDKs, `boto3`, the `openai` package) is a function parameter that returns a reply or raises; the prompt templates sent to them are not modelled.
- `loadAppState`, `saveAppState` and `migrateFromLegacyData` (src/utils/storage.ts:28-63,277-280) are local-storage I/O; the state they read and write is the `Storage.AppState` value.
- FastMCP's own argument validation and JSON-RPC framing on the server are not modelled; the request handler's branches are.
- ScreenChat.ChosenProposalMessage: the proposal text keeps its heading and summary; the per-change lines with their `toFixed` percentages, the risk list and the closing question (src/components/Chat/ScreenChatPanel.tsx:744-746) are not modelled.
- ScreenChat.ChangedFields: the sheet comparison `JSON.stringify(a) !== JSON.stringify(b)` (src/components/Chat/ScreenChatPanel.tsx:295) is modelled as inequality of the parsed values; the two part only where serialisation drops or merges values (undefined members, numbers that print alike).
- `_generate_supplement` (mcp-server/src/mdai_mcp_server/ai_service.py:294-343) writes a fixed explanatory text around the diagram; the model takes it as the `supplementFor` parameter of the request wiring.
- `_generate_with_bedrock` and `_generate_with_openai` (mcp-server/src/mdai_mcp_server/ai_service.py:186-242) are the provider calls themselves; they are the `bedrock` and `openai` parameters, which may raise.
- The user prompt assembled in `generate_data_model` (mcp-server/src/mdai_mcp_server/ai_service.py:72-121) is prompt text; only the request fields it reads are modelled.
- Navigation.Session.CreateDocument: the session creates the typed document of Navigation.NewDocument, not the as-written one of src/hooks/useAppState.ts:62-63 whose type lands in the conditions text; Navigation.NewDocumentAsWritten models that call and its Finding.
- ProjectOps.Recreated: each imported document is the intended ProjectOps.Recreate, not the shifted-argument call of src/hooks/useProjectOperations.ts:122-131; ProjectOps.RecreateAsWritten models that call and its Finding.
- ProjectOps.ImportProject: imported documents keep their type, texts and sheets through ProjectOps.Recreate; as written (src/hooks/useProjectOperations.ts:122-131) they lose them, see ProjectOps.RecreateAsWritten.
- ProjectOps.RecreateAsWritten: in the shifted call the sheet value lands in the mockup slot unchanged (src/hooks/useProjectOperations.ts:122-131); the document's mockup is text here, so a sheet array there is modelled as no mockup.
- CommonChat.DescribeRows: the cell table and range use the intended column names and row-by-column extent, not the `String.fromCharCode(65 + c)` letters and max-index column count of src/components/Common/ChatPanel.tsx, lines 200 and 273; the as-written forms are CommonChat.ColumnPastZIsNotALetter and CommonChat.RangeAsWrittenCountsFromZero.
- CommonChat.GetDummyResponse: its routed replies describe cells through the same intended references and range as DescribeRows, so a 27th-column cell or a one-cell sheet reads differently from src/components/Common/ChatPanel.tsx, lines 200 and 273.
- CommonChat.CommonPanel.HandleSendMessage: replies through GetDummyResponse, with its intended cell references and range.
- CommonChat.CommonPanel.HandleQuestionClick: replies through GetDummyResponse, with its intended cell references and range.
- Backup.BackupStore.CreateAutoBackup: the local-storage write always succeeds here; the rethrown error when `localStorage.setItem` throws (src/services/backupService.ts:37-40), a quota or browser failure, is not modelled.
- Backup.BackupStore.CreateManualBackup: the same write failure and its rethrow (src/services/backupService.ts:65-68) are not modelled.
- Modification.ApplyModificationProposal: the backup it takes cannot fail here, so the outer catch that returns `success: false` without updated data (src/services/modificationService.ts:267-273) has no counterpart.
- Text.ReplaceFirst: the replacement text is inserted literally; `String.prototype.replace` expands `$$`, `$&`, `` $` `` and `$'` in it, so a Markdown delete of the text `$$` yields `~~$~~` in the source. Modification.MarkdownDeleteKeepsText and Modification.MarkdownModifyShape hold only for replacement texts without `$`.
- ChatShared.ProposalMessage: the proposal text keeps its heading and summary; the per-change lines with their `toFixed` percentages, the risk list and the closing question (src/components/Chat/ModelChatPanel.tsx:248-250) are not modelled.
- DocRefs.GeneratedSheet and DocRefs.SheetCell: the generated sheet keeps its name, cells and size; the constant sheet settings and the `{v, f, ct}` wrapper around each cell value are not modelled.
- Json.StringToNumber: a numeric literal's exact value is taken to the double range only, an infinity past it and 0 below it; within the range the rounding to the nearest 53-bit double is not modelled (the text `0.1` is the exact tenth), and the text `-0` reads as 0, not as negative zero.
- Json.Json: a parsed number holds a finite value; `JSON.parse` of a literal past the double range, which yields Infinity, is not modelled.
- Modification.NotAFunction: the TypeError texts follow the V8 engine's wording; other engines word the same errors differently.
- MarkdownTable.Reach: padding is bounded by the language's array length limit of 2^32 − 1; an engine runs out of memory long before that many pushes, which is not modelled.

## Findings

| source | as written | input that shows it | evidently intended | confidence | as-written member | corrected member |
|---|---|---|---|---|---|---|
| src/services/providers/bedrockProvider.ts:92-140 | the MODEL_ERROR thrown for an empty response is caught by the same `try` and reclassified | a response without a body, or whose body has no text | an empty response is reported as MODEL_ERROR | not executed | Bedrock.EmptyBodyReportedUnknown | Bedrock.EmptyBodyIsModelError |
| src/services/providers/openaiProvider.ts:71-105 | the MODEL_ERROR thrown for an empty reply is caught by the same `try` and reclassified | a completion whose message content is empty | an empty reply is reported as MODEL_ERROR | not executed | OpenAiProvider.EmptyReplyReportedUnknown | OpenAiProvider.EmptyReplyIsModelError |
| mcp-server/src/mdai_mcp_server/http_server.py:202-242 | `body.get` is called on whatever JSON arrived | the body `[]` or `1` | a JSON-RPC error reply | not executed | HttpServer.NonObjectBodyEscapes | HttpServer.CorrectedAgreesOnReplies |
| mcp-server/src/mdai_mcp_server/ai_service.py:280 | the trailing `\s*` of the `PK FK` pattern also eats line breaks | a line ending in ` PK FK` followed by another line | the next line stays on its own line | not executed | ServerAiService.PkFkJoinsLines | ServerAiService.PkFkKeepsLinesCorrected |
| mcp-server/src/mdai_mcp_server/ai_service.py:150 | the provider credited is the first one listed | both providers listed, Bedrock raising and OpenAI answering | the provider that answered is credited | not executed | ServerAiService.DataModelMiscreditsProvider | ServerAiService.DataModelCorrectedSpec |
| src/hooks/useAppState.ts:62-63 | `createDocument` is passed the type where it takes the conditions text | creating a new screen document | the new document has the chosen type and empty conditions | not executed | Navigation.NewDocumentAsWrittenLosesType | Navigation.NewDocument |
| src/hooks/useProjectOperations.ts:122-131 | the import passes type, conditions, supplement and sheets one parameter off | importing an exported document with a type and non-empty texts | the re-created document keeps every exported field | not executed | ProjectOps.RecreateAsWrittenLosesContent | ProjectOps.RecreateKeepsContent |
| src/components/Common/ChatPanel.tsx:200 | the column letter is `String.fromCharCode(65 + c)` | a cell in the 27th column (`c = 26`) | a spreadsheet column name such as `AA` | not executed | CommonChat.ColumnPastZIsNotALetter | CommonChat.CellRefInjective |
| src/components/Common/ChatPanel.tsx:273 | the column count is the largest column index | a sheet whose only cell is A1 | a sheet with one cell is one row by one column | not executed | CommonChat.RangeAsWrittenCountsFromZero | CommonChat.ExtentCoversShownRows |
