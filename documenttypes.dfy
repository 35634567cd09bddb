/**
 * The table of document types (`DOCUMENT_TYPES`) and its lookups: display name, icon and
 * which editor tabs a type shows.
 */
module DocumentTypes {
  import opened Wrappers
  import Storage

  /** One row of the table (`DocumentTypeInfo`); `docType` is the record's `type` field and `displayName` its `label`. */
  datatype TypeInfo = TypeInfo(docType: string, displayName: string, description: string, icon: string,
                               defaultTabs: seq<string>)

  /** The table's keys, in the order the object literal declares them. */
  const Keys: seq<string> := ["screen", "model", "api", "database"]

  const ScreenInfo := TypeInfo("screen", "画面設計書", "UI画面の設計・仕様を定義", "🖥️",
                               ["conditions", "mockup", "definitions", "supplement"])
  const ModelInfo := TypeInfo("model", "データモデル設計書", "エンティティとER図の設計・定義", "🗄️",
                              ["models", "conditions", "supplement"])
  const ApiInfo := TypeInfo("api", "API設計書", "API仕様とエンドポイント定義", "🔌",
                            ["conditions", "definitions", "supplement"])
  const DatabaseInfo := TypeInfo("database", "データベース設計書", "テーブル設計とスキーマ定義", "🗃️",
                                 ["definitions", "models", "supplement"])

  /** `DOCUMENT_TYPES`: the record stored under each key. */
  const Table: map<string, TypeInfo> :=
    map["screen" := ScreenInfo, "model" := ModelInfo, "api" := ApiInfo, "database" := DatabaseInfo]

  const UnknownIcon := "📄"

  /**
   * `DOCUMENT_TYPES[type]` for a key that may come from stored data: the record, or None
   * when the key is not in the table (`undefined`).
   */
  function Lookup(key: string): (r: Option<TypeInfo>)
    ensures r.Some? <==> key in Keys
    ensures r.Some? ==> r.value.docType == key
  {
    if key in Table then Some(Table[key]) else None
  }

  /** `getDocumentTypeInfo`: the record of a well-typed document type. */
  function GetDocumentTypeInfo(t: Storage.DocumentType): (r: TypeInfo)
    ensures r.docType == Storage.DocTypeName(t)
    ensures Lookup(Storage.DocTypeName(t)) == Some(r)
  {
    Table[Storage.DocTypeName(t)]
  }

  /** `getAllDocumentTypes`: `Object.values` of the table, in declaration order. */
  function GetAllDocumentTypes(): (r: seq<TypeInfo>)
    ensures |r| == 4
    ensures forall i :: 0 <= i < |r| ==> r[i].docType == Keys[i] && Lookup(Keys[i]) == Some(r[i])
  {
    [Table[Keys[0]], Table[Keys[1]], Table[Keys[2]], Table[Keys[3]]]
  }

  /** `getDocumentTypeName`: the label, or the raw key when the table has no such type. */
  function GetDocumentTypeName(key: string): (r: string)
    ensures key in Keys ==> r == Lookup(key).value.displayName
    ensures key !in Keys ==> r == key
  {
    match Lookup(key)
    case Some(info) => if info.displayName != "" then info.displayName else key
    case None => key
  }

  /** `getDocumentTypeIcon`: the icon, or `📄` when the table has no such type. */
  function GetDocumentTypeIcon(key: string): (r: string)
    ensures key in Keys ==> r == Lookup(key).value.icon
    ensures key !in Keys ==> r == UnknownIcon
  {
    match Lookup(key)
    case Some(info) => if info.icon != "" then info.icon else UnknownIcon
    case None => UnknownIcon
  }

  /** `shouldShowTab`: `defaultTabs.includes(tabId)`, false for a type the table lacks. */
  predicate ShouldShowTab(key: string, tabId: string)
  {
    match Lookup(key)
    case Some(info) => tabId in info.defaultTabs
    case None => false
  }

  /** There are exactly four types, every key distinct, and each record's type is its own key. */
  lemma {:induction false} TableShape()
    ensures |Keys| == 4 && forall i, j :: 0 <= i < j < |Keys| ==> Keys[i] != Keys[j]
    ensures Table.Keys == set k | k in Keys
    ensures forall k :: k in Table ==> Table[k].docType == k
  {
    assert Keys[0] == "screen" && Keys[1] == "model" && Keys[2] == "api" && Keys[3] == "database";
  }

  /** Every document type the store knows has a record, and no other key does. */
  lemma {:induction false} EveryStoredTypeListed(t: Storage.DocumentType)
    ensures Storage.DocTypeName(t) in Keys
    ensures forall k :: k in Keys ==> exists d: Storage.DocumentType :: Storage.DocTypeName(d) == k
  {
    assert Storage.DocTypeName(Storage.Screen) == Keys[0];
    assert Storage.DocTypeName(Storage.Model) == Keys[1];
    assert Storage.DocTypeName(Storage.Api) == Keys[2];
    assert Storage.DocTypeName(Storage.Database) == Keys[3];
  }

  /** A tab shows exactly when the type is known and lists the tab among its default tabs. */
  lemma ShouldShowTabIff(key: string, tabId: string)
    ensures ShouldShowTab(key, tabId) <==> key in Table && tabId in Table[key].defaultTabs
  {
  }

  /** The screen type shows conditions, mockup, definitions and supplement, and no model tab. */
  lemma {:induction false} ScreenTabs()
    ensures ShouldShowTab("screen", "conditions") && ShouldShowTab("screen", "mockup")
    ensures ShouldShowTab("screen", "definitions") && ShouldShowTab("screen", "supplement")
    ensures !ShouldShowTab("screen", "models")
  {
    assert Lookup("screen") == Some(ScreenInfo);
    assert ScreenInfo.defaultTabs[0] == "conditions" && ScreenInfo.defaultTabs[1] == "mockup";
    assert ScreenInfo.defaultTabs[2] == "definitions" && ScreenInfo.defaultTabs[3] == "supplement";
    assert "models" !in ScreenInfo.defaultTabs by {
      forall i | 0 <= i < |ScreenInfo.defaultTabs| ensures ScreenInfo.defaultTabs[i] != "models" {
        assert ScreenInfo.defaultTabs[i][2] != 'd' || |ScreenInfo.defaultTabs[i]| != 6;
      }
    }
  }

  /** The model type shows models, conditions and supplement, and neither mockup nor definitions. */
  lemma {:induction false} ModelTabs()
    ensures ShouldShowTab("model", "models") && ShouldShowTab("model", "conditions")
    ensures ShouldShowTab("model", "supplement")
    ensures !ShouldShowTab("model", "mockup") && !ShouldShowTab("model", "definitions")
  {
    assert Lookup("model") == Some(ModelInfo);
    assert ModelInfo.defaultTabs[0] == "models" && ModelInfo.defaultTabs[1] == "conditions";
    assert ModelInfo.defaultTabs[2] == "supplement";
    assert "mockup" !in ModelInfo.defaultTabs by {
      forall i | 0 <= i < |ModelInfo.defaultTabs| ensures ModelInfo.defaultTabs[i] != "mockup" {
        assert ModelInfo.defaultTabs[i][2] != 'c' || |ModelInfo.defaultTabs[i]| != 6;
      }
    }
    assert "definitions" !in ModelInfo.defaultTabs by {
      forall i | 0 <= i < |ModelInfo.defaultTabs| ensures ModelInfo.defaultTabs[i] != "definitions" {
        assert ModelInfo.defaultTabs[i][0] != 'd';
      }
    }
  }

  /** An unknown type shows no tab, is named by its own key and gets the generic icon. */
  lemma UnknownTypeFallbacks(key: string, tabId: string)
    requires key !in Keys
    ensures !ShouldShowTab(key, tabId)
    ensures GetDocumentTypeName(key) == key && GetDocumentTypeIcon(key) == UnknownIcon
  {
  }
}
