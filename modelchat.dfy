/**
 * The data-model chat panel: its classifiers, the ER-diagram extraction from the assistant's
 * reply, the dispatch of `getAIResponse` (modification, `/write`, `/backup`, generation,
 * chat), the message list of `handleSendMessage`, and the application of a proposal, which
 * reports to the parent only the fields that changed. The document is the supplement text and
 * the Mermaid code the parent passes in; the parent's callbacks are returned as a list of
 * `Update`s; the proposal service and the chat completion are parameters.
 */
module ModelChat {
  import opened Wrappers
  import opened Text
  import opened Keywords
  import opened DocData
  import opened ChatShared
  import Modification
  import Backup
  import AiService
  import ServerAiService

  // ---------------------------------------------------------------------------------------
  // Classifiers

  /** The phrases only the data-model panel adds to the modification phrases. */
  const ModelOnlyWords: seq<string> := ["関係を", "テーブルを", "フィールドを", "属性を"]

  const ModelModificationWords: seq<string> := ModificationWords + ModelOnlyWords

  /** The generation words, checked on the message as typed. */
  const GenerationWords: seq<string> := ["作って", "生成", "作成", "設計", "を作", "新しく"]

  /** `isGenerationRequest`: a case-sensitive test. */
  predicate IsGenerationRequest(message: string)
  {
    MentionsAny(message, GenerationWords)
  }

  /** `isModificationRequest`: the lower-cased message contains one of the eighteen phrases. */
  predicate IsModificationRequest(message: string)
  {
    MentionsAny(Lower(message), ModelModificationWords)
  }

  /**
   * The data-model test is the screen panel's test widened by the four model phrases: every
   * request the screen panel takes as a modification is one here too.
   */
  lemma ModificationWidensScreenTest(message: string)
    ensures IsModificationRequest(message) <==>
              MentionsAny(Lower(message), ModificationWords) || MentionsAny(Lower(message), ModelOnlyWords)
  {
    MentionsAnyConcat(Lower(message), ModificationWords, ModelOnlyWords);
  }

  lemma ModelWordsArePlain()
    ensures forall i :: 0 <= i < |ModelModificationWords| ==> NoAsciiLetter(ModelModificationWords[i])
    ensures forall i :: 0 <= i < |GenerationWords| ==> NoAsciiLetter(GenerationWords[i])
  {
  }

  /**
   * No phrase of either test has an ASCII letter, so case plays no part in either: the
   * lower-casing of the modification test and the case-sensitivity of the generation test
   * change no answer.
   */
  lemma CaseIsIrrelevant(message: string)
    ensures IsModificationRequest(message) <==> MentionsAny(message, ModelModificationWords)
    ensures IsGenerationRequest(Lower(message)) <==> IsGenerationRequest(message)
  {
    ModelWordsArePlain();
    LowerKeepsPlainWords(message, ModelModificationWords);
    LowerKeepsPlainWords(message, GenerationWords);
  }

  /** The document as the panel sees it: the supplement text and the Mermaid code. */
  datatype ModelDocument = ModelDocument(supplement: string, mermaid: string)

  /** The `currentData` both handlers build: the screen-only fields are empty. */
  function CurrentData(doc: ModelDocument): (d: WebUIData)
    ensures d.supplement == doc.supplement && d.mermaid == doc.mermaid
    ensures d.conditions == "" && d.sheets == [] && d.mockup == None
  {
    WebUIData("", doc.supplement, [], None, doc.mermaid)
  }

  /** `isEmpty`: no Mermaid code, or fewer than ten characters once trimmed. */
  predicate IsEmpty(data: WebUIData)
  {
    data.mermaid == "" || |Trim(data.mermaid)| < 10
  }

  /** The test for a missing code adds nothing: emptiness is a trimmed length below ten. */
  lemma IsEmptyIffShort(data: WebUIData)
    ensures IsEmpty(data) <==> |Trim(data.mermaid)| < 10
  {
    if data.mermaid == "" {
      assert TrimLeft(Js, data.mermaid) == "";
    }
  }

  // ---------------------------------------------------------------------------------------
  // The ER diagram in the assistant's reply

  /**
   * The diagram the panel takes from a reply: the group of
   * ``` /```(?:mermaid)?\s*(erDiagram[\s\S]*?)```/i ``` when it matches, else of
   * `/(erDiagram[\s\S]*)/i`, trimmed; None when neither matches.
   */
  function ExtractDiagram(response: string): Option<string>
  {
    match ServerAiService.FencedBlock(response, 0, JsSpace)
    case Some(g) => Some(Trim(response[g.0..g.1]))
    case None =>
      match ServerAiService.FindFold(response, "erdiagram", 0)
      case Some(i) => Some(Trim(response[i..]))
      case None => None
  }

  /** The last character of `code` is not whitespace. */
  predicate EndsWithText(code: string)
  {
    code != [] && !JsSpace(code[|code| - 1])
  }

  /** A letter whose ASCII lower case is one of `erdiagram` is not JavaScript whitespace. */
  lemma HeaderLetterIsNotSpace(c: char)
    requires LowerChar(c) in "erdiagram"
    ensures !JsSpace(c) && c != '`'
  {
  }

  /** Trimming a text that starts with `erDiagram` (in any case) keeps that start. */
  lemma TrimKeepsHeader(x: string)
    requires ServerAiService.FoldMatch(x, 0, "erdiagram")
    ensures ServerAiService.FoldMatch(Trim(x), 0, "erdiagram")
    ensures Trim(x) == x[..|Trim(x)|]
  {
    forall k | 0 <= k < 9 ensures !JsSpace(x[k]) {
      assert Lower(x[..9])[k] == LowerChar(x[k]);
      assert "erdiagram"[k] in "erdiagram";
      HeaderLetterIsNotSpace(x[k]);
    }
    assert TrimLeft(Js, x) == x;
    var r := TrimRight(Js, x);
    assert !IsSpace(Js, x[8]);
    assert |r| >= 9;
    assert r[..9] == x[..9];
  }

  /** A prefix of a text holds no closing fence when the text holds none. */
  lemma NoFenceInPrefix(x: string, n: nat)
    requires n <= |x|
    requires forall k :: !MatchAt(x, "```", k)
    ensures forall k :: !MatchAt(x[..n], "```", k)
  {
    forall k | MatchAt(x[..n], "```", k) ensures false {
      MatchInPrefix(x, "```", n, k);
    }
  }

  /** A match inside a slice of `s` is a match in `s`, shifted by the slice's start. */
  lemma MatchInSlice(s: string, t: string, a: nat, b: nat, k: int)
    requires a <= b <= |s| && MatchAt(s[a..b], t, k)
    ensures MatchAt(s, t, a + k)
  {
    forall j | 0 <= j < |t| ensures s[a + k + j] == t[j] {
      assert s[a..b][k..k + |t|][j] == t[j];
    }
    assert s[a + k..a + k + |t|] == t;
  }

  /** A fenced diagram holds no fence: it stops before the nearest closing one. */
  lemma {:induction false} FencedHasNoFence(s: string, g: (nat, nat))
    requires g.0 + 9 <= g.1 <= |s| && ServerAiService.FoldMatch(s, g.0, "erdiagram")
    requires forall k :: g.0 + 9 <= k < g.1 ==> !MatchAt(s, "```", k)
    ensures forall k :: !MatchAt(s[g.0..g.1], "```", k)
  {
    var x := s[g.0..g.1];
    forall k | MatchAt(x, "```", k) ensures false {
      MatchInSlice(s, "```", g.0, g.1, k);
      if k < 9 {
        assert s[g.0 + k..g.0 + k + 3][0] == '`';
        assert Lower(s[g.0..g.0 + 9])[k] == LowerChar(s[g.0 + k]);
        assert "erdiagram"[k] in "erdiagram";
        HeaderLetterIsNotSpace(s[g.0 + k]);
      }
    }
  }

  /**
   * A diagram is found exactly when the reply says `erDiagram` in some case; the diagram
   * found starts with it and ends with no whitespace, and one taken from a fence holds no
   * fence itself.
   */
  lemma ExtractDiagramSpec(response: string)
    ensures ExtractDiagram(response).None? <==> forall i :: !ServerAiService.FoldMatch(response, i, "erdiagram")
    ensures ExtractDiagram(response).Some? ==>
              var code := ExtractDiagram(response).value;
              ServerAiService.FoldMatch(code, 0, "erdiagram") && EndsWithText(code)
    ensures ServerAiService.FencedBlock(response, 0, JsSpace).Some? ==>
              forall k :: !MatchAt(ExtractDiagram(response).value, "```", k)
  {
    match ServerAiService.FencedBlock(response, 0, JsSpace)
    case Some(g) =>
      assert ExtractDiagram(response) == Some(Trim(response[g.0..g.1]));
      FencedDiagram(response, g);
    case None =>
      match ServerAiService.FindFold(response, "erdiagram", 0)
      case Some(i) =>
        assert ExtractDiagram(response) == Some(Trim(response[i..]));
        UnfencedDiagram(response, i);
      case None =>
  }

  lemma FencedDiagram(response: string, g: (nat, nat))
    requires g.0 + 9 <= g.1 <= |response| && ServerAiService.FoldMatch(response, g.0, "erdiagram")
    requires forall k :: g.0 + 9 <= k < g.1 ==> !MatchAt(response, "```", k)
    ensures var code := Trim(response[g.0..g.1]);
            ServerAiService.FoldMatch(code, 0, "erdiagram") && EndsWithText(code)
            && forall k :: !MatchAt(code, "```", k)
  {
    var x := response[g.0..g.1];
    assert x[..9] == response[g.0..g.0 + 9];
    TrimKeepsHeader(x);
    FencedHasNoFence(response, g);
    NoFenceInPrefix(x, |Trim(x)|);
  }

  lemma UnfencedDiagram(response: string, i: nat)
    requires ServerAiService.FoldMatch(response, i, "erdiagram")
    ensures var code := Trim(response[i..]);
            ServerAiService.FoldMatch(code, 0, "erdiagram") && EndsWithText(code)
  {
    var x := response[i..];
    assert x[..9] == response[i..i + 9];
    TrimKeepsHeader(x);
  }

  /** The panel finds a diagram in exactly the replies the server-side extraction finds one in. */
  lemma PanelAndServerAgree(response: string)
    ensures ExtractDiagram(response).None? <==> ServerAiService.ExtractMermaidCode(response) == ""
  {
    ExtractDiagramSpec(response);
    ServerAiService.ExtractMermaidCodeSpec(response);
  }

  // ---------------------------------------------------------------------------------------
  // Dispatch (`getAIResponse`)

  /** The parent's callbacks. */
  datatype Update = SetSupplement(text: string) | SetMermaid(code: string) | ShowBackupManager

  /**
   * The services the panel calls: the proposal service (which may raise), the chat
   * completion behind `generateChatResponse`, and the generation prompt, rendered from the
   * message, the supplement's length and whether a diagram exists.
   */
  datatype Services = Services(
    propose: (string, WebUIData) -> Outcome<Modification.ModificationProposal>,
    complete: AiService.CompletionRequest -> Outcome<string>,
    generationPrompt: (string, nat, bool) -> string)

  datatype Turn = Turn(reply: string, posted: seq<ChatMessage>, calls: seq<Update>)

  datatype Route = Propose | WriteHistory | OpenBackup | Generate | GeneralChat

  /** The tests `getAIResponse` makes on the message, in order. */
  datatype Signals = Signals(modification: bool, write: bool, backup: bool, generation: bool)

  function SignalsOf(message: string): Signals
  {
    Signals(IsModificationRequest(message), StartsWith(message, "/write"), StartsWith(message, "/backup"),
            IsGenerationRequest(message))
  }

  function RouteOf(g: Signals): Route
  {
    if g.modification then Propose
    else if g.write then WriteHistory
    else if g.backup then OpenBackup
    else if g.generation then Generate
    else GeneralChat
  }

  /** Each handler runs exactly when its own test holds and no earlier one does. */
  lemma DispatchOrder(g: Signals)
    ensures RouteOf(g) == Propose <==> g.modification
    ensures RouteOf(g) == WriteHistory <==> !g.modification && g.write
    ensures RouteOf(g) == OpenBackup <==> !g.modification && !g.write && g.backup
    ensures RouteOf(g) == Generate <==> !g.modification && !g.write && !g.backup && g.generation
    ensures RouteOf(g) == GeneralChat <==> !g.modification && !g.write && !g.backup && !g.generation
  {
  }

  /** A message naming a table, relation, field or attribute asks for a proposal, even when it also asks to generate. */
  lemma ModelWordMeansProposal(message: string, i: nat)
    requires i < |ModelOnlyWords| && Contains(message, ModelOnlyWords[i])
    ensures RouteOf(SignalsOf(message)) == Propose
  {
    CaseIsIrrelevant(message);
    assert ModelModificationWords[|ModificationWords| + i] == ModelOnlyWords[i];
  }

  /** "テーブルを作って" is both a generation request and a modification request, and is handled as a modification. */
  lemma MakeTableIsModification()
    ensures IsGenerationRequest("テーブルを作って")
    ensures RouteOf(SignalsOf("テーブルを作って")) == Propose
  {
    var m := "テーブルを作って";
    assert m[5..8] == GenerationWords[0];
    assert MatchAt(m, GenerationWords[0], 5);
    assert m[0..5] == ModelOnlyWords[1];
    assert MatchAt(m, ModelOnlyWords[1], 0);
    ModelWordMeansProposal(m, 1);
  }

  const Greeting := ChatMessage("1", "こんにちは！データモデル設計専用AIアシスタントです。ER図の生成や質問にお答えします！✨\n\n🎯 **データモデル特化機能**:\n• Mermaid ER図生成・編集\n• エンティティ設計提案\n• リレーション最適化\n• データベース設計支援", false, Normal)

  const LoadingText := "🤖 データモデルAI生成中..."

  /** The reply of the outer `catch`: the only error that reaches it is the proposal service's. */
  function ResponseFailure(error: string): string
  {
    "❌ AI応答の生成に失敗しました。\n\n**エラー**: " + error
    + "\n\n**対処法**:\n- インターネット接続を確認\n- APIキーが正しく設定されているか確認\n- しばらく時間をおいて再試行"
  }

  function WriteReply(count: nat, timestamp: string): string
  {
    "✅ **チャット履歴を補足説明に書き込みました！**\n\n📝 **書き込み内容:**\n- 最新" + NatToString(count)
    + "件のメッセージ\n- タイムスタンプ: " + timestamp + "\n- 書き込み先: 補足説明セクション\n\n「補足説明」タブを確認してください。"
  }

  const DiagramGenerated := "🎨 " + "**ER図を生成しました！**\n\n📊 **データモデル**: Mermaid記法でER図を作成\n- 「データモデル」タブで確認してください\n\n🎉 新しいER図が生成されました！さらに修正や追加が必要でしたらお知らせください。"
  const DiagramFailure := "❌ ER図の生成に失敗しました。再度お試しください。"

  const ChatPreamble := "【重要】あなたはデータモデル設計書のWebUIにいます。どんな質問・要求でも必ずデータモデル設計の観点から回答してください。画面の話が出ても、それをデータモデル（エンティティ、リレーション、ER図等）の観点で回答してください。"

  function ProposeTurn(sv: Services, doc: ModelDocument, message: string, answered: nat): Turn
  {
    match sv.propose(message, CurrentData(doc))
    case Ok(proposal) => Turn(ProposalReply, [ProposalMessage(proposal, answered)], [])
    case Raised(e) => Turn(ResponseFailure(e), [], [])
  }

  function WriteTurn(doc: ModelDocument, snapshot: seq<ChatMessage>, timestamp: string): Turn
  {
    Turn(WriteReply(|Recent(snapshot)|, timestamp), [],
         [SetSupplement(Written(doc.supplement, History(timestamp, snapshot)))])
  }

  function BackupTurn(hasBackupManager: bool): Turn
  {
    if hasBackupManager then Turn(BackupOpened, [], [ShowBackupManager]) else Turn(BackupUnavailable, [], [])
  }

  /** The generation prompt as the template renders it for this message and document. */
  function GenerationPrompt(sv: Services, doc: ModelDocument, message: string): string
  {
    sv.generationPrompt(message, |doc.supplement|, doc.mermaid != "")
  }

  function GenerateTurn(sv: Services, doc: ModelDocument, message: string): Turn
  {
    var response := AiService.GenerateChatResponse(GenerationPrompt(sv, doc, message), CurrentData(doc), sv.complete);
    match ExtractDiagram(response)
    case Some(code) => Turn(DiagramGenerated, [], [SetMermaid(code)])
    case None => Turn(DiagramFailure, [], [])
  }

  function ChatTurn(sv: Services, doc: ModelDocument, message: string): Turn
  {
    Turn(AiService.GenerateChatResponse(ChatPreamble + "\n\n" + message, CurrentData(doc), sv.complete), [], [])
  }

  function Answer(g: Signals, hasBackupManager: bool, sv: Services, doc: ModelDocument, snapshot: seq<ChatMessage>,
                  message: string, answered: nat, timestamp: string): Turn
  {
    match RouteOf(g)
    case Propose => ProposeTurn(sv, doc, message, answered)
    case WriteHistory => WriteTurn(doc, snapshot, timestamp)
    case OpenBackup => BackupTurn(hasBackupManager)
    case Generate => GenerateTurn(sv, doc, message)
    case GeneralChat => ChatTurn(sv, doc, message)
  }

  /** `getAIResponse` on the message as typed (this panel resolves no mentions). */
  function Respond(hasBackupManager: bool, sv: Services, doc: ModelDocument, snapshot: seq<ChatMessage>,
                   message: string, answered: nat, timestamp: string): Turn
  {
    Answer(SignalsOf(message), hasBackupManager, sv, doc, snapshot, message, answered, timestamp)
  }

  /**
   * The Mermaid code is replaced only by a generation whose reply holds a diagram, and then
   * by a code that starts with `erDiagram`; a failed extraction leaves the document alone.
   */
  lemma DiagramOnlyFromReply(g: Signals, hasBackupManager: bool, sv: Services, doc: ModelDocument,
                             snapshot: seq<ChatMessage>, message: string, answered: nat, timestamp: string,
                             code: string)
    ensures var t := Answer(g, hasBackupManager, sv, doc, snapshot, message, answered, timestamp);
            SetMermaid(code) in t.calls ==>
              RouteOf(g) == Generate && ServerAiService.FoldMatch(code, 0, "erdiagram")
  {
    var t := Answer(g, hasBackupManager, sv, doc, snapshot, message, answered, timestamp);
    if RouteOf(g) == Generate {
      var response := AiService.GenerateChatResponse(GenerationPrompt(sv, doc, message), CurrentData(doc), sv.complete);
      assert t == GenerateTurn(sv, doc, message);
      ExtractDiagramSpec(response);
    } else if RouteOf(g) == WriteHistory {
      assert t == WriteTurn(doc, snapshot, timestamp);
    } else if RouteOf(g) == OpenBackup {
      assert t == BackupTurn(hasBackupManager);
    } else if RouteOf(g) == Propose {
      assert t == ProposeTurn(sv, doc, message, answered);
    } else {
      assert t.calls == [];
    }
  }

  /**
   * A generation replies with the success text exactly when the reply held a diagram, and
   * then sets the code to it; otherwise it replies with the failure text and calls nothing.
   */
  lemma GenerationReportsOutcome(sv: Services, doc: ModelDocument, message: string)
    ensures var response := AiService.GenerateChatResponse(GenerationPrompt(sv, doc, message), CurrentData(doc), sv.complete);
            var t := GenerateTurn(sv, doc, message);
            (t.reply == DiagramGenerated <==> ExtractDiagram(response).Some?)
            && (t.calls == [] <==> t.reply == DiagramFailure)
            && t.posted == []
  {
    assert DiagramGenerated != DiagramFailure by {
      assert DiagramGenerated[0] == '🎨';
    }
  }

  /** Whatever a handler posts is a reply-side message with the reply's id. */
  lemma AnswerPostsReplies(g: Signals, hasBackupManager: bool, sv: Services, doc: ModelDocument,
                           snapshot: seq<ChatMessage>, message: string, answered: nat, timestamp: string)
    ensures forall m :: m in Answer(g, hasBackupManager, sv, doc, snapshot, message, answered, timestamp).posted ==>
              m.id == ReplyId(answered) && !m.isUser
  {
    var t := Answer(g, hasBackupManager, sv, doc, snapshot, message, answered, timestamp);
    if RouteOf(g) == Propose {
      assert t == ProposeTurn(sv, doc, message, answered);
    } else if RouteOf(g) == WriteHistory {
      assert t == WriteTurn(doc, snapshot, timestamp);
    } else if RouteOf(g) == Generate {
      assert t == GenerateTurn(sv, doc, message);
    } else {
      assert t.posted == [];
    }
  }

  /** `getAIResponse` step by step: the message classified and the chosen handler run. */
  method GetAIResponse(hasBackupManager: bool, sv: Services, doc: ModelDocument, snapshot: seq<ChatMessage>,
                       message: string, answered: nat, timestamp: string) returns (t: Turn)
    ensures t == Respond(hasBackupManager, sv, doc, snapshot, message, answered, timestamp)
  {
    t := Dispatch(SignalsOf(message), hasBackupManager, sv, doc, snapshot, message, answered, timestamp);
  }

  /** The handlers of `getAIResponse` tried in order (the history write through `writeToMarkdown`). */
  method Dispatch(g: Signals, hasBackupManager: bool, sv: Services, doc: ModelDocument, snapshot: seq<ChatMessage>,
                  message: string, answered: nat, timestamp: string) returns (t: Turn)
    ensures t == Answer(g, hasBackupManager, sv, doc, snapshot, message, answered, timestamp)
  {
    if g.modification {
      assert RouteOf(g) == Propose;
      t := ProposeTurn(sv, doc, message, answered);
    } else if g.write {
      assert RouteOf(g) == WriteHistory;
      t := WriteHandler(doc, snapshot, timestamp);
    } else if g.backup {
      assert RouteOf(g) == OpenBackup;
      t := BackupTurn(hasBackupManager);
    } else if g.generation {
      assert RouteOf(g) == Generate;
      t := GenerateTurn(sv, doc, message);
    } else {
      assert RouteOf(g) == GeneralChat;
      t := ChatTurn(sv, doc, message);
    }
  }

  /** The `/write` handler: the history written into the supplement and the count reported. */
  method WriteHandler(doc: ModelDocument, snapshot: seq<ChatMessage>, timestamp: string) returns (t: Turn)
    ensures t == WriteTurn(doc, snapshot, timestamp)
  {
    var updated, count := WriteToMarkdown(doc.supplement, timestamp, snapshot);
    t := Turn(WriteReply(count, timestamp), [], [SetSupplement(updated)]);
  }

  // ---------------------------------------------------------------------------------------
  // Applying a proposal (`handleModificationProposal`)

  /** The callbacks for the fields that differ between the document before and after, supplement first. */
  function ChangedFields(before: WebUIData, after: WebUIData): seq<Update>
  {
    (if after.supplement != before.supplement then [SetSupplement(after.supplement)] else [])
    + (if after.mermaid != before.mermaid then [SetMermaid(after.mermaid)] else [])
  }

  /** The callbacks of an applied proposal, one per field that changed, in the order the panel calls them. */
  method SyncCalls(current: WebUIData, after: WebUIData) returns (calls: seq<Update>)
    ensures calls == ChangedFields(current, after)
  {
    calls := [];
    if after.supplement != current.supplement {
      calls := calls + [SetSupplement(after.supplement)];
    }
    if after.mermaid != current.mermaid {
      calls := calls + [SetMermaid(after.mermaid)];
    }
  }

  /** The parent's two fields once the callbacks have run. */
  function Received(doc: ModelDocument, calls: seq<Update>): ModelDocument
    decreases |calls|
  {
    if calls == [] then doc
    else
      var next := match calls[0]
        case SetSupplement(text) => doc.(supplement := text)
        case SetMermaid(code) => doc.(mermaid := code)
        case ShowBackupManager => doc;
      Received(next, calls[1..])
  }

  /**
   * A callback fires only for a field whose value changed, with the new value, and running
   * the callbacks brings the parent's fields to the updated document's.
   */
  lemma ChangedFieldsSync(doc: ModelDocument, after: WebUIData)
    ensures var calls := ChangedFields(CurrentData(doc), after);
            (forall u :: u in calls ==> u == SetSupplement(after.supplement) || u == SetMermaid(after.mermaid))
            && (SetSupplement(after.supplement) in calls <==> after.supplement != doc.supplement)
            && (SetMermaid(after.mermaid) in calls <==> after.mermaid != doc.mermaid)
            && Received(doc, calls) == ModelDocument(after.supplement, after.mermaid)
  {
    var calls := ChangedFields(CurrentData(doc), after);
    var s, m := SetSupplement(after.supplement), SetMermaid(after.mermaid);
    var target := ModelDocument(after.supplement, after.mermaid);
    if after.supplement != doc.supplement && after.mermaid != doc.mermaid {
      var d1 := doc.(supplement := after.supplement);
      assert calls == [s, m] && calls[1..] == [m] && [m][1..] == [];
      assert Received(doc, calls) == Received(d1, [m]);
      assert Received(d1, [m]) == Received(d1.(mermaid := after.mermaid), []);
    } else if after.supplement != doc.supplement {
      assert calls == [s] && calls[1..] == [];
    } else if after.mermaid != doc.mermaid {
      assert calls == [m] && calls[1..] == [];
    } else {
      assert calls == [];
    }
  }

  /** The callbacks an application fires: the changed fields on success, none on failure. */
  function ProposalCalls(doc: ModelDocument, result: Modification.ApplyResult): seq<Update>
  {
    if result.success && result.updatedData.Some? then ChangedFields(CurrentData(doc), Modification.Settled(result.updatedData.value))
    else []
  }

  /**
   * A proposal that fails to apply changes nothing in the parent and is reported as
   * rejected; one that applies is reported as applied.
   */
  lemma ProposalOutcome(proposal: Modification.ModificationProposal, doc: ModelDocument, now: nat)
    ensures var result := Modification.ApplyOutcome(CurrentData(doc), proposal.changes);
            (result.errors != [] ==> ProposalCalls(doc, result) == []
                                     && OutcomeMessage(proposal, result, now).kind == Rejected)
            && (result.errors == [] ==>
                  OutcomeMessage(proposal, result, now).kind == Applied
                  && result.updatedData.value.mermaidCode.JStr?
                  && Received(doc, ProposalCalls(doc, result))
                       == ModelDocument(result.updatedData.value.supplement, result.updatedData.value.mermaidCode.s))
  {
    var result := Modification.ApplyOutcome(CurrentData(doc), proposal.changes);
    if result.errors == [] {
      ChangedFieldsSync(doc, Modification.Settled(result.updatedData.value));
    }
  }

  // ---------------------------------------------------------------------------------------
  // The panel's message list

  class ModelPanel {
    var messages: seq<ChatMessage>

    /** No placeholder is left in the list between turns. */
    predicate Valid()
      reads this
    {
      forall m :: m in messages ==> m.id != LoadingId
    }

    constructor()
      ensures messages == [Greeting] && Valid()
    {
      messages := [Greeting];
    }

    /**
     * `handleSendMessage`: the user's message and a placeholder are appended, the answer is
     * computed from the messages as they were before the send, and the placeholder is
     * replaced by the reply after whatever was posted meanwhile.
     */
    method HandleSendMessage(hasBackupManager: bool, sv: Services, doc: ModelDocument, message: string, sent: nat,
                             answered: nat, timestamp: string) returns (calls: seq<Update>)
      requires Valid()
      modifies this
      ensures Valid()
      ensures var t := Respond(hasBackupManager, sv, doc, old(messages), message, answered, timestamp);
              calls == t.calls
              && messages == old(messages) + [UserMessage(message, sent)] + t.posted + [ReplyMessage(t.reply, answered)]
    {
      var snapshot := messages;
      var user, loading := UserMessage(message, sent), Placeholder(LoadingText);
      messages := messages + [user];
      messages := messages + [loading];
      var t := GetAIResponse(hasBackupManager, sv, doc, snapshot, message, answered, timestamp);
      AnswerPostsReplies(SignalsOf(message), hasBackupManager, sv, doc, snapshot, message, answered, timestamp);
      messages := messages + t.posted;
      var reply := ReplyMessage(t.reply, answered);
      SendTurn(snapshot, user, loading, t.posted, reply);
      messages := Settled(messages, reply);
      calls := t.calls;
    }

    /**
     * `handleModificationProposal`: the document is backed up and the proposal applied; the
     * changed fields are handed to the parent and the outcome is reported in one message.
     */
    method HandleModificationProposal(proposal: Modification.ModificationProposal, doc: ModelDocument,
                                      store: Backup.BackupStore, now: nat, nonce: string, shownTime: string)
      returns (calls: seq<Update>)
      requires Valid()
      modifies this, store
      ensures Valid()
      ensures var result := Modification.ApplyOutcome(CurrentData(doc), proposal.changes);
              calls == ProposalCalls(doc, result)
              && messages == old(messages) + [OutcomeMessage(proposal, result, now)]
      ensures var id := "auto_" + IntToString(now) + "_" + nonce;
              Backup.CleanedUp(old(store.items)[Backup.StorageKey(id) :=
                Backup.Saved(Backup.AutoBackup(id, CurrentData(doc), "修正提案適用前のバックアップ", Some(proposal.id), now, shownTime))],
                store.items)
    {
      var current := CurrentData(doc);
      var result := Modification.ApplyModificationProposal(proposal, current, store, now, nonce, shownTime);
      calls := [];
      if result.success && result.updatedData.Some? {
        calls := SyncCalls(current, Modification.Settled(result.updatedData.value));
      }
      messages := messages + [OutcomeMessage(proposal, result, now)];
    }

    /** `handleRejectProposal`: one `rejected` message; the document is left alone. */
    method HandleRejectProposal(now: nat)
      requires Valid()
      modifies this
      ensures Valid()
      ensures messages == old(messages) + [ChatMessage(IdAt(now), RejectText, false, Rejected)]
    {
      messages := messages + [ChatMessage(IdAt(now), RejectText, false, Rejected)];
    }
  }
}
