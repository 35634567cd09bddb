/**
 * What the three chat panels share: the chat message, the writer that copies the latest
 * messages into a Markdown field under a fixed heading, and the protocol that shows a
 * "loading" placeholder while a reply is awaited and then swaps it for the reply.
 */
module ChatShared {
  import opened Text
  import Lists
  import Modification
  import Json

  /**
   * How a message is rendered (its `type`): none for plain messages, a proposal card that
   * carries the proposal its buttons apply, an action selection that carries the request it
   * was offered for.
   */
  datatype MessageKind =
    | Plain
    | Normal
    | ProposalCard(proposal: Modification.ModificationProposal)
    | Applied
    | Rejected
    | ActionSelection(originalMessage: string)

  datatype ChatMessage = ChatMessage(id: string, content: string, isUser: bool, kind: MessageKind)

  // ---------------------------------------------------------------------------------------
  // Request classification

  /** The phrases both design panels take as a request to modify the document. */
  const ModificationWords: seq<string> :=
    ["追加して", "変更して", "修正して", "削除して", "更新して",
     "改善して", "強化して", "見直して", "調整して", "に変えて",
     "を加えて", "を含めて", "を外して", "を消して"]

  /** Lower-casing a lower-cased text changes nothing. */
  lemma LowerTwice(s: string)
    ensures Lower(Lower(s)) == Lower(s)
  {
  }

  /** A text without ASCII capitals is its own lower case. */
  lemma LowerWithoutCapitals(s: string)
    requires forall i :: 0 <= i < |s| ==> !('A' <= s[i] <= 'Z')
    ensures Lower(s) == s
  {
  }

  // ---------------------------------------------------------------------------------------
  // The chat-history writer (`writeToMarkdown`)

  /** The heading the history is written under. */
  const Marker := "### CopilotKitからの書き込み"

  /** What is appended to a field that has no heading yet. */
  const SectionIntro := "\n\n" + Marker + "\n"

  /** `messages.slice(-6)`: the last six messages, or all of them when there are fewer. */
  function Recent(messages: seq<ChatMessage>): (r: seq<ChatMessage>)
    ensures |r| == if |messages| < 6 then |messages| else 6
    ensures r == messages[|messages| - |r|..]
  {
    if |messages| < 6 then messages else messages[|messages| - 6..]
  }

  /** A message's text as the history shows it: the first 100 characters, and `...` when more followed. */
  function Snippet(content: string): string
  {
    Prefix(content, 100) + (if |content| > 100 then "..." else "")
  }

  /** A short message is shown whole; a long one by its first 100 characters and an ellipsis. */
  lemma SnippetShape(content: string)
    ensures |content| <= 100 ==> Snippet(content) == content
    ensures |content| > 100 ==>
              |Snippet(content)| == 103 && Snippet(content)[..100] == content[..100]
              && Snippet(content)[100..] == "..."
  {
  }

  function Speaker(isUser: bool): string
  {
    if isUser then "👤 ユーザー" else "🤖 アシスタント"
  }

  /** One history line: `- **<speaker>**: <snippet>`. */
  function Bullet(m: ChatMessage): string
  {
    "- **" + Speaker(m.isUser) + "**: " + Snippet(m.content) + "\n"
  }

  /** The texts `line` gives for `xs`, one after another in order. */
  function Lines<T>(xs: seq<T>, line: T -> string): string
  {
    if xs == [] then "" else Lines(xs[..|xs| - 1], line) + line(xs[|xs| - 1])
  }

  /** The lines of a longer prefix extend those of the shorter one by one line. */
  lemma LinesSnoc<T>(xs: seq<T>, k: nat, n: nat, line: T -> string)
    requires 0 < n <= |xs| && k == n - 1
    ensures Lines(xs[..n], line) == Lines(xs[..k], line) + line(xs[k])
  {
    assert xs[..n][..k] == xs[..k];
  }

  function HistoryHead(timestamp: string): string
  {
    "\n**" + timestamp + " のチャット履歴:**\n"
  }

  const HistoryEnd := "\n---\n"

  /** The block one write adds: a dated head, a line per recent message, a rule. */
  function History(timestamp: string, messages: seq<ChatMessage>): string
  {
    HistoryHead(timestamp) + Lines(Recent(messages), Bullet) + HistoryEnd
  }

  /** The history closes with the newest message's line (when there is a message) and the rule. */
  lemma HistoryEndsWithLatest(timestamp: string, messages: seq<ChatMessage>)
    requires messages != []
    ensures var h := History(timestamp, messages);
            var tail := Bullet(messages[|messages| - 1]) + HistoryEnd;
            |tail| <= |h| && h[|h| - |tail|..] == tail
  {
    var recent := Recent(messages);
    var last := messages[|messages| - 1];
    assert recent == messages[|messages| - |recent|..];
    var head, end := HistoryHead(timestamp), HistoryEnd;
    var before := Lines(recent[..|recent| - 1], Bullet);
    LinesLast(recent, Bullet);
    var b := Bullet(last);
    Regroup4(head, before, b, end);
    EndsWith(head + before, b + end);
  }

  /** The lines of a non-empty list end with its last element's line. */
  lemma LinesLast<T>(xs: seq<T>, line: T -> string)
    requires xs != []
    ensures Lines(xs, line) == Lines(xs[..|xs| - 1], line) + line(xs[|xs| - 1])
  {
  }

  lemma Regroup4(a: string, b: string, c: string, d: string)
    ensures a + (b + c) + d == (a + b) + (c + d)
  {
  }

  lemma EndsWith(p: string, t: string)
    ensures |t| <= |p + t| && (p + t)[|p + t| - |t|..] == t
  {
  }

  /** Joining one piece gives that piece. */
  lemma JoinOne(parts: seq<string>, sep: string)
    requires |parts| == 1
    ensures Join(parts, sep) == parts[0]
  {
  }

  /** Joining two or more pieces puts the separator after the first. */
  lemma JoinCons(parts: seq<string>, sep: string)
    requires |parts| >= 2
    ensures Join(parts, sep) == parts[0] + sep + Join(parts[1..], sep)
  {
  }

  /** A text holding the separator splits around it into at least two pieces. */
  lemma SplitFoundAt(text: string, sep: string)
    requires |sep| > 0 && Contains(text, sep)
    ensures |Split(text, sep)| >= 2
  {
    var parts := Split(text, sep);
    assert Join(parts, sep) == text && !Contains(parts[0], sep);
    if |parts| < 2 {
      JoinOne(parts, sep);
    }
  }

  /** A text holding the heading splits around it into at least two pieces. */
  lemma SplitFound(text: string)
    requires Contains(text, Marker)
    ensures |Split(text, Marker)| >= 2
  {
    SplitFoundAt(text, Marker);
  }

  /**
   * The field after a write: without the heading, the heading and then the history are
   * appended; with it, the text is split at every heading and rebuilt from the first two
   * pieces only, followed by the history.
   */
  function Written(text: string, history: string): string
  {
    if !Contains(text, Marker) then text + SectionIntro + history
    else
      SplitFound(text);
      var parts := Split(text, Marker);
      parts[0] + Marker + parts[1] + history
  }

  /** A field without the heading gets the heading once, followed by the history. */
  lemma WrittenAddsSection(text: string, history: string)
    requires !Contains(text, Marker)
    ensures Written(text, history) == text + SectionIntro + history
    ensures Contains(Written(text, history), Marker)
  {
    assert text + SectionIntro + history == (text + "\n\n") + Marker + ("\n" + history);
    ContainsInfix(text + "\n\n", Marker, "\n" + history);
  }

  /** With exactly one heading the field is kept whole and the history is appended after it. */
  lemma WrittenAppends(text: string, history: string)
    requires Contains(text, Marker) && |Split(text, Marker)| == 2
    ensures Written(text, history) == text + history
  {
    var parts := Split(text, Marker);
    JoinCons(parts, Marker);
    JoinOne(parts[1..], Marker);
  }

  /** Two or more pieces joined: the first two, the separator, and the join of the rest. */
  lemma JoinFirstTwo(parts: seq<string>, sep: string)
    requires |parts| >= 3
    ensures Join(parts, sep) == parts[0] + sep + parts[1] + sep + Join(parts[2..], sep)
  {
    JoinCons(parts, sep);
    JoinCons(parts[1..], sep);
    assert parts[1..][1..] == parts[2..];
  }

  /**
   * With a second heading everything from the second heading on is lost: the field was the
   * first two pieces, the heading and a rest, and the write keeps only the first two pieces.
   */
  lemma WrittenLosesAfterSecondHeading(text: string, history: string)
    requires Contains(text, Marker) && |Split(text, Marker)| >= 3
    ensures var parts := Split(text, Marker);
            text == parts[0] + Marker + parts[1] + Marker + Join(parts[2..], Marker)
            && Written(text, history) == parts[0] + Marker + parts[1] + history
  {
    JoinFirstTwo(Split(text, Marker), Marker);
  }

  /** After any write the field holds the heading. */
  lemma WrittenHasHeading(text: string, history: string)
    ensures Contains(Written(text, history), Marker)
  {
    if !Contains(text, Marker) {
      WrittenAddsSection(text, history);
    } else {
      SplitFound(text);
      var parts := Split(text, Marker);
      WrittenRebuilt(text, history, parts);
      ContainsSecond(parts[0], Marker, parts[1], history);
    }
  }

  lemma WrittenRebuilt(text: string, history: string, parts: seq<string>)
    requires Contains(text, Marker) && parts == Split(text, Marker) && |parts| >= 2
    ensures Written(text, history) == parts[0] + Marker + parts[1] + history
  {
  }

  /** The second of four pieces is found in their concatenation. */
  lemma ContainsSecond(a: string, m: string, b: string, c: string)
    ensures Contains(a + m + b + c, m)
  {
    ContainsInfix(a, m, b + c);
    assert a + m + b + c == a + m + (b + c);
  }

  /** The `forEach` that appends one line per element to a text. */
  method AppendLines<T>(head: string, xs: seq<T>, line: T -> string) returns (text: string)
    ensures text == head + Lines(xs, line)
  {
    text := head;
    var i := 0;
    while i < |xs|
      invariant i <= |xs|
      invariant text == head + Lines(xs[..i], line)
    {
      text := text + line(xs[i]);
      ghost var k := i;
      i := i + 1;
      LinesSnoc(xs, k, i, line);
    }
    assert xs[..|xs|] == xs;
  }

  /**
   * `writeToMarkdown`: builds the history line by line from the latest messages and writes
   * it into `text`; also returns how many messages it took.
   */
  method WriteToMarkdown(text: string, timestamp: string, messages: seq<ChatMessage>)
    returns (updated: string, count: nat)
    ensures updated == Written(text, History(timestamp, messages))
    ensures count == |Recent(messages)| && count <= 6
  {
    var recent := Recent(messages);
    var history := AppendLines(HistoryHead(timestamp), recent, Bullet);
    history := history + HistoryEnd;
    updated := Written(text, history);
    count := |recent|;
  }

  // ---------------------------------------------------------------------------------------
  // The loading placeholder

  const LoadingId := "loading"

  /** `messages.filter(msg => msg.id !== 'loading')`. */
  function WithoutLoading(messages: seq<ChatMessage>): seq<ChatMessage>
  {
    Lists.Filter(messages, (m: ChatMessage) => m.id != LoadingId)
  }

  /** The list once the reply has arrived: every placeholder removed, the reply appended. */
  function Settled(messages: seq<ChatMessage>, reply: ChatMessage): seq<ChatMessage>
  {
    WithoutLoading(messages) + [reply]
  }

  /**
   * After the reply arrives no placeholder remains, the reply is last, and every other
   * message is still there.
   */
  lemma SettledShape(messages: seq<ChatMessage>, reply: ChatMessage)
    requires reply.id != LoadingId
    ensures forall m :: m in Settled(messages, reply) ==> m.id != LoadingId
    ensures Settled(messages, reply)[|Settled(messages, reply)| - 1] == reply
    ensures forall m :: m in messages && m.id != LoadingId ==> m in Settled(messages, reply)
    ensures forall m :: m in Settled(messages, reply) ==> m in messages || m == reply
  {
  }

  /**
   * One turn: with no placeholder before it, the list ends up as the earlier messages, the
   * user's message, whatever was posted while waiting, and the reply.
   */
  lemma {:induction false} SettledTurn(before: seq<ChatMessage>, user: ChatMessage, loading: ChatMessage,
                                       posted: seq<ChatMessage>, reply: ChatMessage)
    requires forall m :: m in before ==> m.id != LoadingId
    requires forall m :: m in posted ==> m.id != LoadingId
    requires user.id != LoadingId && loading.id == LoadingId
    ensures Settled(before + [user, loading] + posted, reply) == before + [user] + posted + [reply]
  {
    FilterDropsOne(before, user, loading, posted, (m: ChatMessage) => m.id != LoadingId);
  }

  /**
   * A whole turn as the panels perform it, one append at a time: the list ends up as the
   * earlier messages, the user's message, whatever was posted, and the reply, with no
   * placeholder left.
   */
  lemma SendTurn(before: seq<ChatMessage>, user: ChatMessage, loading: ChatMessage, posted: seq<ChatMessage>,
                 reply: ChatMessage)
    requires forall m :: m in before ==> m.id != LoadingId
    requires forall m :: m in posted ==> m.id != LoadingId
    requires user.id != LoadingId && loading.id == LoadingId && reply.id != LoadingId
    ensures Settled(before + [user] + [loading] + posted, reply) == before + [user] + posted + [reply]
    ensures forall m :: m in before + [user] + posted + [reply] ==> m.id != LoadingId
  {
    assert before + [user] + [loading] + posted == before + [user, loading] + posted;
    SettledTurn(before, user, loading, posted, reply);
  }

  /** Filtering out exactly one element between two kept runs removes just that element. */
  lemma {:induction false} FilterDropsOne<T(!new)>(before: seq<T>, x: T, y: T, after: seq<T>, keep: T -> bool)
    requires forall m :: m in before ==> keep(m)
    requires forall m :: m in after ==> keep(m)
    requires keep(x) && !keep(y)
    ensures Lists.Filter(before + [x, y] + after, keep) == before + [x] + after
  {
    assert before + [x, y] + after == (before + [x]) + ([y] + after);
    Lists.FilterConcat(before + [x], [y] + after, keep);
    Lists.FilterAll(before + [x], keep);
    Lists.FilterConcat([y], after, keep);
    Lists.FilterNone([y], keep);
    Lists.FilterAll(after, keep);
    assert [] + after == after;
  }

  /** The id of a message created at clock time `now` (`Date.now().toString()`). */
  function IdAt(now: nat): (r: string)
    ensures r != LoadingId
  {
    var r := NatToString(now);
    assert '0' <= r[0] <= '9';
    r
  }

  /** The id of the reply (`(Date.now() + 1).toString()`): never the placeholder's. */
  function ReplyId(now: nat): (r: string)
    ensures r != LoadingId
  {
    IdAt(now + 1)
  }

  /** The user's message and the assistant's reply created at clock time `now` have different ids. */
  lemma UserAndReplyIdsDiffer(now: nat)
    ensures IdAt(now) != ReplyId(now)
  {
    NatToStringRoundTrip(now);
    NatToStringRoundTrip(now + 1);
  }

  function UserMessage(text: string, now: nat): ChatMessage
  {
    ChatMessage(IdAt(now), text, true, Plain)
  }

  function Placeholder(text: string): ChatMessage
  {
    ChatMessage(LoadingId, text, false, Plain)
  }

  function ReplyMessage(text: string, now: nat): ChatMessage
  {
    ChatMessage(ReplyId(now), text, false, Plain)
  }

  // ---------------------------------------------------------------------------------------
  // Texts both design panels use

  const ProposalReply := "修正提案を確認してください。適用する場合は「適用」ボタンをクリックしてください。"

  /** The proposal card: its heading and summary (the per-change lines are not modelled). */
  function ProposalMessage(proposal: Modification.ModificationProposal, answered: nat): ChatMessage
  {
    ChatMessage(ReplyId(answered), "🎯 **修正提案を生成しました**\n\n📋 **概要**: " + proposal.summary,
                false, ProposalCard(proposal))
  }

  const BackupOpened := "🔄 **バックアップ管理画面を開きました**\n\nバックアップの作成・復元・削除が可能です。"
  const BackupUnavailable := "⚠️ **バックアップ管理機能は現在利用できません**\n\n管理機能の設定を確認してください。"

  // ---------------------------------------------------------------------------------------
  // Reporting a proposal's application (`handleModificationProposal`, `handleRejectProposal`)

  /** One line of the applied-message: the change's target, action and reason. */
  function ChangeLine(c: Modification.ProposedChange): string
  {
    "- " + Json.ToJsString(c.target) + ": " + Json.ToJsString(c.action) + " - " + c.reason
  }

  function ChangeLines(cs: seq<Modification.ProposedChange>): (r: seq<string>)
    ensures |r| == |cs| && forall i :: 0 <= i < |cs| ==> r[i] == ChangeLine(cs[i])
  {
    if cs == [] then [] else [ChangeLine(cs[0])] + ChangeLines(cs[1..])
  }

  /** The message that reports an application: `applied` with the changes on success, `rejected` with the errors otherwise. */
  function OutcomeMessage(proposal: Modification.ModificationProposal, result: Modification.ApplyResult, now: nat)
    : ChatMessage
  {
    if result.success && result.updatedData.Some? then
      ChatMessage(IdAt(now), "✅ **修正提案を適用しました！**\n\n📋 **変更概要**: " + proposal.summary
                  + "\n\n🎯 **適用された変更**:\n" + Join(ChangeLines(proposal.changes), "\n")
                  + "\n\n各タブでハイライトされた変更箇所を確認してください。", false, Applied)
    else
      ChatMessage(IdAt(now), "❌ **修正提案の適用に失敗しました**\n\n**エラー**:\n" + Join(result.errors, "\n")
                  + "\n\nバックアップから手動で復元してください。", false, Rejected)
  }

  const RejectText := "❌ **修正提案を拒否しました**\n\n提案は適用されませんでした。"
}
