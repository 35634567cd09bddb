/**
 * The modification-proposal engine: an AI proposal is a list of edit commands on the
 * document's two Markdown fields, its Mermaid text and its first sheet. The commands are
 * applied in order to a copy of the document; a command with an unknown target becomes an
 * error entry and the following commands still run.
 */
module Modification {
  import opened Wrappers
  import opened DocData
  import opened Text
  import Json
  import Backup

  /** What `x || ''` leaves: a string, or a truthy value of another type. */
  type Content = v: Json.Json | v.JStr? || Json.Truthy(v) witness Json.JStr("")

  /**
   * A change as the normalisation leaves it. `target`, `action`, `originalContent` and
   * `newContent` keep the parsed value: the switches compare the first two with `===`, the
   * third is tested for truthiness before it is searched for as text, and the Mermaid edits
   * store the fourth as it is. `location` and `reason` only ever appear inside template
   * strings, so they are kept as the text they render as.
   */
  datatype ProposedChange = ProposedChange(
    target: Json.Json,
    action: Json.Json,
    location: string,
    originalContent: Json.Json,
    newContent: Content,
    reason: string,
    confidence: Json.JsNumber)

  datatype ModificationRequest = ModificationRequest(changeDescription: string, context: WebUIData, timestamp: int)

  datatype ModificationProposal = ModificationProposal(
    id: string,
    request: ModificationRequest,
    changes: seq<ProposedChange>,
    summary: string,
    risks: Json.Json,
    timestamp: int)

  /**
   * `updatedData`, the deep copy the changes edit in place. The Markdown fields and the
   * sheets only ever receive strings and sheet lists; the Mermaid slot holds whatever a
   * Mermaid change last stored there: the text it built, or the change's raw `newContent`.
   */
  datatype UpdatedData = UpdatedData(
    conditions: string,
    supplement: string,
    sheets: seq<Sheet>,
    mockup: Option<string>,
    mermaidCode: Content)

  /** `JSON.parse(JSON.stringify(currentData))`: the copy starts with the document's own Mermaid text. */
  function CopyOf(d: WebUIData): UpdatedData
  {
    UpdatedData(d.conditions, d.supplement, d.sheets, d.mockup, Json.JStr(d.mermaid))
  }

  /**
   * The document the panels read from `updatedData` after a successful run. A successful run
   * always leaves text in the Mermaid slot (`ApplyOutcome`), which is then read unchanged.
   */
  function Settled(u: UpdatedData): (d: WebUIData)
    ensures u.mermaidCode.JStr? ==> CopyOf(d) == u
  {
    WebUIData(u.conditions, u.supplement, u.sheets, u.mockup, Json.ToJsString(u.mermaidCode))
  }

  /** `{ success, updatedData, errors }` returned by `applyModificationProposal`. */
  datatype ApplyResult = ApplyResult(success: bool, updatedData: Option<UpdatedData>, errors: seq<string>)

  datatype MarkdownField = ConditionsField | SupplementField

  /** `**[DRAFT]** <content> **(<note>)**`, the highlight every AI edit carries. */
  function Highlight(content: string, note: string): string
  {
    "**[DRAFT]** " + content + " **(" + note + ")**"
  }

  /** `${change.newContent}`: the text a template string renders the new content as. */
  function NewText(change: ProposedChange): string
  {
    Json.ToJsString(change.newContent)
  }

  /** `change.action === a`: only the string `a` itself matches. */
  predicate IsAction(change: ProposedChange, a: string)
  {
    change.action == Json.JStr(a)
  }

  /** The text `includes` and `replace` search for: `String(change.originalContent)`. */
  function Original(change: ProposedChange): string
  {
    Json.ToJsString(change.originalContent)
  }

  /** `change.originalContent && current.includes(change.originalContent)`. */
  predicate Locates(current: string, change: ProposedChange)
  {
    Json.Truthy(change.originalContent) && Contains(current, Original(change))
  }

  /** The new value of a Markdown field under one change (`applyMarkdownChange`). */
  function MarkdownEdit(current: string, change: ProposedChange): (r: string)
    ensures !IsAction(change, "add") && !IsAction(change, "modify") && !IsAction(change, "delete") ==> r == current
    ensures IsAction(change, "add") ==> |current| <= |r| && r[..|current|] == current
    ensures IsAction(change, "delete") && !Locates(current, change) ==> r == current
    ensures IsAction(change, "modify") && !Locates(current, change) ==>
              |current| <= |r| && r[..|current|] == current
  {
    if IsAction(change, "add") then
      current + "\n\n" + Highlight(NewText(change), "AI追加")
    else if IsAction(change, "modify") then
      if Locates(current, change)
      then ReplaceFirst(current, Original(change), Highlight(NewText(change), "AI修正"))
      else current + "\n\n" + Highlight(NewText(change), "AI修正")
    else if IsAction(change, "delete") then
      if Locates(current, change)
      then ReplaceFirst(current, Original(change), "~~" + Original(change) + "~~ **(AI削除提案)**")
      else current
    else current
  }

  /**
   * The change stores its raw `newContent` into Mermaid text `current`: an `add` to blank code,
   * or a `modify` that does not locate its text.
   */
  predicate StoresNewContent(current: string, change: ProposedChange)
  {
    (IsAction(change, "add") && Trim(current) == "") || (IsAction(change, "modify") && !Locates(current, change))
  }

  /** The change leaves a value that is not a string in the Mermaid slot. */
  predicate StoresRaw(current: string, change: ProposedChange)
  {
    StoresNewContent(current, change) && !change.newContent.JStr?
  }

  /**
   * The value `applyMermaidChange` stores when the Mermaid slot holds the text `current`:
   * new text built from it, or the change's `newContent` as it is.
   */
  function MermaidEdit(current: string, change: ProposedChange): (r: Json.Json)
    ensures r.JStr? || Json.Truthy(r)
    ensures !IsAction(change, "add") && !IsAction(change, "modify") && !IsAction(change, "delete") ==> r == Json.JStr(current)
    ensures StoresNewContent(current, change) ==> r == change.newContent
    ensures !StoresNewContent(current, change) ==> r.JStr?
  {
    if IsAction(change, "add") then
      if Trim(current) != "" then Json.JStr(current + "\n\n" + NewText(change)) else change.newContent
    else if IsAction(change, "modify") then
      if Locates(current, change)
      then Json.JStr(ReplaceFirst(current, Original(change), NewText(change)))
      else change.newContent
    else if IsAction(change, "delete") then
      if Locates(current, change)
      then Json.JStr(ReplaceFirst(current, Original(change), ""))
      else Json.JStr("")
    else Json.JStr(current)
  }

  /** `${error}` for the TypeError a call of a missing method raises. */
  function NotAFunction(callee: string): string
  {
    "TypeError: " + callee + " is not a function"
  }

  const TrimError := NotAFunction("currentContent.trim")
  const IncludesError := NotAFunction("currentContent.includes")
  const ReplaceError := NotAFunction("currentContent.replace")
  /** The log line after a Mermaid change calls `data.mermaidCode?.substring(0, 100)`. */
  const SubstringError := NotAFunction("data.mermaidCode?.substring")

  /** The TypeErrors a Mermaid change can raise. */
  predicate MermaidError(m: string)
  {
    m == TrimError || m == IncludesError || m == ReplaceError || m == SubstringError
  }

  /**
   * `applyMermaidChange` when an earlier change left the non-string `current` in the slot:
   * `add` calls `trim` on it and throws; `modify` and `delete` search it only for a truthy
   * `originalContent`, where only an array has `includes` and none has `replace`; any other
   * action leaves it.
   */
  function MermaidEditValue(current: Content, change: ProposedChange): (r: Outcome<Json.Json>)
    requires !current.JStr?
    ensures r.Ok? ==> r.value.JStr? || Json.Truthy(r.value)
    ensures r.Raised? ==> MermaidError(r.message) && r.message != SubstringError
    ensures IsAction(change, "add") ==> r == Raised(TrimError)
    ensures (IsAction(change, "modify") || IsAction(change, "delete")) && !Json.Truthy(change.originalContent) ==>
              r.Ok? && r.value == (if IsAction(change, "modify") then change.newContent else Json.JStr(""))
  {
    if IsAction(change, "add") then Raised(TrimError)
    else if IsAction(change, "modify") || IsAction(change, "delete") then
      var fallback := if IsAction(change, "modify") then change.newContent else Json.JStr("");
      if !Json.Truthy(change.originalContent) then Ok(fallback)
      else if !current.JArr? then Raised(IncludesError)
      else if Json.ArrayIncludes(current.items, change.originalContent) then Raised(ReplaceError)
      else Ok(fallback)
    else Ok(current)
  }

  /** `applyMermaidChange` on the slot: the value it stores, or the TypeError it raises first. */
  function MermaidStore(slot: Content, change: ProposedChange): (r: Outcome<Json.Json>)
    ensures slot.JStr? ==> r == Ok(MermaidEdit(slot.s, change)) && (r.value.JStr? <==> !StoresRaw(slot.s, change))
    ensures r.Ok? ==> r.value.JStr? || Json.Truthy(r.value)
  {
    if slot.JStr? then Ok(MermaidEdit(slot.s, change)) else MermaidEditValue(slot, change)
  }

  /** `Math.max(...cells.map(cell => cell.r))`. */
  function MaxRow(cells: seq<Cell>): (m: int)
    requires |cells| > 0
    ensures forall i :: 0 <= i < |cells| ==> cells[i].r <= m
    ensures exists i :: 0 <= i < |cells| && cells[i].r == m
  {
    if |cells| == 1 then cells[0].r
    else
      var m := MaxRow(cells[..|cells| - 1]);
      assert forall i :: 0 <= i < |cells| - 1 ==> cells[..|cells| - 1][i] == cells[i];
      if cells[|cells| - 1].r > m then cells[|cells| - 1].r else m
  }

  /** The row the next appended cell goes to: one below the lowest used row, or 0. */
  function NextRow(cells: seq<Cell>): int
  {
    if |cells| > 0 then MaxRow(cells) + 1 else 0
  }

  /** The sheet a spreadsheet change creates when the document has none. */
  const NewSheet: Sheet := Sheet("AI修正シート", Some([]), 1, 1)

  /** The new sheets under one change (`applySpreadsheetChange`). */
  function SpreadsheetEdit(sheets: seq<Sheet>, change: ProposedChange): (r: seq<Sheet>)
    ensures |r| == if |sheets| == 0 then 1 else |sheets|
    ensures !IsAction(change, "add") && sheets != [] ==> r == sheets
    ensures sheets != [] ==> r[1..] == sheets[1..]
  {
    var base := if |sheets| == 0 then [NewSheet] else sheets;
    if !IsAction(change, "add") then base
    else
      var sheet := base[0];
      var cells := sheet.celldata.GetOr([]);
      var next := NextRow(cells);
      var rows := if sheet.row == 0 then 1 else sheet.row;
      [sheet.(celldata := Some(cells + [Cell(next, 0, "[DRAFT] " + NewText(change))]),
              row := if rows >= next + 1 then rows else next + 1)]
      + base[1..]
  }

  /** A spreadsheet `add` appends one cell in column 0 below every existing cell, and grows the row count to cover it. */
  lemma SpreadsheetAddAppendsBelow(sheets: seq<Sheet>, change: ProposedChange)
    requires IsAction(change, "add")
    ensures var r := SpreadsheetEdit(sheets, change);
            var before := if |sheets| == 0 then [] else sheets[0].celldata.GetOr([]);
            && |r| == (if |sheets| == 0 then 1 else |sheets|)
            && r[0].celldata.Some?
            && r[0].celldata.value[..|before|] == before
            && |r[0].celldata.value| == |before| + 1
            && r[1..] == (if |sheets| == 0 then [] else sheets[1..])
            && (var added := r[0].celldata.value[|before|];
                && added.c == 0 && added.v == "[DRAFT] " + NewText(change)
                && (forall i :: 0 <= i < |before| ==> before[i].r < added.r)
                && r[0].row >= added.r + 1)
  {
  }

  /** Spreadsheet changes other than `add` only supply the missing sheet. */
  lemma SpreadsheetOtherActionsAddNothing(sheets: seq<Sheet>, change: ProposedChange)
    requires !IsAction(change, "add")
    ensures |sheets| > 0 ==> SpreadsheetEdit(sheets, change) == sheets
    ensures |sheets| == 0 ==> SpreadsheetEdit(sheets, change) == [NewSheet]
  {
  }

  /** The targets `applyIndividualChange` handles; only these strings match its `case` labels. */
  predicate KnownTarget(target: Json.Json)
  {
    target in {Json.JStr("conditions"), Json.JStr("supplement"), Json.JStr("supplementary"),
               Json.JStr("spreadsheet"), Json.JStr("mermaid")}
  }

  /** What `${error}` prints for the error an unknown target throws. */
  function UnknownTargetError(target: Json.Json): string
  {
    "Error: 未対応のターゲット: " + Json.ToJsString(target)
  }

  /** The copy after one change, and the error it threw, if any. */
  datatype Step = Step(data: UpdatedData, error: Option<string>)

  /**
   * One change applied to the copy (`applyIndividualChange`). An unknown target throws before
   * anything changes. A Mermaid change can throw a TypeError from `applyMermaidChange`, before
   * it stores anything, or from the log line after it, once the value it stored is not a
   * string: that value stays in the copy.
   */
  function ApplyChange(w: UpdatedData, change: ProposedChange): (r: Step)
    ensures !KnownTarget(change.target) ==> r == Step(w, Some(UnknownTargetError(change.target)))
    ensures KnownTarget(change.target) && change.target != Json.JStr("mermaid") ==> r.error.None?
    ensures change.target == Json.JStr("mermaid") && r.error.Some? ==> MermaidError(r.error.value)
    ensures change.target == Json.JStr("mermaid") && w.mermaidCode.JStr? ==>
              r == Step(w.(mermaidCode := MermaidEdit(w.mermaidCode.s, change)),
                        if StoresRaw(w.mermaidCode.s, change) then Some(SubstringError) else None)
    ensures r.data.mockup == w.mockup
    ensures change.target == Json.JStr("conditions") ==> r.data == w.(conditions := r.data.conditions)
    ensures change.target in {Json.JStr("supplement"), Json.JStr("supplementary")} ==>
              r.data == w.(supplement := r.data.supplement)
    ensures change.target == Json.JStr("spreadsheet") ==> r.data == w.(sheets := r.data.sheets)
    ensures change.target == Json.JStr("mermaid") ==> r.data == w.(mermaidCode := r.data.mermaidCode)
  {
    if change.target == Json.JStr("conditions") then Step(w.(conditions := MarkdownEdit(w.conditions, change)), None)
    else if change.target == Json.JStr("supplement") || change.target == Json.JStr("supplementary") then
      Step(w.(supplement := MarkdownEdit(w.supplement, change)), None)
    else if change.target == Json.JStr("spreadsheet") then Step(w.(sheets := SpreadsheetEdit(w.sheets, change)), None)
    else if change.target == Json.JStr("mermaid") then
      match MermaidStore(w.mermaidCode, change)
      case Raised(m) => Step(w, Some(m))
      case Ok(v) => Step(w.(mermaidCode := v), if v.JStr? then None else Some(SubstringError))
    else Step(w, Some(UnknownTargetError(change.target)))
  }

  /** The entry `applyModificationProposal` records for a change that threw. */
  function ErrorEntry(change: ProposedChange, message: string): string
  {
    "変更適用失敗 (" + Json.ToJsString(change.target) + "): " + message
  }

  /** The changes applied in order to the copy: the resulting copy and the error entries. */
  function ApplyAll(w: UpdatedData, changes: seq<ProposedChange>): (UpdatedData, seq<string>)
  {
    if changes == [] then (w, [])
    else
      var (prev, errors) := ApplyAll(w, changes[..|changes| - 1]);
      var last := changes[|changes| - 1];
      var step := ApplyChange(prev, last);
      (step.data, if step.error.Some? then errors + [ErrorEntry(last, step.error.value)] else errors)
  }

  /** One more change of the run: `ApplyAll` on the next prefix is one more `ApplyChange`. */
  lemma ApplyAllNext(w: UpdatedData, changes: seq<ProposedChange>, i: nat)
    requires i < |changes|
    ensures var (prev, errors) := ApplyAll(w, changes[..i]);
            var step := ApplyChange(prev, changes[i]);
            ApplyAll(w, changes[..i + 1]) == (step.data, if step.error.Some? then errors + [ErrorEntry(changes[i], step.error.value)] else errors)
  {
    assert changes[..i + 1][..i] == changes[..i];
  }

  /** The changes with an unknown target, in order. */
  function UnknownChanges(changes: seq<ProposedChange>): seq<ProposedChange>
  {
    if changes == [] then []
    else UnknownChanges(changes[..|changes| - 1])
         + (if KnownTarget(changes[|changes| - 1].target) then [] else [changes[|changes| - 1]])
  }

  /** The changes with a known target, in order. */
  function KnownChanges(changes: seq<ProposedChange>): seq<ProposedChange>
  {
    if changes == [] then []
    else KnownChanges(changes[..|changes| - 1])
         + (if KnownTarget(changes[|changes| - 1].target) then [changes[|changes| - 1]] else [])
  }

  /** The entry `e` reports a failure `c` can have: its unknown target, or one of the Mermaid TypeErrors. */
  ghost predicate ReportsFailureOf(e: string, c: ProposedChange)
  {
    (!KnownTarget(c.target) && e == ErrorEntry(c, UnknownTargetError(c.target)))
    || (c.target == Json.JStr("mermaid") && exists m :: MermaidError(m) && e == ErrorEntry(c, m))
  }

  /** The entry `e` reports the failure of one of `changes`. */
  ghost predicate Reported(e: string, changes: seq<ProposedChange>)
  {
    exists j :: 0 <= j < |changes| && ReportsFailureOf(e, changes[j])
  }

  /**
   * Every unknown-target change is reported with its target, and every error entry reports
   * the failure of a change of the run: an unknown target or a Mermaid TypeError. Markdown
   * and spreadsheet changes never fail.
   */
  lemma {:induction false} ErrorsReportFailures(w: UpdatedData, changes: seq<ProposedChange>)
    ensures var errors := ApplyAll(w, changes).1;
            && (forall c :: c in UnknownChanges(changes) ==> ErrorEntry(c, UnknownTargetError(c.target)) in errors)
            && (forall i :: 0 <= i < |errors| ==> Reported(errors[i], changes))
  {
    if changes != [] {
      var init := changes[..|changes| - 1];
      var last := changes[|changes| - 1];
      ErrorsReportFailures(w, init);
      var (prev, before) := ApplyAll(w, init);
      var step := ApplyChange(prev, last);
      var extra := if step.error.Some? then [ErrorEntry(last, step.error.value)] else [];
      assert ApplyAll(w, changes).1 == before + extra;
      assert forall e :: e in extra ==> ReportsFailureOf(e, last);
      assert changes == init + [last];
      ReportsCarryOver(before, extra, init, last);
    }
  }

  /** Entries reported by a run, followed by entries for one more change, are reported by the longer run. */
  lemma ReportsCarryOver(before: seq<string>, extra: seq<string>, init: seq<ProposedChange>, last: ProposedChange)
    requires forall k :: 0 <= k < |before| ==> Reported(before[k], init)
    requires forall e :: e in extra ==> ReportsFailureOf(e, last)
    ensures forall k :: 0 <= k < |before + extra| ==> Reported((before + extra)[k], init + [last])
  {
    var changes := init + [last];
    forall k | 0 <= k < |before + extra|
      ensures Reported((before + extra)[k], changes)
    {
      if k < |before| {
        var j :| 0 <= j < |init| && ReportsFailureOf(before[k], init[j]);
        assert changes[j] == init[j];
      } else {
        assert (before + extra)[k] in extra;
        assert changes[|init|] == last;
      }
    }
  }

  /** An entry reported by a prefix of the run is reported by the run. */
  lemma ReportedInLonger(e: string, init: seq<ProposedChange>, changes: seq<ProposedChange>)
    requires |init| <= |changes| && init == changes[..|init|] && Reported(e, init)
    ensures Reported(e, changes)
  {
    var j :| 0 <= j < |init| && ReportsFailureOf(e, init[j]);
    assert changes[j] == init[j];
  }

  /**
   * The Mermaid text after the changes, read as text: every Mermaid change applies its edit
   * to the text the ones before it left.
   */
  function MermaidText(m: string, changes: seq<ProposedChange>): string
  {
    if changes == [] then m
    else
      var prev := MermaidText(m, changes[..|changes| - 1]);
      var last := changes[|changes| - 1];
      if last.target == Json.JStr("mermaid") then Json.ToJsString(MermaidEdit(prev, last)) else prev
  }

  /**
   * No change of the run throws: every target is known, and no Mermaid change stores a
   * value that is not a string into the text the changes before it left.
   */
  predicate Clean(m: string, changes: seq<ProposedChange>)
  {
    forall i :: 0 <= i < |changes| ==>
      KnownTarget(changes[i].target)
      && (changes[i].target == Json.JStr("mermaid") ==> !StoresRaw(MermaidText(m, changes[..i]), changes[i]))
  }

  /**
   * A run reports no error exactly when it is clean, and a clean run leaves the Mermaid slot
   * holding the text its Mermaid changes build.
   */
  lemma {:induction false} NoErrorsIffClean(d: WebUIData, changes: seq<ProposedChange>)
    ensures ApplyAll(CopyOf(d), changes).1 == [] <==> Clean(d.mermaid, changes)
    ensures Clean(d.mermaid, changes) ==> ApplyAll(CopyOf(d), changes).0.mermaidCode == Json.JStr(MermaidText(d.mermaid, changes))
  {
    if changes != [] {
      var init := changes[..|changes| - 1];
      var last := changes[|changes| - 1];
      NoErrorsIffClean(d, init);
      CleanStep(d.mermaid, changes);
    }
  }

  /** A run is clean exactly when its prefix is and its last change does not throw on the text the prefix leaves. */
  lemma CleanStep(m: string, changes: seq<ProposedChange>)
    requires changes != []
    ensures var init := changes[..|changes| - 1];
            var last := changes[|changes| - 1];
            Clean(m, changes) <==>
              Clean(m, init) && KnownTarget(last.target)
              && (last.target == Json.JStr("mermaid") ==> !StoresRaw(MermaidText(m, init), last))
  {
    var init := changes[..|changes| - 1];
    forall i | 0 <= i < |init|
      ensures init[i] == changes[i] && init[..i] == changes[..i]
    {
    }
  }

  /**
   * Unknown-target changes have no effect and stop nothing: the copy is what the known
   * changes alone produce, and the run reports one entry per unknown target more.
   */
  lemma {:induction false} FailuresDoNotStopLaterChanges(w: UpdatedData, changes: seq<ProposedChange>)
    ensures ApplyAll(w, changes).0 == ApplyAll(w, KnownChanges(changes)).0
    ensures |ApplyAll(w, changes).1| == |UnknownChanges(changes)| + |ApplyAll(w, KnownChanges(changes)).1|
  {
    if changes != [] {
      var init := changes[..|changes| - 1];
      var last := changes[|changes| - 1];
      FailuresDoNotStopLaterChanges(w, init);
      var k := KnownChanges(init);
      if KnownTarget(last.target) {
        assert KnownChanges(changes) == k + [last];
        assert (k + [last])[..|k|] == k;
      } else {
        assert KnownChanges(changes) == k;
      }
    }
  }

  /** The result of `applyModificationProposal` on a store that accepts the backup. */
  function ApplyOutcome(d: WebUIData, changes: seq<ProposedChange>): (r: ApplyResult)
    ensures r.success <==> r.errors == []
    ensures r.updatedData.Some?
    ensures r.success <==> Clean(d.mermaid, changes)
    ensures r.success ==> r.updatedData.value.mermaidCode == Json.JStr(MermaidText(d.mermaid, changes))
  {
    NoErrorsIffClean(d, changes);
    var (updated, errors) := ApplyAll(CopyOf(d), changes);
    ApplyResult(errors == [], Some(updated), errors)
  }

  /**
   * Targets are compared as values, not as the text they print as: a one-element array holding
   * `"conditions"` is not the `conditions` case, so it throws and fails the run, although its
   * error entry prints it as `conditions`.
   */
  lemma ListTargetIsUnknown(d: WebUIData, change: ProposedChange)
    requires change.target == Json.JArr([Json.JStr("conditions")])
    ensures !KnownTarget(change.target) && Json.ToJsString(change.target) == "conditions"
    ensures ApplyChange(CopyOf(d), change) == Step(CopyOf(d), Some(UnknownTargetError(change.target)))
    ensures ApplyOutcome(d, [change]).errors == [ErrorEntry(change, UnknownTargetError(change.target))]
    ensures !ApplyOutcome(d, [change]).success
  {
    assert [change][..0] == [];
    assert ApplyAll(CopyOf(d), [change][..0]) == (CopyOf(d), []);
    assert ApplyChange(CopyOf(d), change).error.Some?;
  }

  /**
   * A Mermaid change that stores a number throws at the log line: adding `5` to blank code
   * leaves the raw number in the copy, records the TypeError and fails the run.
   */
  lemma NumberContentFails(d: WebUIData, change: ProposedChange)
    requires change.target == Json.JStr("mermaid") && IsAction(change, "add")
    requires change.newContent == Json.JNum(5.0, "5") && Trim(d.mermaid) == ""
    ensures var r := ApplyOutcome(d, [change]);
            && r.errors == [ErrorEntry(change, SubstringError)]
            && !r.success
            && r.updatedData.value.mermaidCode == change.newContent
  {
    assert [change][..0] == [];
    assert ApplyAll(CopyOf(d), [change][..0]) == (CopyOf(d), []);
    assert StoresRaw(d.mermaid, change);
  }

  /** Once the slot holds a non-string, a later Mermaid `add` throws at `trim` and stores nothing. */
  lemma RawSlotBlocksAdd(w: UpdatedData, change: ProposedChange)
    requires !w.mermaidCode.JStr? && change.target == Json.JStr("mermaid") && IsAction(change, "add")
    ensures ApplyChange(w, change) == Step(w, Some(TrimError))
  {
  }

  /** A Markdown `add` appends the highlighted text after a blank line and keeps everything before it. */
  lemma MarkdownAddAppends(current: string, change: ProposedChange)
    requires IsAction(change, "add")
    ensures var r := MarkdownEdit(current, change);
            StartsWith(r, current + "\n\n") && r[|current| + 2..] == Highlight(NewText(change), "AI追加")
  {
  }

  /**
   * A Markdown `modify` of located text rewrites only its first occurrence, keeping the text
   * around it; otherwise the highlighted text is appended.
   */
  lemma MarkdownModifyShape(current: string, change: ProposedChange)
    requires IsAction(change, "modify")
    ensures var r := MarkdownEdit(current, change);
            var h := Highlight(NewText(change), "AI修正");
            var o := Original(change);
            if Locates(current, change) then
              var i := IndexOf(current, o).value;
              && r == current[..i] + h + current[i + |o|..]
              && current == current[..i] + o + current[i + |o|..]
            else r == current + "\n\n" + h
  {
    if Locates(current, change) {
      ReplaceFirstShape(current, Original(change), Highlight(NewText(change), "AI修正"));
    }
  }

  /** A Markdown `delete` never loses text: the located text stays, struck through; otherwise nothing changes. */
  lemma MarkdownDeleteKeepsText(current: string, change: ProposedChange)
    requires IsAction(change, "delete")
    ensures var r := MarkdownEdit(current, change);
            if Locates(current, change) then
              && Contains(r, "~~" + Original(change) + "~~")
              && |r| == |current| + |"~~~~ **(AI削除提案)**"|
            else r == current
  {
    var o := Original(change);
    if Locates(current, change) {
      var marker := "~~" + o + "~~ **(AI削除提案)**";
      ReplaceFirstShape(current, o, marker);
      var i := IndexOf(current, o).value;
      var r := MarkdownEdit(current, change);
      assert r == current[..i] + marker + current[i + |o|..];
      assert r[i..i + |"~~" + o + "~~"|] == "~~" + o + "~~";
      assert MatchAt(r, "~~" + o + "~~", i);
    }
  }

  /** Markdown changes with any other action leave the field as it is. */
  lemma MarkdownUnknownActionKeeps(current: string, change: ProposedChange)
    requires !IsAction(change, "add") && !IsAction(change, "modify") && !IsAction(change, "delete")
    ensures MarkdownEdit(current, change) == current
  {
  }

  /**
   * A Mermaid `add` stores the new content itself, whatever its type, into blank code, and
   * otherwise appends its text after a blank line.
   */
  lemma MermaidAddShape(current: string, change: ProposedChange)
    requires IsAction(change, "add")
    ensures var r := MermaidEdit(current, change);
            if Blank(Js, current) then r == change.newContent
            else r.JStr? && StartsWith(r.s, current + "\n\n") && r.s[|current| + 2..] == NewText(change)
  {
    TrimEmptyIffBlank(Js, current);
    if !Blank(Js, current) {
      var t := current + "\n\n" + NewText(change);
      assert MermaidEdit(current, change) == Json.JStr(t);
      assert t[..|current| + 2] == current + "\n\n";
      assert t[|current| + 2..] == NewText(change);
    }
  }

  /** A Mermaid `delete` cuts out exactly the first located occurrence, and otherwise clears the code. */
  lemma MermaidDeleteShape(current: string, change: ProposedChange)
    requires IsAction(change, "delete")
    ensures var r := MermaidEdit(current, change);
            var o := Original(change);
            if Locates(current, change) then
              var i := IndexOf(current, o).value;
              r == Json.JStr(current[..i] + current[i + |o|..])
              && |r.s| == |current| - |o|
            else r == Json.JStr("")
  {
    if Locates(current, change) {
      ReplaceFirstShape(current, Original(change), "");
    }
  }

  /** The proposal's target document while it is being edited: the deep copy that is updated in place. */
  class Draft {
    var conditions: string
    var supplement: string
    var sheets: seq<Sheet>
    var mockup: Option<string>
    var mermaidCode: Content

    function Data(): UpdatedData
      reads this
    {
      UpdatedData(conditions, supplement, sheets, mockup, mermaidCode)
    }

    /** `JSON.parse(JSON.stringify(currentData))`. */
    constructor (d: WebUIData)
      ensures Data() == CopyOf(d)
    {
      conditions := d.conditions;
      supplement := d.supplement;
      sheets := d.sheets;
      mockup := d.mockup;
      mermaidCode := Json.JStr(d.mermaid);
    }

    method ApplyMarkdownChange(change: ProposedChange, field: MarkdownField)
      modifies this
      ensures field == ConditionsField ==> Data() == old(Data()).(conditions := MarkdownEdit(old(conditions), change))
      ensures field == SupplementField ==> Data() == old(Data()).(supplement := MarkdownEdit(old(supplement), change))
    {
      if field == ConditionsField {
        conditions := MarkdownEdit(conditions, change);
      } else {
        supplement := MarkdownEdit(supplement, change);
      }
    }

    /** `applyMermaidChange`: stores the value the change builds, or throws (reported here) before storing anything. */
    method ApplyMermaidChange(change: ProposedChange) returns (error: Option<string>)
      modifies this
      ensures var r := MermaidStore(old(mermaidCode), change);
              if r.Raised? then error == Some(r.message) && Data() == old(Data())
              else error.None? && Data() == old(Data()).(mermaidCode := r.value)
    {
      var r := MermaidStore(mermaidCode, change);
      if r.Raised? {
        error := Some(r.message);
      } else {
        error := None;
        mermaidCode := r.value;
      }
    }

    method ApplySpreadsheetChange(change: ProposedChange)
      modifies this
      ensures Data() == old(Data()).(sheets := SpreadsheetEdit(old(sheets), change))
    {
      if |sheets| == 0 {
        sheets := [NewSheet];
      }
      if IsAction(change, "add") {
        var sheet := sheets[0];
        var cells := sheet.celldata.GetOr([]);
        var next := if |cells| > 0 then MaxRow(cells) + 1 else 0;
        var rows := if sheet.row == 0 then 1 else sheet.row;
        sheet := sheet.(celldata := Some(cells + [Cell(next, 0, "[DRAFT] " + NewText(change))]));
        sheet := sheet.(row := if rows >= next + 1 then rows else next + 1);
        sheets := [sheet] + sheets[1..];
      }
    }

    /**
     * `applyIndividualChange`: routes the change by target and, after a Mermaid change, logs
     * the start of the stored value; what it throws is reported instead.
     */
    method ApplyIndividualChange(change: ProposedChange) returns (error: Option<string>)
      modifies this
      ensures ApplyChange(old(Data()), change) == Step(Data(), error)
    {
      error := None;
      if change.target == Json.JStr("conditions") {
        ApplyMarkdownChange(change, ConditionsField);
      } else if change.target == Json.JStr("supplement") || change.target == Json.JStr("supplementary") {
        ApplyMarkdownChange(change, SupplementField);
      } else if change.target == Json.JStr("spreadsheet") {
        ApplySpreadsheetChange(change);
      } else if change.target == Json.JStr("mermaid") {
        error := ApplyMermaidChange(change);
        if error.None? && !mermaidCode.JStr? {
          error := Some(SubstringError);
        }
      } else {
        error := Some(UnknownTargetError(change.target));
      }
    }
  }

  /**
   * `applyModificationProposal`: backs up the current document, then applies every change in
   * order to a copy, collecting one error entry per failing change.
   */
  method ApplyModificationProposal(proposal: ModificationProposal, currentData: WebUIData,
                                   store: Backup.BackupStore, now: int, nonce: string, shownTime: string)
    returns (result: ApplyResult)
    modifies store
    ensures result == ApplyOutcome(currentData, proposal.changes)
    ensures var id := "auto_" + IntToString(now) + "_" + nonce;
            Backup.CleanedUp(old(store.items)[Backup.StorageKey(id) :=
              Backup.Saved(Backup.AutoBackup(id, currentData, "修正提案適用前のバックアップ", Some(proposal.id), now, shownTime))],
              store.items)
  {
    var draft := new Draft(currentData);
    var _ := store.CreateAutoBackup(currentData, "修正提案適用前のバックアップ", Some(proposal.id), now, nonce, shownTime);
    ghost var backedUp := store.items;
    var errors: seq<string> := [];
    for i := 0 to |proposal.changes|
      invariant (draft.Data(), errors) == ApplyAll(CopyOf(currentData), proposal.changes[..i])
      invariant store.items == backedUp
    {
      var change := proposal.changes[i];
      ApplyAllNext(CopyOf(currentData), proposal.changes, i);
      var error := draft.ApplyIndividualChange(change);
      if error.Some? {
        errors := errors + [ErrorEntry(change, error.value)];
      }
    }
    assert proposal.changes[..|proposal.changes|] == proposal.changes;
    result := ApplyResult(errors == [], Some(draft.Data()), errors);
  }

  /** `createFallbackProposal`: one manual-handling change appended to the conditions. */
  function CreateFallbackProposal(request: ModificationRequest, proposalId: string, now: int): (p: ModificationProposal)
    ensures p.id == proposalId && p.request == request && |p.changes| == 1
    ensures p.changes[0].target == Json.JStr("conditions") && IsAction(p.changes[0], "add")
    ensures p.changes[0].confidence == Json.Finite(0.1)
    ensures p.changes[0].newContent.JStr? && Contains(p.changes[0].newContent.s, request.changeDescription)
  {
    var content := "\n\n## ユーザー要求\n" + request.changeDescription + "\n\n*この変更要求は手動で処理してください。*";
    assert MatchAt(content, request.changeDescription, |"\n\n## ユーザー要求\n"|);
    ModificationProposal(
      proposalId, request,
      [ProposedChange(Json.JStr("conditions"), Json.JStr("add"), "末尾", Json.JStr(""), Json.JStr(content), "AI解析失敗のため手動処理が必要", Json.Finite(0.1))],
      "AI解析失敗 - 手動処理が必要な変更要求",
      Json.JArr([Json.JStr("自動処理できないため、手動での検証と実装が必要")]),
      now)
  }

  /** The end of the run of JavaScript whitespace that starts at `i`. */
  function SpaceRunEnd(s: string, i: nat): (j: nat)
    requires i <= |s|
    ensures i <= j <= |s|
    ensures forall k :: i <= k < j ==> JsSpace(s[k])
    ensures j == |s| || !JsSpace(s[j])
    decreases |s| - i
  {
    if i < |s| && JsSpace(s[i]) then SpaceRunEnd(s, i + 1) else i
  }

  /** `\s*```` matches at `q`: whitespace, then a fence. */
  predicate FenceAfterSpace(s: string, q: nat)
    requires q <= |s|
  {
    MatchAt(s, "```", SpaceRunEnd(s, q))
  }

  /** The smallest `q >= from` where `\s*```` matches: where the lazy group `([\s\S]*?)` stops. */
  function LazyGroupEnd(s: string, from: nat): (q: Option<nat>)
    requires from <= |s|
    ensures q.Some? ==> from <= q.value <= |s| && FenceAfterSpace(s, q.value)
    ensures q.Some? ==> forall k :: from <= k < q.value ==> !FenceAfterSpace(s, k)
    ensures q.None? ==> forall k :: from <= k <= |s| ==> !FenceAfterSpace(s, k)
    decreases |s| - from
  {
    if FenceAfterSpace(s, from) then Some(from)
    else if from == |s| then None
    else LazyGroupEnd(s, from + 1)
  }

  /** At a fence the whitespace run is empty. */
  lemma FenceStartsNoSpace(s: string, k: nat)
    requires MatchAt(s, "```", k)
    ensures k <= |s| && SpaceRunEnd(s, k) == k
  {
    assert s[k] == s[k..k + 3][0];
  }

  /** Whitespace does not open a fence. */
  lemma SpaceNotFence(s: string, p: nat)
    requires p + 3 <= |s| && JsSpace(s[p])
    ensures !MatchAt(s, "```", p)
  {
    assert s[p..p + 3][0] == s[p];
  }

  /** Where `\s*```` does not match, no fence starts either. */
  lemma NotFenceAt(s: string, p: nat)
    requires p + 3 <= |s| && !FenceAfterSpace(s, p)
    ensures !MatchAt(s, "```", p)
  {
    assert s[p..p + 3][0] == s[p];
    assert s[p] == '`' ==> SpaceRunEnd(s, p) == p;
  }

  /** A fence in a slice is a fence of the whole text. */
  lemma SliceFence(s: string, from: nat, k: nat, p: nat)
    requires from <= |s| && p == from + k && k + 3 <= |s| - from
    ensures MatchAt(s[from..], "```", k) == MatchAt(s, "```", p)
  {
    var here, there := s[from..][k..k + 3], s[p..p + 3];
    assert here[0] == there[0] && here[1] == there[1] && here[2] == there[2];
    assert here == there;
  }

  lemma InnerSliceFence(s: string, from: nat, to: nat, k: nat, p: nat)
    requires from <= to <= |s| && p == from + k && k + 3 <= to - from
    ensures MatchAt(s[from..to], "```", k) == MatchAt(s, "```", p)
  {
    var here, there := s[from..to][k..k + 3], s[p..p + 3];
    assert here[0] == there[0] && here[1] == there[1] && here[2] == there[2];
    assert here == there;
  }

  /** When the lazy group finds no end after the whitespace run from `from`, no fence follows `from`. */
  lemma NoFenceAfter(s: string, from: nat, w: nat)
    requires from <= |s| && w == SpaceRunEnd(s, from) && LazyGroupEnd(s, w).None?
    ensures !Contains(s[from..], "```")
  {
    var t := s[from..];
    forall k | 0 <= k <= |t| - 3 ensures !MatchAt(t, "```", k) {
      var p := from + k;
      SliceFence(s, from, k, p);
      if p < w {
        SpaceNotFence(s, p);
      } else {
        NotFenceAt(s, p);
      }
    }
  }

  /** The lazy group holds no fence: the first one would have ended it. */
  lemma NoFenceInGroup(s: string, w: nat, q: nat)
    requires w <= |s| && LazyGroupEnd(s, w) == Some(q)
    ensures !Contains(s[w..q], "```")
  {
    var g := s[w..q];
    forall k | 0 <= k <= |g| - 3 ensures !MatchAt(g, "```", k) {
      var p := w + k;
      InnerSliceFence(s, w, q, k, p);
      NotFenceAt(s, p);
    }
  }

  /** A fence found by the lazy group lies after `from`. */
  lemma FenceWitness(s: string, from: nat, q: nat)
    requires from <= q <= |s| && FenceAfterSpace(s, q)
    ensures Contains(s[from..], "```")
  {
    var k := SpaceRunEnd(s, q);
    assert s[from..][k - from..k - from + 3] == s[k..k + 3];
    assert MatchAt(s[from..], "```", k - from);
  }

  /**
   * The capture group `\s*([\s\S]*?)\s*```` after an opening fence that ends at `from`: the
   * greedy `\s*` takes the whole whitespace run (backtracking it cannot help, as the group
   * could then only begin with whitespace whose run ends at the same place), and the lazy
   * group stops at the first place where whitespace and a fence follow.
   */
  function GroupAfter(s: string, from: nat): (r: Option<string>)
    requires from <= |s|
    ensures r.Some? <==> Contains(s[from..], "```")
    ensures r.Some? ==> !Contains(r.value, "```")
    ensures r.Some? ==> r.value == [] || !JsSpace(r.value[0])
  {
    var w := SpaceRunEnd(s, from);
    match LazyGroupEnd(s, w)
    case None =>
      NoFenceAfter(s, from, w);
      None
    case Some(q) =>
      NoFenceInGroup(s, w, q);
      FenceWitness(s, from, q);
      Some(s[w..q])
  }

  /**
   * The capture group of `/```json\s*([\s\S]*?)\s*```/` on `s`. Only the leftmost `json`
   * fence can start a match: a later one would itself supply the closing fence.
   */
  function JsonBlock(s: string): (r: Option<string>)
  {
    match IndexOf(s, "```json")
    case None => None
    case Some(p) => GroupAfter(s, p + 7)
  }

  /** There is a block exactly when a `json` fence is followed, somewhere later, by a closing fence; it holds no fence itself. */
  lemma JsonBlockShape(s: string)
    ensures !Contains(s, "```json") ==> JsonBlock(s).None?
    ensures Contains(s, "```json") ==>
              (JsonBlock(s).Some? <==> Contains(s[IndexOf(s, "```json").value + 7..], "```"))
    ensures JsonBlock(s).Some? ==> !Contains(JsonBlock(s).value, "```")
  {
  }

  /** `Math.min(Math.max(c, 0), 1)`. */
  function Clamp(c: real): (r: real)
    ensures 0.0 <= r <= 1.0
    ensures 0.0 <= c <= 1.0 ==> r == c
  {
    if c < 0.0 then 0.0 else if c > 1.0 then 1.0 else c
  }

  /** `change[key] || fallback`, rendered as a string. */
  function FieldOr(change: Json.Json, key: string, fallback: string): string
  {
    var v := Json.Get(change, key);
    if Json.Truthy(v) then Json.ToJsString(v) else fallback
  }

  /**
   * A confidence as the normalisation leaves it: a number in [0, 1], or NaN when the value
   * given does not convert to a number.
   */
  predicate ValidConfidence(c: Json.JsNumber)
  {
    c.NaN? || (c.Finite? && 0.0 <= c.x <= 1.0)
  }

  /** `Math.min(Math.max(x, 0), 1)`: NaN stays NaN and the infinities go to the bounds. */
  function ClampNumber(x: Json.JsNumber): (r: Json.JsNumber)
    ensures ValidConfidence(r)
    ensures r.NaN? <==> x.NaN?
    ensures x.Finite? && 0.0 <= x.x <= 1.0 ==> r == x
    ensures x.Infinite? ==> r == Json.Finite(if x.positive then 1.0 else 0.0)
  {
    match x
    case NaN => Json.NaN
    case Infinite(positive) => Json.Finite(if positive then 1.0 else 0.0)
    case Finite(c) => Json.Finite(Clamp(c))
  }

  /** `Math.min(Math.max(change.confidence || 0.5, 0), 1)`. */
  function ConfidenceOf(change: Json.Json): (c: Json.JsNumber)
    ensures ValidConfidence(c)
    ensures !Json.Truthy(Json.Get(change, "confidence")) ==> c == Json.Finite(0.5)
  {
    ClampNumber(Json.ToNumber(Json.Or(Json.Get(change, "confidence"), Json.JNum(0.5, "0.5"))))
  }

  /** A confidence given as the text `"0.8"` converts to the number 0.8. */
  lemma TextConfidenceConverts(change: Json.Json)
    requires Json.Get(change, "confidence") == Json.JStr("0.8")
    ensures ConfidenceOf(change) == Json.Finite(0.8)
  {
    Json.PointEightReads();
  }

  /** Confidences given in exponent or hexadecimal notation convert: `"1e-1"` is 0.1 and `"0x1"` is 1. */
  lemma NotationConfidenceConverts(change: Json.Json)
    ensures Json.Get(change, "confidence") == Json.JStr("1e-1") ==> ConfidenceOf(change) == Json.Finite(0.1)
    ensures Json.Get(change, "confidence") == Json.JStr("0x1") ==> ConfidenceOf(change) == Json.Finite(1.0)
  {
    Json.OneTenthReads();
    Json.HexExamples();
  }

  /** A confidence past the double range converts as a double does: `"1e-400"` is 0 and `"1e400"` is Infinity, cut to 1. */
  lemma OutOfRangeConfidence(change: Json.Json)
    ensures Json.Get(change, "confidence") == Json.JStr("1e-400") ==> ConfidenceOf(change) == Json.Finite(0.0)
    ensures Json.Get(change, "confidence") == Json.JStr("1e400") ==> ConfidenceOf(change) == Json.Finite(1.0)
  {
    Json.UnderflowReads();
    Json.OverflowReads();
  }

  /** A confidence that is not numeric text stays NaN through both clamps. */
  lemma WordConfidenceIsNaN(change: Json.Json)
    requires Json.Get(change, "confidence") == Json.JStr("abc")
    ensures ConfidenceOf(change).NaN?
  {
    Json.WordStringIsNaN();
  }

  /** A confidence of `true` converts to 1; one above 1 is cut to 1 and a negative one to 0. */
  lemma ConfidenceBounds(change: Json.Json)
    ensures Json.Get(change, "confidence") == Json.JBool(true) ==> ConfidenceOf(change) == Json.Finite(1.0)
    ensures var v := Json.Get(change, "confidence");
            v.JNum? && v.n > 1.0 ==> ConfidenceOf(change) == Json.Finite(1.0)
    ensures var v := Json.Get(change, "confidence");
            v.JNum? && v.n < 0.0 ==> ConfidenceOf(change) == Json.Finite(0.0)
  {
  }

  /** One element of `parsedData.changes` normalised with defaults; None when it is null or undefined (a TypeError). */
  function NormaliseChange(v: Json.Json): (r: Option<ProposedChange>)
    ensures r.None? <==> v.JUndef? || v.JNull?
    ensures r.Some? ==> ValidConfidence(r.value.confidence)
    ensures r.Some? ==> r.value.newContent.JStr? || Json.Truthy(r.value.newContent)
  {
    if v.JUndef? || v.JNull? then None
    else Some(ProposedChange(
      Json.Or(Json.Get(v, "target"), Json.JStr("conditions")),
      Json.Or(Json.Get(v, "action"), Json.JStr("modify")),
      FieldOr(v, "location", ""),
      Json.Or(Json.Get(v, "originalContent"), Json.JStr("")),
      Json.Or(Json.Get(v, "newContent"), Json.JStr("")),
      FieldOr(v, "reason", "理由不明"),
      ConfidenceOf(v)))
  }

  function NormaliseChanges(items: seq<Json.Json>): (r: Option<seq<ProposedChange>>)
    ensures r.Some? <==> forall i :: 0 <= i < |items| ==> !items[i].JUndef? && !items[i].JNull?
    ensures r.Some? ==> |r.value| == |items|
    ensures r.Some? ==> forall i :: 0 <= i < |items| ==> Some(r.value[i]) == NormaliseChange(items[i])
  {
    if items == [] then Some([])
    else
      match NormaliseChanges(items[..|items| - 1])
      case None => None
      case Some(init) =>
        match NormaliseChange(items[|items| - 1])
        case None => None
        case Some(c) =>
          assert forall i :: 0 <= i < |items| - 1 ==> items[..|items| - 1][i] == items[i];
          Some(init + [c])
  }

  /**
   * The proposal built from parsed JSON, or None when the code would throw: a null parse
   * result, a truthy non-array `changes`, or a null/undefined element in it.
   */
  function ProposalFromJson(parsed: Json.Json, request: ModificationRequest, proposalId: string, now: int)
    : Option<ModificationProposal>
  {
    match Json.Prop(parsed, "changes")
    case None => None
    case Some(cs) =>
      var items: Option<seq<Json.Json>> :=
        if !Json.Truthy(cs) then Some([]) else if cs.JArr? then Some(cs.items) else None;
      if items.None? then None
      else
        match NormaliseChanges(items.value)
        case None => None
        case Some(changes) =>
          var summary := Json.Get(parsed, "summary");
          Some(ModificationProposal(
            proposalId, request, changes,
            if Json.Truthy(summary) then Json.ToJsString(summary) else "設計書の修正提案",
            Json.Or(Json.Get(parsed, "risks"), Json.JArr([])),
            now))
  }

  /**
   * `parseModificationResponse`: the proposal in the response's ```json block, or the fallback
   * proposal when there is no block, the block does not parse (`parse` stands for
   * `JSON.parse`) or normalising it throws.
   */
  function ParseModificationResponse(response: string, request: ModificationRequest, proposalId: string,
                                     parse: string -> Option<Json.Json>, now: int): (p: ModificationProposal)
    ensures p.id == proposalId && p.request == request
    ensures forall i :: 0 <= i < |p.changes| ==> ValidConfidence(p.changes[i].confidence)
    ensures JsonBlock(response).None? ==> p == CreateFallbackProposal(request, proposalId, now)
    ensures (JsonBlock(response).Some? && parse(JsonBlock(response).value).None?)
            ==> p == CreateFallbackProposal(request, proposalId, now)
  {
    match JsonBlock(response)
    case None => CreateFallbackProposal(request, proposalId, now)
    case Some(block) =>
      match parse(block)
      case None => CreateFallbackProposal(request, proposalId, now)
      case Some(parsed) =>
        match ProposalFromJson(parsed, request, proposalId, now)
        case None => CreateFallbackProposal(request, proposalId, now)
        case Some(p) => p
  }

  /** A parsed `changes` array keeps its length and order, every confidence defaulting to 0.5 and clamped into [0, 1] or NaN. */
  lemma ParsedChangesKeepOrder(parsed: Json.Json, request: ModificationRequest, proposalId: string, now: int,
                               items: seq<Json.Json>)
    requires parsed.JObj? && Json.Get(parsed, "changes") == Json.JArr(items)
    requires forall i :: 0 <= i < |items| ==> items[i].JObj?
    ensures var p := ProposalFromJson(parsed, request, proposalId, now);
            && p.Some? && |p.value.changes| == |items|
            && forall i :: 0 <= i < |items| ==>
                 && p.value.changes[i].target == Json.Or(Json.Get(items[i], "target"), Json.JStr("conditions"))
                 && p.value.changes[i].newContent == Json.Or(Json.Get(items[i], "newContent"), Json.JStr(""))
                 && p.value.changes[i].confidence == ConfidenceOf(items[i])
                 && (!Json.Truthy(Json.Get(items[i], "confidence")) ==> p.value.changes[i].confidence == Json.Finite(0.5))
  {
    var r := NormaliseChanges(items);
    assert r.Some?;
    forall i | 0 <= i < |items| ensures Some(r.value[i]) == NormaliseChange(items[i]) {
    }
  }

  /**
   * `generateModificationProposal`: backs up the document under the new proposal's id, asks
   * the AI service (`respond`, given the document its system prompt is built from and the
   * request; it may raise) and parses the reply; a raised call gives the fallback proposal.
   * `suffix` and `nonce` stand for the two random id suffixes.
   */
  method GenerateModificationProposal(changeDescription: string, currentData: WebUIData,
                                      store: Backup.BackupStore, now: int, suffix: string, nonce: string,
                                      shownTime: string, respond: (WebUIData, string) -> Outcome<string>,
                                      parse: string -> Option<Json.Json>)
    returns (p: ModificationProposal)
    modifies store
    ensures p.id == "mod_" + IntToString(now) + "_" + suffix
    ensures p.request == ModificationRequest(changeDescription, currentData, now)
    ensures forall i :: 0 <= i < |p.changes| ==> ValidConfidence(p.changes[i].confidence)
    ensures respond(currentData, changeDescription).Raised? ==> p == CreateFallbackProposal(p.request, p.id, now)
    ensures respond(currentData, changeDescription).Ok? ==>
              p == ParseModificationResponse(respond(currentData, changeDescription).value, p.request, p.id, parse, now)
    ensures var id := "auto_" + IntToString(now) + "_" + nonce;
            Backup.CleanedUp(old(store.items)[Backup.StorageKey(id) :=
              Backup.Saved(Backup.AutoBackup(id, currentData, "修正提案生成前のバックアップ", Some(p.id), now, shownTime))],
              store.items)
  {
    var proposalId := "mod_" + IntToString(now) + "_" + suffix;
    var _ := store.CreateAutoBackup(currentData, "修正提案生成前のバックアップ", Some(proposalId), now, nonce, shownTime);
    var request := ModificationRequest(changeDescription, currentData, now);
    var response := respond(currentData, changeDescription);
    if response.Raised? {
      p := CreateFallbackProposal(request, proposalId, now);
    } else {
      p := ParseModificationResponse(response.value, request, proposalId, parse, now);
    }
  }

  /** One Markdown line diff (`calculateMarkdownDiff`). */
  datatype DiffResult = DiffResult(
    target: string,
    hasChanges: bool,
    additions: seq<string>,
    modifications: seq<string>,
    deletions: seq<string>)

  /** A line the AI wrote: it carries the draft or AI marker. */
  predicate IsAiLine(line: string)
  {
    Contains(line, "[DRAFT]") || Contains(line, "**(AI")
  }

  /** The lines of `lines` not in `other` whose AI marking is `ai`, in order. */
  function NewLines(lines: seq<string>, other: seq<string>, ai: bool): (r: seq<string>)
    ensures forall l :: l in r <==> l in lines && l !in other && IsAiLine(l) == ai
  {
    if lines == [] then []
    else
      var last := lines[|lines| - 1];
      assert lines == lines[..|lines| - 1] + [last];
      NewLines(lines[..|lines| - 1], other, ai) + (if last !in other && IsAiLine(last) == ai then [last] else [])
  }

  /** The lines of `lines` not in `other`, in order. */
  function MissingLines(lines: seq<string>, other: seq<string>): (r: seq<string>)
    ensures forall l :: l in r <==> l in lines && l !in other
  {
    if lines == [] then []
    else
      var last := lines[|lines| - 1];
      assert lines == lines[..|lines| - 1] + [last];
      MissingLines(lines[..|lines| - 1], other) + (if last !in other then [last] else [])
  }

  /** The diff of two line lists. */
  function LineDiff(target: string, o: seq<string>, m: seq<string>): DiffResult
  {
    var additions := NewLines(m, o, true);
    var modifications := NewLines(m, o, false);
    var deletions := MissingLines(o, m);
    DiffResult(target, additions != [] || modifications != [] || deletions != [], additions, modifications, deletions)
  }

  /** The diff the method computes, stated over the two texts' lines. */
  function MarkdownDiff(target: string, original: string, modified: string): DiffResult
  {
    LineDiff(target, Lines(original), Lines(modified))
  }

  /** The diff reports a change exactly when the two texts do not have the same set of lines. */
  lemma DiffChangesIffLineSetsDiffer(target: string, o: seq<string>, m: seq<string>)
    ensures LineDiff(target, o, m).hasChanges <==> (set l | l in o) != (set l | l in m)
  {
    var d := LineDiff(target, o, m);
    if d.additions != [] {
      assert d.additions[0] in d.additions;
      OnlyInOneSide(o, m, d.additions[0]);
    } else if d.modifications != [] {
      assert d.modifications[0] in d.modifications;
      OnlyInOneSide(o, m, d.modifications[0]);
    } else if d.deletions != [] {
      assert d.deletions[0] in d.deletions;
      OnlyInOneSide(m, o, d.deletions[0]);
    } else {
      assert (set l | l in o) == (set l | l in m);
    }
  }

  lemma OnlyInOneSide(a: seq<string>, b: seq<string>, x: string)
    requires x in b && x !in a
    ensures (set l | l in a) != (set l | l in b)
  {
    var sa := set l | l in a;
    var sb := set l | l in b;
    assert x in sb;
    assert x !in sa;
  }

  /** The first `forEach` of `calculateMarkdownDiff`: new lines, split by their AI marking. */
  method CollectNewLines(o: seq<string>, m: seq<string>) returns (additions: seq<string>, modifications: seq<string>)
    ensures additions == NewLines(m, o, true)
    ensures modifications == NewLines(m, o, false)
  {
    additions := [];
    modifications := [];
    for i := 0 to |m|
      invariant additions == NewLines(m[..i], o, true)
      invariant modifications == NewLines(m[..i], o, false)
    {
      assert m[..i + 1][..i] == m[..i];
      var line := m[i];
      if line !in o {
        if IsAiLine(line) {
          additions := additions + [line];
        } else {
          modifications := modifications + [line];
        }
      }
    }
    assert m[..|m|] == m;
  }

  /** The second `forEach` of `calculateMarkdownDiff`: original lines that are gone. */
  method CollectMissingLines(o: seq<string>, m: seq<string>) returns (deletions: seq<string>)
    ensures deletions == MissingLines(o, m)
  {
    deletions := [];
    for i := 0 to |o|
      invariant deletions == MissingLines(o[..i], m)
    {
      assert o[..i + 1][..i] == o[..i];
      if o[i] !in m {
        deletions := deletions + [o[i]];
      }
    }
    assert o[..|o|] == o;
  }

  /** `calculateMarkdownDiff`: equal texts short-cut to no change; otherwise both line lists are scanned. */
  method CalculateMarkdownDiff(target: string, original: string, modified: string) returns (d: DiffResult)
    ensures d == MarkdownDiff(target, original, modified) && d.target == target
    ensures original == modified ==> !d.hasChanges
  {
    var o := Lines(original);
    var m := Lines(modified);
    if original == modified {
      DiffChangesIffLineSetsDiffer(target, o, m);
      return DiffResult(target, false, [], [], []);
    }
    var additions, modifications := CollectNewLines(o, m);
    var deletions := CollectMissingLines(o, m);
    d := DiffResult(target, |additions| > 0 || |modifications| > 0 || |deletions| > 0, additions, modifications, deletions);
  }

  /** `calculateDiff`: the Markdown diffs of the conditions and the supplement that have changes, in that order. */
  method CalculateDiff(original: WebUIData, modified: WebUIData) returns (results: seq<DiffResult>)
    ensures forall i :: 0 <= i < |results| ==> results[i].hasChanges
    ensures MarkdownDiff("conditions", original.conditions, modified.conditions).hasChanges
            <==> MarkdownDiff("conditions", original.conditions, modified.conditions) in results
    ensures MarkdownDiff("supplement", original.supplement, modified.supplement).hasChanges
            <==> MarkdownDiff("supplement", original.supplement, modified.supplement) in results
    ensures |results| <= 2
    ensures |results| == 2 ==>
              results == [MarkdownDiff("conditions", original.conditions, modified.conditions),
                          MarkdownDiff("supplement", original.supplement, modified.supplement)]
  {
    var conditions := CalculateMarkdownDiff("conditions", original.conditions, modified.conditions);
    var supplement := CalculateMarkdownDiff("supplement", original.supplement, modified.supplement);
    results := KeepChanged(conditions, supplement);
  }

  /** The two diffs pushed in order, each only when it has changes. */
  method KeepChanged(c: DiffResult, s: DiffResult) returns (results: seq<DiffResult>)
    requires c.target == "conditions" && s.target == "supplement"
    ensures forall i :: 0 <= i < |results| ==> results[i].hasChanges
    ensures c.hasChanges <==> c in results
    ensures s.hasChanges <==> s in results
    ensures |results| <= 2
    ensures |results| == 2 ==> results == [c, s]
  {
    results := [];
    if c.hasChanges {
      results := results + [c];
    }
    if s.hasChanges {
      results := results + [s];
    }
    assert c != s by { assert c.target[0] != s.target[0]; }
  }
}
