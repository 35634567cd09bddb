/**
 * The Mermaid ER-diagram editor's own state: the display mode toggled by the toolbar, the
 * editor height dragged with the resize handle, the error shown under the preview, and the
 * "insert sample" button. Rendering itself is done by the Mermaid library and is an input here.
 */
module MermaidEditor {
  import opened Wrappers
  import opened Text

  datatype DisplayMode = Split | PreviewOnly | EditorOnly

  /** The toolbar button: split → preview-only → editor-only → split. */
  function NextMode(m: DisplayMode): (r: DisplayMode)
    ensures r != m
  {
    match m
    case Split => PreviewOnly
    case PreviewOnly => EditorOnly
    case EditorOnly => Split
  }

  /** Three presses return to the starting mode, and every mode is reached on the way. */
  lemma ModeCycle(m: DisplayMode)
    ensures NextMode(NextMode(NextMode(m))) == m
    ensures {m, NextMode(m), NextMode(NextMode(m))} == {Split, PreviewOnly, EditorOnly}
  {
  }

  const MinHeight := 300
  const MaxHeight := 800
  /** The toolbar's height, subtracted from the pointer position. */
  const ToolbarHeight := 48

  /** `Math.max(300, Math.min(800, h))`. */
  function ClampHeight(h: int): (r: int)
    ensures MinHeight <= r <= MaxHeight
    ensures MinHeight <= h <= MaxHeight ==> r == h
    ensures h < MinHeight ==> r == MinHeight
    ensures h > MaxHeight ==> r == MaxHeight
  {
    if h > MaxHeight then MaxHeight else if h < MinHeight then MinHeight else h
  }

  /** Clamping keeps the order of heights: dragging further down never makes the editor shorter. */
  lemma ClampMonotone(a: int, b: int)
    requires a <= b
    ensures ClampHeight(a) <= ClampHeight(b)
  {
  }

  /** What `mermaid.render` ends with: the SVG, a thrown `Error` with its message, or some other thrown value. */
  datatype RenderOutcome = Rendered(svg: string) | ThrewError(message: string) | ThrewOther

  /** What the preview pane holds. */
  datatype Pane = Empty | Placeholder | Diagram(svg: string) | ErrorBox(message: string)

  const MissingKeywordError := "ER図を描画するには \"erDiagram\" で始まる必要があります"
  const DefaultRenderError := "Mermaid構文エラーが発生しました"

  /** The error message and the pane `renderDiagram` leaves behind. */
  datatype RenderState = RenderState(error: Option<string>, pane: Pane)

  /**
   * `renderDiagram`: a blank value (or an unmounted pane) clears the error and shows the
   * placeholder; a value without `erDiagram` is an error before Mermaid is called; otherwise
   * the render's outcome decides.
   */
  function Render(value: string, pane: Pane, mounted: bool, render: string -> RenderOutcome): (r: RenderState)
    ensures !mounted ==> r == RenderState(None, pane)
    ensures mounted && !HasText(value) ==> r == RenderState(None, Placeholder)
    ensures mounted && HasText(value) && !Contains(value, "erDiagram") ==>
              r == RenderState(Some(MissingKeywordError), ErrorBox(MissingKeywordError))
    ensures mounted && HasText(value) && Contains(value, "erDiagram") && render(value).Rendered? ==>
              r == RenderState(None, Diagram(render(value).svg))
    ensures r.error.Some? ==> r.pane == ErrorBox(r.error.value)
  {
    if !mounted || !HasText(value) then
      RenderState(None, if mounted then Placeholder else pane)
    else if !Contains(value, "erDiagram") then
      RenderState(Some(MissingKeywordError), ErrorBox(MissingKeywordError))
    else
      match render(value)
      case Rendered(svg) => RenderState(None, Diagram(svg))
      case ThrewError(message) => RenderState(Some(message), ErrorBox(message))
      case ThrewOther => RenderState(Some(DefaultRenderError), ErrorBox(DefaultRenderError))
  }

  /** The Mermaid library is reached only for a non-blank value that mentions `erDiagram`. */
  lemma RenderConsultsMermaidOnlyAfterPrecheck(value: string, pane: Pane, render1: string -> RenderOutcome,
                                               render2: string -> RenderOutcome)
    requires !HasText(value) || !Contains(value, "erDiagram")
    ensures Render(value, pane, true, render1) == Render(value, pane, true, render2)
  {
  }

  /** The sample diagram `insertSample` writes. */
  const SampleCode :=
    "erDiagram\n" +
    "    User {\n        int id PK\n        string name\n        string email\n        datetime created_at\n    }\n    \n" +
    "    Order {\n        int id PK\n        int user_id FK\n        decimal amount\n        datetime order_date\n    }\n    \n" +
    "    OrderItem {\n        int id PK\n        int order_id FK\n        int product_id FK\n        int quantity\n        decimal price\n    }\n    \n" +
    "    Product {\n        int id PK\n        string name\n        text description\n        decimal price\n        int stock\n    }\n    \n" +
    "    User ||--o{ Order : \"has many\"\n" +
    "    Order ||--o{ OrderItem : \"contains\"\n" +
    "    Product ||--o{ OrderItem : \"in\""

  /** The sample passes the editor's own pre-check: it is not blank and mentions `erDiagram`. */
  lemma SamplePassesPrecheck()
    ensures HasText(SampleCode)
    ensures Contains(SampleCode, "erDiagram")
  {
    assert MatchAt(SampleCode, "erDiagram", 0) by {
      assert SampleCode[..9] == "erDiagram";
    }
  }

  /** `insertSample`: the new value, or None when nothing is written (a non-blank value and a declined confirmation). */
  function InsertSample(value: string, confirmed: bool): (r: Option<string>)
    ensures !HasText(value) ==> r == Some(SampleCode)
    ensures HasText(value) ==> (r == Some(SampleCode) <==> confirmed) && (r == None <==> !confirmed)
  {
    if HasText(value) && !confirmed then None else Some(SampleCode)
  }

  /** The editor: its diagram text (owned by the parent) and its own UI state. */
  class Editor {
    var value: string
    var displayMode: DisplayMode
    var error: Option<string>
    var height: int
    var isResizing: bool
    var pane: Pane
    /** Whether the preview element is mounted (`previewRef.current`). */
    var previewMounted: bool

    /** The initial state: split view, 500 pixels high, no error, not resizing. */
    constructor(initial: string, mounted: bool)
      ensures value == initial && displayMode == Split && error == None
      ensures height == 500 && !isResizing && pane == Empty && previewMounted == mounted
      ensures Valid()
    {
      value := initial;
      displayMode := Split;
      error := None;
      height := 500;
      isResizing := false;
      pane := Empty;
      previewMounted := mounted;
    }

    /** The height is always within the bounds the resize handle allows. */
    ghost predicate Valid()
      reads this
    {
      MinHeight <= height <= MaxHeight
    }

    /** The toolbar's mode button. */
    method CycleMode()
      modifies this
      ensures displayMode == NextMode(old(displayMode))
      ensures value == old(value) && height == old(height) && error == old(error) && pane == old(pane)
      ensures isResizing == old(isResizing) && previewMounted == old(previewMounted)
    {
      displayMode := NextMode(displayMode);
    }

    /** `handleMouseDown` on the resize handle. */
    method MouseDown()
      modifies this
      ensures isResizing && height == old(height) && displayMode == old(displayMode)
      ensures value == old(value) && error == old(error) && pane == old(pane) && previewMounted == old(previewMounted)
    {
      isResizing := true;
    }

    /** `handleMouseUp`. */
    method MouseUp()
      modifies this
      ensures !isResizing && height == old(height) && displayMode == old(displayMode)
      ensures value == old(value) && error == old(error) && pane == old(pane) && previewMounted == old(previewMounted)
    {
      isResizing := false;
    }

    /**
     * `handleMouseMove`: while resizing, with the container's top edge known, the height follows
     * the pointer less the toolbar, clamped to [300, 800]; otherwise nothing changes.
     */
    method MouseMove(clientY: int, containerTop: Option<int>)
      requires Valid()
      modifies this
      ensures Valid()
      ensures isResizing && containerTop.Some? ==>
                height == ClampHeight(clientY - containerTop.value - ToolbarHeight)
      ensures !(isResizing && containerTop.Some?) ==> height == old(height)
      ensures isResizing == old(isResizing) && displayMode == old(displayMode)
      ensures value == old(value) && error == old(error) && pane == old(pane) && previewMounted == old(previewMounted)
    {
      if isResizing && containerTop.Some? {
        height := ClampHeight(clientY - containerTop.value - ToolbarHeight);
      }
    }

    /** `renderDiagram`, with Mermaid's outcome for each text given by `render`. */
    method RenderDiagram(render: string -> RenderOutcome)
      modifies this
      ensures RenderState(error, pane) == Render(value, old(pane), previewMounted, render)
      ensures value == old(value) && displayMode == old(displayMode) && height == old(height)
      ensures isResizing == old(isResizing) && previewMounted == old(previewMounted)
    {
      var s := Render(value, pane, previewMounted, render);
      error := s.error;
      pane := s.pane;
    }

    /**
     * The effects that run when the value or the mode changes (the debounce is a single step
     * here): they render unless the editor alone is shown.
     */
    method Refresh(render: string -> RenderOutcome)
      modifies this
      ensures displayMode == EditorOnly ==> error == old(error) && pane == old(pane)
      ensures displayMode != EditorOnly ==> RenderState(error, pane) == Render(value, old(pane), previewMounted, render)
      ensures value == old(value) && displayMode == old(displayMode) && height == old(height)
      ensures isResizing == old(isResizing) && previewMounted == old(previewMounted)
    {
      if displayMode != EditorOnly {
        RenderDiagram(render);
      }
    }

    /** `insertSample`: writes the sample unless a non-blank value would be lost without confirmation. */
    method InsertSampleCode(confirmed: bool)
      modifies this
      ensures InsertSample(old(value), confirmed).Some? ==> value == SampleCode
      ensures InsertSample(old(value), confirmed).None? ==> value == old(value)
      ensures displayMode == old(displayMode) && height == old(height) && error == old(error) && pane == old(pane)
      ensures isResizing == old(isResizing) && previewMounted == old(previewMounted)
    {
      if HasText(value) && !confirmed {
        return;
      }
      value := SampleCode;
    }
  }
}
