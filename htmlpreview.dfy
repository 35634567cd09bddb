/**
 * `previewHtmlImageConversion`: a size and complexity estimate for an HTML fragment before
 * it is rendered to an image. Complexity comes from counting the matches of the regular
 * expression `<[^/][^>]*>` (an opening or self-closing tag).
 */
module HtmlPreview {
  import opened Wrappers
  import opened Text

  datatype Complexity = Simple | Moderate | Complex

  datatype Preview = Preview(estimatedSize: string, htmlLength: nat, hasStyles: bool, complexity: Complexity)

  /** The first `>` at or after `j`. */
  function CloseFrom(s: string, j: nat): (r: Option<nat>)
    ensures r.Some? ==> j <= r.value < |s| && s[r.value] == '>'
    ensures r.Some? ==> forall k :: j <= k < r.value ==> s[k] != '>'
    ensures r.None? ==> forall k :: j <= k < |s| ==> s[k] != '>'
    decreases |s| - j
  {
    if j >= |s| then None
    else if s[j] == '>' then Some(j)
    else CloseFrom(s, j + 1)
  }

  /**
   * Where a match of `<[^/][^>]*>` starting at `i` ends (one past its `>`), if one starts
   * there. `[^/]` may itself be a `>`, and `[^>]*` cannot step over a `>`, so the match is
   * `<`, one character other than `/`, and everything up to the first `>` after that.
   */
  function TagAt(s: string, i: nat): (r: Option<nat>)
    ensures r.Some? ==> i + 3 <= r.value <= |s| && s[i] == '<' && s[i + 1] != '/' && s[r.value - 1] == '>'
    ensures r.Some? ==> forall k :: i + 2 <= k < r.value - 1 ==> s[k] != '>'
  {
    if i + 1 < |s| && s[i] == '<' && s[i + 1] != '/' then
      match CloseFrom(s, i + 2)
      case Some(j) => Some(j + 1)
      case None => None
    else None
  }

  /** The number of matches the global search finds from `i` on: each search resumes after the previous match. */
  function CountTags(s: string, i: nat): nat
    requires i <= |s|
    decreases |s| - i
  {
    if i == |s| then 0
    else match TagAt(s, i)
      case Some(e) => 1 + CountTags(s, e)
      case None => CountTags(s, i + 1)
  }

  /** `(html.match(/<[^/][^>]*>/g) || []).length`. */
  function ElementCount(html: string): nat
  {
    CountTags(html, 0)
  }

  /** The three-way threshold on the element count. */
  function ComplexityOf(elementCount: nat): (c: Complexity)
    ensures c == Complex <==> elementCount > 50
    ensures c == Moderate <==> 20 < elementCount <= 50
    ensures c == Simple <==> elementCount <= 20
  {
    if elementCount > 50 then Complex
    else if elementCount > 20 then Moderate
    else Simple
  }

  /** `Math.round(a / b)` for non-negative `a` and positive `b` (halves round up). */
  function RoundDiv(a: nat, b: nat): (q: nat)
    requires b > 0
    ensures 2 * q * b <= 2 * a + b < 2 * q * b + 2 * b
  {
    (2 * a + b) / (2 * b)
  }

  /**
   * The estimated image size: `Math.round(1000 * 700 * 4 * 1.33 / 1024)` kilobytes, written in
   * megabytes (rounded) when above 1024. The product is 3724000, computed here in integers.
   */
  function EstimatedSize(): string
  {
    var kb := RoundDiv(1000 * 700 * 4 * 133, 100 * 1024);
    if kb > 1024 then NatToString(RoundDiv(kb, 1024)) + "MB" else NatToString(kb) + "KB"
  }

  /** `previewHtmlImageConversion`. */
  function PreviewHtmlImageConversion(html: string): (p: Preview)
    ensures p.htmlLength == |html|
    ensures p.hasStyles <==> Contains(html, "<style>") || Contains(html, "style=")
    ensures p.complexity == ComplexityOf(ElementCount(html))
    ensures p.estimatedSize == "4MB"
  {
    EstimatedSizeIsFourMB();
    Preview(EstimatedSize(), |html|, Contains(html, "<style>") || Contains(html, "style="),
            ComplexityOf(ElementCount(html)))
  }

  /** The estimate is the same for every input: 3724000 / 1024 rounds to 3637 KB, shown as 4 MB. */
  lemma EstimatedSizeIsFourMB()
    ensures EstimatedSize() == "4MB"
  {
    assert RoundDiv(1000 * 700 * 4 * 133, 100 * 1024) == 3637;
    assert RoundDiv(3637, 1024) == 4;
    assert NatToString(4) == "4";
  }

  /** Every match spends at least three characters (`<`, one more, `>`), so there are at most a third as many tags as characters. */
  lemma {:induction false} CountTagsBound(s: string, i: nat)
    requires i <= |s|
    ensures 3 * CountTags(s, i) <= |s| - i
    decreases |s| - i
  {
    if i < |s| {
      match TagAt(s, i)
      case Some(e) => CountTagsBound(s, e);
      case None => CountTagsBound(s, i + 1);
    }
  }

  /** Consequently a fragment shorter than 63 characters is always simple, and one shorter than 153 is never complex. */
  lemma ShortFragmentsAreSimple(html: string)
    ensures |html| < 63 ==> PreviewHtmlImageConversion(html).complexity == Simple
    ensures |html| < 153 ==> PreviewHtmlImageConversion(html).complexity != Complex
  {
    CountTagsBound(html, 0);
  }

  /** Text without any `<` has no elements. */
  lemma {:induction false} NoAngleNoTags(s: string, i: nat)
    requires i <= |s|
    requires forall k :: i <= k < |s| ==> s[k] != '<'
    ensures CountTags(s, i) == 0
    decreases |s| - i
  {
    if i < |s| {
      NoAngleNoTags(s, i + 1);
    }
  }

  /** A closing tag `</…>` is not counted, while an opening tag `<…>` at the same place is counted. */
  lemma ClosingTagsNotCounted(name: string)
    requires forall k :: 0 <= k < |name| ==> name[k] != '<' && name[k] != '>'
    ensures ElementCount("</" + name + ">") == 0
    ensures ElementCount("<x" + name + ">") == 1
  {
    var close := "</" + name + ">";
    NoAngleNoTags(close, 1);
    var open := "<x" + name + ">";
    forall m | 2 <= m < |open| - 1 ensures open[m] != '>' {
      assert open[m] == name[m - 2];
    }
    CloseSkips(open, 2, |open| - 1);
    assert TagAt(open, 0) == Some(|open|);
    assert CountTags(open, 0) == 1 + CountTags(open, |open|);
  }

  /** The scan for `>` passes over characters that are not `>`. */
  lemma {:induction false} CloseSkips(s: string, j: nat, k: nat)
    requires j <= k < |s| && s[k] == '>'
    requires forall m :: j <= m < k ==> s[m] != '>'
    ensures CloseFrom(s, j) == Some(k)
    decreases k - j
  {
    if j < k {
      CloseSkips(s, j + 1, k);
    }
  }
}
