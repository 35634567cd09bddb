/**
 * The ZIP export of a project: a Markdown document whose screen entries link image files
 * instead of embedding them, an `images/` folder holding the uploaded mock-ups and the
 * AI-generated screen images under sanitised file names, and the map of AI images by
 * document id that the Markdown consults. The archive is modelled by its file table; JSZip's
 * encoding, the base64 decoding of the images, the Blob and the anchor download are not.
 */
module ZipExport {
  import opened Wrappers
  import Json
  import Text
  import Lists
  import Storage
  import MarkdownTable
  import MarkdownExport

  // ---------------------------------------------------------------------------------------
  // File names
  // ---------------------------------------------------------------------------------------

  /** The characters `/[<>:"/\\|?*]/` matches. */
  predicate Forbidden(c: char)
  {
    c == '<' || c == '>' || c == ':' || c == '"' || c == '/' || c == '\\' || c == '|' || c == '?' || c == '*'
  }

  /** Every forbidden character replaced by `_`. */
  function ReplaceForbidden(s: string): string
  {
    if s == [] then [] else [if Forbidden(s[0]) then '_' else s[0]] + ReplaceForbidden(s[1..])
  }

  /** The replacement keeps the length and every character that is not forbidden, and changes the others to `_`. */
  lemma {:induction false} ReplaceForbiddenSpec(s: string)
    ensures |ReplaceForbidden(s)| == |s|
    ensures forall i :: 0 <= i < |s| ==> ReplaceForbidden(s)[i] == if Forbidden(s[i]) then '_' else s[i]
  {
    if s != [] {
      ReplaceForbiddenSpec(s[1..]);
    }
  }

  /**
   * Each maximal run of whitespace replaced by one `_` (`/\s+/g`, matched greedily from the
   * left, so a run is never split).
   */
  function CollapseSpaces(s: string): string
    decreases |s|
  {
    if s == [] then []
    else if Text.JsSpace(s[0]) then "_" + CollapseSpaces(Text.TrimLeft(Text.Js, s[1..]))
    else [s[0]] + CollapseSpaces(s[1..])
  }

  /** Collapsing never lengthens the text, leaves no whitespace and introduces no character but `_`. */
  lemma {:induction false} CollapseSpacesSpec(s: string)
    ensures |CollapseSpaces(s)| <= |s|
    ensures forall i :: 0 <= i < |CollapseSpaces(s)| ==> !Text.JsSpace(CollapseSpaces(s)[i])
    ensures forall i :: 0 <= i < |CollapseSpaces(s)| ==> CollapseSpaces(s)[i] == '_' || CollapseSpaces(s)[i] in s
    decreases |s|, 1
  {
    if s != [] {
      CollapseSpacesSpecFirst(s);
    }
  }

  /** The step of `CollapseSpacesSpec`: the first character, or the run it opens, and the rest. */
  lemma {:induction false} CollapseSpacesSpecFirst(s: string)
    requires s != []
    ensures |CollapseSpaces(s)| <= |s|
    ensures forall i :: 0 <= i < |CollapseSpaces(s)| ==> !Text.JsSpace(CollapseSpaces(s)[i])
    ensures forall i :: 0 <= i < |CollapseSpaces(s)| ==> CollapseSpaces(s)[i] == '_' || CollapseSpaces(s)[i] in s
    decreases |s|, 0
  {
    var t := s[1..];
    if Text.JsSpace(s[0]) {
      var rest := Text.TrimLeft(Text.Js, t);
      CollapseFirst(s, t, rest, '_');
      RestInside(s, t, rest);
      CollapseSpacesSpec(rest);
      PrependCollapsed(s, rest, '_', CollapseSpaces(rest));
    } else {
      CollapseFirst(s, t, t, s[0]);
      WordRestInside(s, t);
      CollapseSpacesSpec(t);
      PrependCollapsed(s, t, s[0], CollapseSpaces(t));
    }
  }

  lemma WordRestInside(s: string, t: string)
    requires s != [] && t == s[1..]
    ensures |t| < |s| && (forall c :: c in t ==> c in s) && s[0] in s
  {
  }

  /** What is left after the first character, or after the run it opens, lies inside the text. */
  lemma RestInside(s: string, t: string, rest: string)
    requires s != [] && t == s[1..] && |rest| <= |t| && rest == t[|t| - |rest|..]
    ensures |rest| < |s| && forall c :: c in rest ==> c in s
  {
    assert forall k :: 0 <= k < |rest| ==> rest[k] == s[|s| - |rest| + k];
  }

  /** A safe first character in front of a collapsed rest keeps the three properties of `CollapseSpacesSpec`. */
  lemma PrependCollapsed(s: string, rest: string, head: char, cr: string)
    requires |rest| < |s| && forall c :: c in rest ==> c in s
    requires !Text.JsSpace(head) && (head == '_' || head in s)
    requires |cr| <= |rest|
    requires forall i :: 0 <= i < |cr| ==> !Text.JsSpace(cr[i])
    requires forall i :: 0 <= i < |cr| ==> cr[i] == '_' || cr[i] in rest
    ensures |[head] + cr| <= |s|
    ensures forall i :: 0 <= i < |[head] + cr| ==> !Text.JsSpace(([head] + cr)[i])
    ensures forall i :: 0 <= i < |[head] + cr| ==> ([head] + cr)[i] == '_' || ([head] + cr)[i] in s
  {
  }

  /** How `CollapseSpaces` takes the first character: a space opens a run that becomes `_`. */
  lemma CollapseFirst(s: string, t: string, rest: string, head: char)
    requires s != [] && t == s[1..]
    requires rest == if Text.JsSpace(s[0]) then Text.TrimLeft(Text.Js, t) else t
    requires head == if Text.JsSpace(s[0]) then '_' else s[0]
    ensures CollapseSpaces(s) == [head] + CollapseSpaces(rest)
  {
  }

  /** The file-name stem of a document: forbidden characters and whitespace runs become `_`, then at most 100 characters are kept. */
  function SanitizeFileName(name: string): string
  {
    Text.Prefix(CollapseSpaces(ReplaceForbidden(name)), 100)
  }

  /** A sanitised stem is at most 100 characters long and holds no forbidden character and no whitespace. */
  lemma SanitizedIsSafe(name: string)
    ensures |SanitizeFileName(name)| <= 100
    ensures forall i :: 0 <= i < |SanitizeFileName(name)| ==> !Forbidden(SanitizeFileName(name)[i]) && !Text.JsSpace(SanitizeFileName(name)[i])
  {
    var replaced := ReplaceForbidden(name);
    var collapsed := CollapseSpaces(replaced);
    ReplaceForbiddenSpec(name);
    CollapseSpacesSpec(replaced);
    forall i | 0 <= i < |collapsed|
      ensures !Forbidden(collapsed[i])
    {
      if collapsed[i] != '_' {
        var j :| 0 <= j < |replaced| && replaced[j] == collapsed[i];
      }
    }
  }

  /** A run of leading whitespace is what `TrimLeft` removes. */
  lemma {:induction false} TrimLeftRun(w: string, b: string)
    requires forall i :: 0 <= i < |w| ==> Text.JsSpace(w[i])
    requires b == [] || !Text.JsSpace(b[0])
    ensures Text.TrimLeft(Text.Js, w + b) == b
  {
    if w == [] {
      assert w + b == b;
    } else {
      assert (w + b)[1..] == w[1..] + b;
      TrimLeftRun(w[1..], b);
    }
  }

  /** A word without whitespace is copied unchanged. */
  lemma {:induction false} CollapseWord(a: string, b: string)
    requires forall i :: 0 <= i < |a| ==> !Text.JsSpace(a[i])
    ensures CollapseSpaces(a + b) == a + CollapseSpaces(b)
  {
    if a == [] {
      assert a + b == b;
    } else {
      assert (a + b)[0] == a[0] && (a + b)[1..] == a[1..] + b;
      CollapseWord(a[1..], b);
      assert a == [a[0]] + a[1..];
    }
  }

  /** A whole run of whitespace becomes exactly one `_`. */
  lemma CollapseRun(w: string, b: string)
    requires w != [] && forall i :: 0 <= i < |w| ==> Text.JsSpace(w[i])
    requires b == [] || !Text.JsSpace(b[0])
    ensures CollapseSpaces(w + b) == "_" + CollapseSpaces(b)
  {
    var s := w + b;
    var t := s[1..];
    assert s[0] == w[0] && t == w[1..] + b;
    TrimLeftRun(w[1..], b);
    CollapseFirst(s, t, b, '_');
  }

  /** A name that is already a safe stem is its own sanitised form; sanitising is therefore idempotent. */
  lemma SanitizeKeepsSafeNames(name: string)
    requires |name| <= 100
    requires forall i :: 0 <= i < |name| ==> !Forbidden(name[i]) && !Text.JsSpace(name[i])
    ensures SanitizeFileName(name) == name
  {
    ReplaceForbiddenSpec(name);
    assert ReplaceForbidden(name) == name;
    CollapseWord(name, "");
    assert name + "" == name;
  }

  lemma SanitizeIdempotent(name: string)
    ensures SanitizeFileName(SanitizeFileName(name)) == SanitizeFileName(name)
  {
    SanitizedIsSafe(name);
    SanitizeKeepsSafeNames(SanitizeFileName(name));
  }

  /** The whitespace of `a b` becomes `_`. */
  lemma SpaceStem()
    ensures SanitizeFileName("a b") == "a_b"
  {
    assert ReplaceForbidden("a b") == "a b";
    CollapseWord("a", " b");
    assert "a" + " b" == "a b";
    CollapseRun(" ", "b");
    assert " " + "b" == " b";
    CollapseWord("b", "");
    assert "b" + "" == "b";
  }

  /** The colon of `a:b` becomes `_`. */
  lemma ColonStem()
    ensures SanitizeFileName("a:b") == "a_b"
  {
    assert ReplaceForbidden("a:b") == "a_b";
    CollapseWord("a_b", "");
    assert "a_b" + "" == "a_b";
  }

  /** Sanitising is not injective: `a b` and `a:b` share the stem `a_b`. */
  lemma SanitizeCollides()
    ensures SanitizeFileName("a b") == SanitizeFileName("a:b") == "a_b"
  {
    SpaceStem();
    ColonStem();
  }

  function MockupFile(name: string): string
  {
    SanitizeFileName(name) + "_mockup.png"
  }

  function AiFile(name: string): string
  {
    SanitizeFileName(name) + "_ai_generated.png"
  }

  /** A mock-up file and an AI-image file never share a name: their endings differ. */
  lemma FileKindsDistinct(a: string, b: string)
    ensures MockupFile(a) != AiFile(b)
  {
    var m := MockupFile(a);
    var f := AiFile(b);
    if |m| == |f| {
      assert m[|m| - 11] == '_';
      assert f[|f| - 11] == 'n';
    }
  }

  // ---------------------------------------------------------------------------------------
  // The AI image map and the image folder
  // ---------------------------------------------------------------------------------------

  /** The AI images by document id after the first `n` documents; a later document with the same id replaces the earlier image. */
  function AiImages(docs: seq<Storage.Document>, n: nat): map<string, string>
    requires n <= |docs|
  {
    if n == 0 then map[]
    else
      var m := AiImages(docs, n - 1);
      var d := docs[n - 1];
      if MarkdownExport.Present(d.aiGeneratedImage) then m[d.id := d.aiGeneratedImage.value] else m
  }

  /**
   * The map holds exactly the ids of documents with an AI image, each with the image of the
   * last such document.
   */
  lemma {:induction false} AiImagesSpec(docs: seq<Storage.Document>, n: nat)
    requires n <= |docs|
    ensures forall id :: id in AiImages(docs, n) ==>
              exists i :: 0 <= i < n && docs[i].id == id && MarkdownExport.Present(docs[i].aiGeneratedImage)
    ensures forall i :: 0 <= i < n && MarkdownExport.Present(docs[i].aiGeneratedImage) ==> docs[i].id in AiImages(docs, n)
    ensures forall i :: 0 <= i < n && MarkdownExport.Present(docs[i].aiGeneratedImage)
              && (forall j :: i < j < n && docs[j].id == docs[i].id ==> !MarkdownExport.Present(docs[j].aiGeneratedImage))
              ==> AiImages(docs, n)[docs[i].id] == docs[i].aiGeneratedImage.value
  {
    if n > 0 {
      AiImagesSpec(docs, n - 1);
    }
  }

  /** The number of the first `n` documents that carry an AI image. */
  function AiImageDocs(docs: seq<Storage.Document>, n: nat): nat
    requires n <= |docs|
  {
    if n == 0 then 0 else AiImageDocs(docs, n - 1) + if MarkdownExport.Present(docs[n - 1].aiGeneratedImage) then 1 else 0
  }

  /** With unique document ids, the map has one entry per document with an AI image. */
  lemma {:induction false} AiImageCount(docs: seq<Storage.Document>, n: nat)
    requires n <= |docs| && Storage.DistinctDocumentIds(docs)
    ensures |AiImages(docs, n)| == AiImageDocs(docs, n)
  {
    if n > 0 {
      AiImageCount(docs, n - 1);
      AiImagesSpec(docs, n - 1);
      var d := docs[n - 1];
      forall i | 0 <= i < n - 1
        ensures docs[i].id != d.id
      {
        assert Storage.DocId(docs[i]) != Storage.DocId(docs[n - 1]);
      }
      assert d.id !in AiImages(docs, n - 1);
    }
  }

  /** The image folder after the first `n` documents: a file written again under the same name is replaced. */
  function ImageFiles(docs: seq<Storage.Document>, n: nat): map<string, string>
    requires n <= |docs|
  {
    if n == 0 then map[]
    else
      var d := docs[n - 1];
      var before := ImageFiles(docs, n - 1);
      var withMockup := if MarkdownExport.Present(d.mockup) then before[MockupFile(d.name) := d.mockup.value] else before;
      if MarkdownExport.Present(d.aiGeneratedImage) then withMockup[AiFile(d.name) := d.aiGeneratedImage.value] else withMockup
  }

  /**
   * Every document of any type with a mock-up or an AI image has its file in the folder, and
   * the folder holds no other file.
   */
  lemma {:induction false} ImageFilesSpec(docs: seq<Storage.Document>, n: nat)
    requires n <= |docs|
    ensures forall i :: 0 <= i < n && MarkdownExport.Present(docs[i].mockup) ==> MockupFile(docs[i].name) in ImageFiles(docs, n)
    ensures forall i :: 0 <= i < n && MarkdownExport.Present(docs[i].aiGeneratedImage) ==> AiFile(docs[i].name) in ImageFiles(docs, n)
    ensures forall f :: f in ImageFiles(docs, n) ==>
              exists i :: 0 <= i < n && ((MarkdownExport.Present(docs[i].mockup) && f == MockupFile(docs[i].name))
                                       || (MarkdownExport.Present(docs[i].aiGeneratedImage) && f == AiFile(docs[i].name)))
  {
    if n > 0 {
      ImageFilesSpec(docs, n - 1);
    }
  }

  /**
   * A mock-up file holds the mock-up of the last document whose name sanitises to the same
   * stem: an earlier document's upload is silently replaced.
   */
  lemma {:induction false} LastMockupWins(docs: seq<Storage.Document>, n: nat, i: nat)
    requires i < n <= |docs| && MarkdownExport.Present(docs[i].mockup)
    requires forall j :: i < j < n && MarkdownExport.Present(docs[j].mockup) ==> MockupFile(docs[j].name) != MockupFile(docs[i].name)
    ensures MockupFile(docs[i].name) in ImageFiles(docs, n)
    ensures ImageFiles(docs, n)[MockupFile(docs[i].name)] == docs[i].mockup.value
  {
    var key := MockupFile(docs[i].name);
    FileKindsDistinct(docs[i].name, docs[n - 1].name);
    if i < n - 1 {
      LastMockupWins(docs, n - 1, i);
      ImageFilesUntouched(docs, n, key);
    } else {
      ImageFilesLastMockup(docs, n);
    }
  }

  /** A file that the `n`-th document does not write keeps its presence and content. */
  lemma ImageFilesUntouched(docs: seq<Storage.Document>, n: nat, key: string)
    requires 0 < n <= |docs|
    requires !(MarkdownExport.Present(docs[n - 1].mockup) && MockupFile(docs[n - 1].name) == key)
    requires !(MarkdownExport.Present(docs[n - 1].aiGeneratedImage) && AiFile(docs[n - 1].name) == key)
    ensures key in ImageFiles(docs, n) <==> key in ImageFiles(docs, n - 1)
    ensures key in ImageFiles(docs, n) ==> ImageFiles(docs, n)[key] == ImageFiles(docs, n - 1)[key]
  {
  }

  /** The `n`-th document's mock-up is in the folder after it. */
  lemma ImageFilesLastMockup(docs: seq<Storage.Document>, n: nat)
    requires 0 < n <= |docs| && MarkdownExport.Present(docs[n - 1].mockup)
    ensures MockupFile(docs[n - 1].name) in ImageFiles(docs, n)
    ensures ImageFiles(docs, n)[MockupFile(docs[n - 1].name)] == docs[n - 1].mockup.value
  {
    FileKindsDistinct(docs[n - 1].name, docs[n - 1].name);
  }

  /** Two documents whose mock-ups share a file name leave one file, holding the second upload. */
  lemma SharedMockupFile(first: Storage.Document, second: Storage.Document)
    requires MockupFile(first.name) == MockupFile(second.name)
    requires MarkdownExport.Present(first.mockup) && MarkdownExport.Present(second.mockup)
    requires !MarkdownExport.Present(first.aiGeneratedImage) && !MarkdownExport.Present(second.aiGeneratedImage)
    ensures ImageFiles([first, second], 2) == map[MockupFile(second.name) := second.mockup.value]
  {
    var key := MockupFile(second.name);
    var docs := [first, second];
    assert ImageFiles(docs, 0) == map[];
    assert ImageFiles(docs, 1) == map[key := first.mockup.value];
    assert ImageFiles(docs, 2) == map[key := first.mockup.value][key := second.mockup.value];
  }

  /** Documents named `a b` and `a:b`, both with a mock-up, leave one file. */
  lemma MockupCollision(first: Storage.Document, second: Storage.Document)
    requires first.name == "a b" && second.name == "a:b"
    requires MarkdownExport.Present(first.mockup) && MarkdownExport.Present(second.mockup)
    requires !MarkdownExport.Present(first.aiGeneratedImage) && !MarkdownExport.Present(second.aiGeneratedImage)
    ensures MockupFile(first.name) == MockupFile(second.name)
    ensures ImageFiles([first, second], 2) == map[MockupFile(second.name) := second.mockup.value]
  {
    SanitizeCollides();
    SharedMockupFile(first, second);
  }

  /** The loop that builds the AI image map. */
  method BuildAiImageMap(docs: seq<Storage.Document>) returns (images: map<string, string>)
    ensures images == AiImages(docs, |docs|)
  {
    images := map[];
    var i := 0;
    while i < |docs|
      invariant i <= |docs| && images == AiImages(docs, i)
    {
      var doc := docs[i];
      if MarkdownExport.Present(doc.aiGeneratedImage) {
        images := images[doc.id := doc.aiGeneratedImage.value];
      }
      i := i + 1;
    }
  }

  /** The loop that writes the image folder. */
  method AddImageFiles(docs: seq<Storage.Document>) returns (folder: map<string, string>)
    ensures folder == ImageFiles(docs, |docs|)
  {
    folder := map[];
    var i := 0;
    while i < |docs|
      invariant i <= |docs| && folder == ImageFiles(docs, i)
    {
      var doc := docs[i];
      if MarkdownExport.Present(doc.mockup) {
        folder := folder[MockupFile(doc.name) := doc.mockup.value];
      }
      if MarkdownExport.Present(doc.aiGeneratedImage) {
        folder := folder[AiFile(doc.name) := doc.aiGeneratedImage.value];
      }
      i := i + 1;
    }
  }

  // ---------------------------------------------------------------------------------------
  // The Markdown with image references
  // ---------------------------------------------------------------------------------------

  /** `aiGeneratedImages[doc.id]` when it is truthy. */
  function AiImageOf(images: map<string, string>, id: string): Option<string>
  {
    if id in images && images[id] != "" then Some(images[id]) else None
  }

  function MockupLink(d: Storage.Document): string
  {
    "**アップロード画像:**\n" + "![" + d.name + "画面モックアップ](./images/" + MockupFile(d.name) + ")\n\n"
  }

  function AiLink(d: Storage.Document): string
  {
    "**AI生成画面イメージ:**\n" + "![" + d.name + "AI生成画面イメージ](./images/" + AiFile(d.name) + ")\n\n"
  }

  /** The image part of a screen entry: the mock-up link, the AI image link, or `画像なし` when there is neither. */
  function ImagePart(d: Storage.Document, images: map<string, string>): string
  {
    (if MarkdownExport.Present(d.mockup) then MockupLink(d) else "")
    + (if AiImageOf(images, d.id).Some? then AiLink(d) else "")
    + (if !MarkdownExport.Present(d.mockup) && AiImageOf(images, d.id).None? then "画像なし\n\n" else "")
  }

  /**
   * The image part links the uploaded mock-up exactly when there is one, the AI image exactly
   * when the map has one for the document's id, and says `画像なし` exactly when neither exists.
   */
  lemma ImagePartShape(d: Storage.Document, images: map<string, string>)
    ensures MarkdownExport.Present(d.mockup) ==> Text.StartsWith(ImagePart(d, images), MockupLink(d))
    ensures AiImageOf(images, d.id).Some? ==> Text.Contains(ImagePart(d, images), AiLink(d))
    ensures ImagePart(d, images) == "画像なし\n\n" <==> !MarkdownExport.Present(d.mockup) && AiImageOf(images, d.id).None?
  {
    var m := if MarkdownExport.Present(d.mockup) then MockupLink(d) else "";
    var a := if AiImageOf(images, d.id).Some? then AiLink(d) else "";
    var none := if !MarkdownExport.Present(d.mockup) && AiImageOf(images, d.id).None? then "画像なし\n\n" else "";
    var r := m + a + none;
    Text.StartsWithConcat(m, a);
    Text.StartsWithExtend(m + a, none, m);
    Text.ContainsInfix(m, a, none);
    if m != "" {
      assert r[0] == m[0] == '*';
    } else if a != "" {
      assert m + a + none == a;
      assert r[0] == '*';
    } else {
      assert r == none;
    }
    assert "画像なし\n\n"[0] != '*';
  }

  /** The screen entry before its image part. */
  function EntryHead(k: nat, d: Storage.Document, table: string): string
  {
    "### " + Text.NatToString(k + 1) + ". " + d.name + "\n\n"
    + "#### 📋 表示条件\n" + MarkdownExport.TextOrNone(d.conditions)
    + "#### 📊 項目定義\n" + table + "\n\n"
    + "#### 🖼️ 画面イメージ\n"
  }

  /** The screen entry after its image part. */
  function EntryTail(d: Storage.Document): string
  {
    "#### 📝 補足説明\n" + MarkdownExport.TextOrNone(d.supplement) + "---\n\n"
  }

  function ScreenEntryText(k: nat, d: Storage.Document, table: string, images: map<string, string>): string
  {
    EntryHead(k, d, table) + ImagePart(d, images) + EntryTail(d)
  }

  /** The entry of the screen document at 0-based position `k`; a missing sheet reads as `[]`. */
  function ScreenEntry(images: map<string, string>, k: nat, d: Storage.Document): Outcome<string>
  {
    match MarkdownTable.TableOf(Json.Or(d.spreadsheet, Json.JArr([])))
    case Raised(m) => Raised(m)
    case Ok(table) => Ok(ScreenEntryText(k, d, table, images))
  }

  /** The entries of the first `n` screen documents, or the error of the first table that cannot be converted. */
  function ScreenEntries(docs: seq<Storage.Document>, images: map<string, string>, n: nat): Outcome<string>
    requires n <= |docs|
  {
    if n == 0 then Ok("")
    else
      match ScreenEntries(docs, images, n - 1)
      case Raised(m) => Raised(m)
      case Ok(prev) =>
        match ScreenEntry(images, n - 1, docs[n - 1])
        case Raised(m) => Raised(m)
        case Ok(text) => Ok(prev + text)
  }

  /** One more screen document: its entry is appended, or its table failure ends the list. */
  lemma ScreenEntriesStep(docs: seq<Storage.Document>, images: map<string, string>, k: nat, n: nat, prev: string)
    requires 0 < n <= |docs| && k == n - 1 && ScreenEntries(docs, images, k) == Ok(prev)
    ensures var e := ScreenEntry(images, k, docs[k]);
            ScreenEntries(docs, images, n) == if e.Raised? then e else Ok(prev + e.value)
  {
    assert n == k + 1;
  }

  /** A failed list stays failed when one more screen document follows. */
  lemma ScreenEntriesRaisedStep(docs: seq<Storage.Document>, images: map<string, string>, k: nat, n: nat)
    requires 0 < n <= |docs| && k == n - 1 && ScreenEntries(docs, images, k).Raised?
    ensures ScreenEntries(docs, images, n) == ScreenEntries(docs, images, k)
  {
    assert n == k + 1;
  }

  /** Once a table has failed, the later documents are never reached. */
  lemma {:induction false} ScreenEntriesRaisedPersists(docs: seq<Storage.Document>, images: map<string, string>, n: nat, m: nat)
    requires n <= m <= |docs| && ScreenEntries(docs, images, n).Raised?
    ensures ScreenEntries(docs, images, m) == ScreenEntries(docs, images, n)
    decreases m - n
  {
    if n < m {
      ScreenEntriesRaisedStep(docs, images, n, n + 1);
      ScreenEntriesRaisedPersists(docs, images, n + 1, m);
    }
  }

  /** A screen entry holds its document's image part. */
  lemma ScreenEntryShowsImages(images: map<string, string>, k: nat, d: Storage.Document)
    ensures ScreenEntry(images, k, d).Ok? ==> Text.Contains(ScreenEntry(images, k, d).value, ImagePart(d, images))
  {
    var t := MarkdownTable.TableOf(Json.Or(d.spreadsheet, Json.JArr([])));
    if t.Ok? {
      Text.ContainsInfix(EntryHead(k, d, t.value), ImagePart(d, images), EntryTail(d));
    }
  }

  /** The diagram part of a data-model entry: the fenced diagram alone, or `ER図なし`. */
  function ZipDiagram(d: Storage.Document): string
  {
    if MarkdownExport.HasDiagram(d) then MarkdownExport.MermaidFence(d.mermaidCode.value) else "ER図なし\n\n"
  }

  /** The ZIP diagram part is the start of the plain export's, which adds the entity list after the fence. */
  lemma ZipDiagramIsPrefix(listHeading: string, mark: string, d: Storage.Document)
    ensures Text.StartsWith(MarkdownExport.DiagramBody(listHeading, mark, d), ZipDiagram(d))
  {
    if MarkdownExport.HasDiagram(d) {
      var fence := MarkdownExport.MermaidFence(d.mermaidCode.value);
      Text.StartsWithConcat(fence, MarkdownExport.EntityList(listHeading, mark, MarkdownExport.ExtractEntities(d.mermaidCode.value)));
    } else {
      Text.StartsWithConcat(ZipDiagram(d), "");
      assert ZipDiagram(d) + "" == ZipDiagram(d);
    }
  }

  function ModelEntries(docs: seq<Storage.Document>, n: nat): string
    requires n <= |docs|
  {
    if n == 0 then ""
    else ModelEntries(docs, n - 1) + MarkdownExport.ModelEntryText(n - 1, docs[n - 1], ZipDiagram(docs[n - 1]))
  }

  lemma ModelEntriesStep(docs: seq<Storage.Document>, k: nat, n: nat)
    requires 0 < n <= |docs| && k == n - 1
    ensures ModelEntries(docs, n) == ModelEntries(docs, k) + MarkdownExport.ModelEntryText(k, docs[k], ZipDiagram(docs[k]))
  {
  }

  /** The screen section: absent exactly when there is no screen document. */
  function ScreenSection(docs: seq<Storage.Document>, images: map<string, string>): (r: Outcome<string>)
    ensures docs == [] ==> r == Ok("")
    ensures docs != [] && r.Ok? ==> Text.StartsWith(r.value, MarkdownExport.SectionHeading(MarkdownExport.ScreenTitle, |docs|))
  {
    if |docs| == 0 then Ok("")
    else
      match ScreenEntries(docs, images, |docs|)
      case Raised(m) => Raised(m)
      case Ok(entries) =>
        Text.StartsWithConcat(MarkdownExport.SectionHeading(MarkdownExport.ScreenTitle, |docs|), entries);
        Ok(MarkdownExport.SectionHeading(MarkdownExport.ScreenTitle, |docs|) + entries)
  }

  /** The data-model section: empty exactly when there is no data-model document. */
  function ModelSection(docs: seq<Storage.Document>): (r: string)
    ensures r == "" <==> docs == []
    ensures docs != [] ==> Text.StartsWith(r, MarkdownExport.SectionHeading(MarkdownExport.ModelTitle, |docs|))
  {
    if |docs| == 0 then ""
    else
      Text.StartsWithConcat(MarkdownExport.SectionHeading(MarkdownExport.ModelTitle, |docs|), ModelEntries(docs, |docs|));
      MarkdownExport.SectionHeading(MarkdownExport.ModelTitle, |docs|) + ModelEntries(docs, |docs|)
  }

  /** The number of documents with an uploaded mock-up. */
  function MockupCount(docs: seq<Storage.Document>): nat
  {
    |Lists.Filter(docs, (d: Storage.Document) => MarkdownExport.Present(d.mockup))|
  }

  /** The image counts of the footer: present exactly when there is at least one image. */
  function ImageCountLines(mockups: nat, aiImages: nat): (r: string)
    ensures r == "" <==> mockups + aiImages == 0
  {
    if mockups + aiImages > 0 then
      "- **画像ファイル数**: " + Text.NatToString(mockups + aiImages) + "件\n"
      + "  - アップロード画像: " + Text.NatToString(mockups) + "件\n"
      + "  - AI生成画像: " + Text.NatToString(aiImages) + "件\n"
    else ""
  }

  function FooterHead(isoTime: string): string
  {
    "## 📄 エクスポート情報\n\n- **ツール**: mdai-designer\n- **形式**: プロジェクト統合設計書（ZIP版）\n"
    + "- **生成日時**: " + isoTime + "\n"
  }

  /** The export information: the total, the screen and data-model counts that are not zero, and the image counts. */
  function Footer(docs: seq<Storage.Document>, images: map<string, string>, isoTime: string): (r: string)
    ensures Text.Contains(r, MarkdownExport.TotalLine(|docs|))
  {
    var counts := MarkdownExport.CountLine("画面設計書", |MarkdownExport.OfType(docs, Storage.Screen)|)
                  + MarkdownExport.CountLine("データモデル設計書", |MarkdownExport.OfType(docs, Storage.Model)|)
                  + ImageCountLines(MockupCount(docs), |images|);
    Text.ContainsInfix(FooterHead(isoTime), MarkdownExport.TotalLine(|docs|), counts);
    FooterHead(isoTime) + MarkdownExport.TotalLine(|docs|) + counts
  }

  /**
   * The ZIP Markdown: the overview, the screen and data-model sections (documents of the
   * other types are counted but not listed), and the footer.
   */
  function MarkdownWithImageRefs(projectName: string, description: string, docs: seq<Storage.Document>,
                                 images: map<string, string>, localTime: string, isoTime: string): (r: Outcome<string>)
    ensures r.Ok? <==> ScreenSection(MarkdownExport.OfType(docs, Storage.Screen), images).Ok?
    ensures r.Ok? ==> Text.Contains(r.value, MarkdownExport.TotalLine(|docs|))
  {
    match ScreenSection(MarkdownExport.OfType(docs, Storage.Screen), images)
    case Raised(m) => Raised(m)
    case Ok(screens) =>
      var body := MarkdownExport.Overview(projectName, description, localTime, |docs|) + screens
                  + ModelSection(MarkdownExport.OfType(docs, Storage.Model));
      Text.ContainsExtend(body, Footer(docs, images, isoTime), MarkdownExport.TotalLine(|docs|));
      Ok(body + Footer(docs, images, isoTime))
  }

  /**
   * Documents of the API and database types get no section: without screen and data-model
   * documents the Markdown is the overview followed by the footer.
   */
  lemma OnlyScreenAndModelSections(projectName: string, description: string, docs: seq<Storage.Document>,
                                   images: map<string, string>, localTime: string, isoTime: string)
    requires forall d :: d in docs ==> d.docType != Some(Storage.Screen) && d.docType != Some(Storage.Model)
    ensures MarkdownWithImageRefs(projectName, description, docs, images, localTime, isoTime)
            == Ok(MarkdownExport.Overview(projectName, description, localTime, |docs|) + Footer(docs, images, isoTime))
  {
    MarkdownExport.OfTypeNone(docs, Storage.Screen);
    MarkdownExport.OfTypeNone(docs, Storage.Model);
    var o := MarkdownExport.Overview(projectName, description, localTime, |docs|);
    assert o + "" + "" == o;
  }

  /** One screen entry, with the table converter run on the document's first sheet. */
  method RenderScreenEntry(images: map<string, string>, k: nat, d: Storage.Document) returns (e: Outcome<string>)
    ensures e == ScreenEntry(images, k, d)
  {
    var table := MarkdownTable.ConvertSpreadsheetToMarkdownTable(Json.Or(d.spreadsheet, Json.JArr([])));
    if table.Raised? {
      return Raised(table.message);
    }
    e := Ok(ScreenEntryText(k, d, table.value, images));
  }

  method RenderScreenDocs(docs: seq<Storage.Document>, images: map<string, string>) returns (r: Outcome<string>)
    ensures r == ScreenEntries(docs, images, |docs|)
  {
    var markdown := "";
    var i := 0;
    while i < |docs|
      invariant i <= |docs| && ScreenEntries(docs, images, i) == Ok(markdown)
    {
      var entry := RenderScreenEntry(images, i, docs[i]);
      ghost var k := i;
      i := i + 1;
      ScreenEntriesStep(docs, images, k, i, markdown);
      if entry.Raised? {
        ScreenEntriesRaisedPersists(docs, images, i, |docs|);
        return entry;
      }
      markdown := markdown + entry.value;
    }
    r := Ok(markdown);
  }

  method RenderModelDocs(docs: seq<Storage.Document>) returns (markdown: string)
    ensures markdown == ModelEntries(docs, |docs|)
  {
    markdown := "";
    var i := 0;
    while i < |docs|
      invariant i <= |docs| && markdown == ModelEntries(docs, i)
    {
      markdown := markdown + MarkdownExport.ModelEntryText(i, docs[i], ZipDiagram(docs[i]));
      ghost var k := i;
      i := i + 1;
      ModelEntriesStep(docs, k, i);
    }
  }

  method RenderScreenSection(docs: seq<Storage.Document>, images: map<string, string>) returns (r: Outcome<string>)
    ensures r == ScreenSection(docs, images)
  {
    if |docs| == 0 {
      return Ok("");
    }
    var entries := RenderScreenDocs(docs, images);
    if entries.Raised? {
      return Raised(entries.message);
    }
    r := Ok(MarkdownExport.SectionHeading(MarkdownExport.ScreenTitle, |docs|) + entries.value);
  }

  method RenderModelSection(docs: seq<Storage.Document>) returns (section: string)
    ensures section == ModelSection(docs)
  {
    section := "";
    if |docs| > 0 {
      var entries := RenderModelDocs(docs);
      section := MarkdownExport.SectionHeading(MarkdownExport.ModelTitle, |docs|) + entries;
    }
  }

  /** The Markdown generator: the overview, the screen and data-model sections, then the footer. */
  method GenerateMarkdownWithImageRefs(projectName: string, description: string, documents: seq<Storage.Document>,
                                       images: map<string, string>, localTime: string, isoTime: string)
    returns (r: Outcome<string>)
    ensures r == MarkdownWithImageRefs(projectName, description, documents, images, localTime, isoTime)
  {
    var markdown := MarkdownExport.Overview(projectName, description, localTime, |documents|);
    var screens := RenderScreenSection(MarkdownExport.OfType(documents, Storage.Screen), images);
    if screens.Raised? {
      return Raised(screens.message);
    }
    markdown := markdown + screens.value;
    var models := RenderModelSection(MarkdownExport.OfType(documents, Storage.Model));
    markdown := markdown + models;
    markdown := markdown + Footer(documents, images, isoTime);
    r := Ok(markdown);
  }

  /**
   * With unique document ids, a document's entry links an AI image exactly when the document
   * itself has one.
   */
  lemma OwnAiImage(docs: seq<Storage.Document>, d: Storage.Document)
    requires d in docs && Storage.DistinctDocumentIds(docs)
    ensures AiImageOf(AiImages(docs, |docs|), d.id).Some? <==> MarkdownExport.Present(d.aiGeneratedImage)
  {
    var n := |docs|;
    var i :| 0 <= i < n && docs[i] == d;
    AiImagesSpec(docs, n);
    forall j | 0 <= j < n && j != i
      ensures docs[j].id != d.id
    {
      if j < i {
        assert Storage.DocId(docs[j]) != Storage.DocId(docs[i]);
      } else {
        assert Storage.DocId(docs[i]) != Storage.DocId(docs[j]);
      }
    }
    if MarkdownExport.Present(d.aiGeneratedImage) {
      assert AiImages(docs, n)[d.id] == d.aiGeneratedImage.value;
    }
  }

  /**
   * With unique document ids, every image a document's entry links is a file of the image
   * folder.
   */
  lemma LinkedImagesExist(docs: seq<Storage.Document>, d: Storage.Document)
    requires d in docs && Storage.DistinctDocumentIds(docs)
    ensures MarkdownExport.Present(d.mockup) ==> MockupFile(d.name) in ImageFiles(docs, |docs|)
    ensures AiImageOf(AiImages(docs, |docs|), d.id).Some? ==> AiFile(d.name) in ImageFiles(docs, |docs|)
  {
    var i :| 0 <= i < |docs| && docs[i] == d;
    ImageFilesSpec(docs, |docs|);
    OwnAiImage(docs, d);
  }

  /** The footer counts images exactly when some document has an uploaded mock-up or an AI image. */
  lemma ImageCountsIffImages(docs: seq<Storage.Document>)
    ensures ImageCountLines(MockupCount(docs), |AiImages(docs, |docs|)|) != ""
            <==> exists d :: d in docs && (MarkdownExport.Present(d.mockup) || MarkdownExport.Present(d.aiGeneratedImage))
  {
    AiImagesSpec(docs, |docs|);
    var withMockup := Lists.Filter(docs, (d: Storage.Document) => MarkdownExport.Present(d.mockup));
    if d :| d in docs && MarkdownExport.Present(d.mockup) {
      assert d in withMockup;
    } else if d :| d in docs && MarkdownExport.Present(d.aiGeneratedImage) {
      var i :| 0 <= i < |docs| && docs[i] == d;
      assert d.id in AiImages(docs, |docs|);
    } else {
      Lists.FilterNone(docs, (d: Storage.Document) => MarkdownExport.Present(d.mockup));
      NoAiImages(docs, |docs|);
    }
  }

  /** Without any AI image the map stays empty. */
  lemma {:induction false} NoAiImages(docs: seq<Storage.Document>, n: nat)
    requires n <= |docs| && forall d :: d in docs ==> !MarkdownExport.Present(d.aiGeneratedImage)
    ensures AiImages(docs, n) == map[]
  {
    if n > 0 {
      assert docs[n - 1] in docs;
      NoAiImages(docs, n - 1);
    }
  }

  // ---------------------------------------------------------------------------------------
  // The archive
  // ---------------------------------------------------------------------------------------

  /** The archive: the Markdown file at the top level and the image folder `images/`. */
  datatype Archive = Archive(markdownName: string, markdown: string, images: map<string, string>)

  /** The name the archive is downloaded under. */
  function ZipFileName(projectName: string): (r: string)
    ensures Text.StartsWith(r, projectName) && MarkdownExport.EndsWith(r, "_設計書.zip")
  {
    var r := projectName + "_設計書.zip";
    Text.StartsWithConcat(projectName, "_設計書.zip");
    assert r[|r| - |"_設計書.zip"|..] == "_設計書.zip";
    r
  }

  /**
   * The archive of a project: the AI image map is built first, the Markdown is generated from
   * it, and every document's images are written; a table that cannot be converted aborts
   * the export.
   */
  function ProjectArchive(projectName: string, description: string, docs: seq<Storage.Document>,
                          localTime: string, isoTime: string): (r: Outcome<Archive>)
    ensures r.Ok? <==> MarkdownWithImageRefs(projectName, description, docs, AiImages(docs, |docs|), localTime, isoTime).Ok?
    ensures r.Ok? ==> r.value.markdownName == projectName + "_設計書.md" && r.value.images == ImageFiles(docs, |docs|)
  {
    match MarkdownWithImageRefs(projectName, description, docs, AiImages(docs, |docs|), localTime, isoTime)
    case Raised(m) => Raised(m)
    case Ok(markdown) => Ok(Archive(projectName + "_設計書.md", markdown, ImageFiles(docs, |docs|)))
  }

  /** The export: the AI image map, the Markdown, then the images, in the order the archive is filled. */
  method DownloadProjectAsZip(projectName: string, description: string, documents: seq<Storage.Document>,
                              localTime: string, isoTime: string) returns (r: Outcome<Archive>)
    ensures r == ProjectArchive(projectName, description, documents, localTime, isoTime)
  {
    var images := BuildAiImageMap(documents);
    var markdown := GenerateMarkdownWithImageRefs(projectName, description, documents, images, localTime, isoTime);
    if markdown.Raised? {
      return Raised(markdown.message);
    }
    var folder := AddImageFiles(documents);
    r := Ok(Archive(projectName + "_設計書.md", markdown.value, folder));
  }
}
