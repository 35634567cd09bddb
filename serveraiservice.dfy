/**
 * The server-side AI service that answers `generate_data_model`: the provider list built at
 * start-up, the one-attempt-each provider chain, the extraction of the Mermaid ER diagram from
 * the model's reply, the syntax repairs applied to it, and the constant fallback returned on
 * any failure. Each provider is a parameter from the request to its reply text or the error it
 * raised; the clock is a parameter too.
 */
module ServerAiService {
  import opened Wrappers
  import opened Text
  import Json

  // ---------------------------------------------------------------------------------------
  // Providers

  /** `os.getenv` for the four variables the service reads (None when unset). */
  datatype PyEnv = PyEnv(openaiApiKey: Option<string>, awsAccessKey: Option<string>,
                         awsSecretKey: Option<string>, awsRegion: Option<string>)

  /** Python truthiness of an optional string. */
  predicate PyTruthy(v: Option<string>)
  {
    v.Some? && v.value != ""
  }

  /**
   * The provider list: `bedrock` when boto3 imports and an AWS access key is set (the secret
   * key is not checked), then `openai` when its package imports and its key is set.
   */
  function ProviderList(env: PyEnv, openaiImported: bool, boto3Imported: bool): (r: seq<string>)
    ensures "bedrock" in r <==> boto3Imported && PyTruthy(env.awsAccessKey)
    ensures "openai" in r <==> openaiImported && PyTruthy(env.openaiApiKey)
    ensures forall p :: p in r ==> p == "bedrock" || p == "openai"
    ensures |r| == 2 ==> r[0] == "bedrock" && r[1] == "openai"
  {
    (if boto3Imported && PyTruthy(env.awsAccessKey) then ["bedrock"] else [])
    + (if openaiImported && PyTruthy(env.openaiApiKey) then ["openai"] else [])
  }

  /** A `generate_data_model` call: the instruction, the project context (JSON `null` for None), references and current diagram. */
  datatype DataModelRequest = DataModelRequest(prompt: string, projectContext: Json.Json,
                                               references: Option<seq<string>>, currentMermaid: string)

  const NoProvidersMessage := "No AI providers available"

  /**
   * `_generate_with_ai`: Bedrock first when listed, then OpenAI when listed, one attempt each;
   * the first reply wins, and when none answers the call raises.
   */
  function FirstAnswer(providers: seq<string>, request: DataModelRequest,
                       bedrock: DataModelRequest -> Outcome<string>,
                       openai: DataModelRequest -> Outcome<string>): (r: Outcome<string>)
    ensures r.Ok? ==> ("bedrock" in providers && r == bedrock(request))
                      || ("openai" in providers && r == openai(request))
    ensures r.Raised? <==> ("bedrock" !in providers || bedrock(request).Raised?)
                           && ("openai" !in providers || openai(request).Raised?)
    ensures r.Raised? ==> r.message == NoProvidersMessage
    ensures "bedrock" in providers && bedrock(request).Ok? ==> r == bedrock(request)
  {
    if "bedrock" in providers && bedrock(request).Ok? then bedrock(request)
    else if "openai" in providers && openai(request).Ok? then openai(request)
    else Raised(NoProvidersMessage)
  }

  /** The name of the provider whose reply `FirstAnswer` returns. */
  function Answerer(providers: seq<string>, request: DataModelRequest,
                    bedrock: DataModelRequest -> Outcome<string>,
                    openai: DataModelRequest -> Outcome<string>): (r: Option<string>)
    ensures r.Some? <==> FirstAnswer(providers, request, bedrock, openai).Ok?
    ensures r == Some("bedrock") ==> FirstAnswer(providers, request, bedrock, openai) == bedrock(request)
    ensures r == Some("openai") ==> FirstAnswer(providers, request, bedrock, openai) == openai(request)
    ensures r.Some? ==> r.value in providers
  {
    if "bedrock" in providers && bedrock(request).Ok? then Some("bedrock")
    else if "openai" in providers && openai(request).Ok? then Some("openai")
    else None
  }

  // ---------------------------------------------------------------------------------------
  // Extraction

  /** The end of the run of `ws` characters of `s` starting at `i`. */
  function RunEnd(s: string, i: nat, ws: char -> bool): (j: nat)
    requires i <= |s|
    ensures i <= j <= |s|
    ensures j == |s| || !ws(s[j])
    decreases |s| - i
  {
    if i == |s| || !ws(s[i]) then i else RunEnd(s, i + 1, ws)
  }

  /** Everything a run covers is whitespace. */
  lemma {:induction false} RunEndBlanks(s: string, i: nat, ws: char -> bool)
    requires i <= |s|
    ensures forall k :: i <= k < RunEnd(s, i, ws) ==> ws(s[k])
    decreases |s| - i
  {
    if i < |s| && ws(s[i]) {
      RunEndBlanks(s, i + 1, ws);
    }
  }

  /** `w` (lower case) occurs at `i` in `s`, ignoring ASCII case (`re.IGNORECASE`). */
  predicate FoldMatch(s: string, i: nat, w: string)
  {
    i + |w| <= |s| && Lower(s[i..i + |w|]) == w
  }

  /** The leftmost case-insensitive occurrence of `w` at or after `from`. */
  function FindFold(s: string, w: string, from: nat): (r: Option<nat>)
    ensures r.Some? ==> from <= r.value && FoldMatch(s, r.value, w)
    ensures r.None? ==> forall k :: from <= k ==> !FoldMatch(s, k, w)
    decreases |s| - from
  {
    if from + |w| > |s| then None
    else if FoldMatch(s, from, w) then Some(from)
    else FindFold(s, w, from + 1)
  }

  /**
   * The group of ``` ```(?:mermaid)?\s*(erDiagram[\s\S]*?)``` ``` for a match starting at `p`:
   * a fence, an optional `mermaid` tag, whitespace (`space` is the engine's `\s`), `erDiagram`,
   * and everything up to the nearest closing fence. Backtracking cannot help: without the tag the text after the fence
   * starts with `m`, not `e`.
   */
  function FencedAt(s: string, p: nat, space: char -> bool): (g: Option<(nat, nat)>)
    ensures g.Some? ==> g.value.0 + 9 <= g.value.1 <= |s| && FoldMatch(s, g.value.0, "erdiagram")
    ensures g.Some? ==> MatchAt(s, "```", g.value.1)
    ensures g.Some? ==> forall k :: g.value.0 + 9 <= k < g.value.1 ==> !MatchAt(s, "```", k)
  {
    if !MatchAt(s, "```", p) then None
    else
      var m := if FoldMatch(s, p + 3, "mermaid") then p + 10 else p + 3;
      var q := RunEnd(s, m, space);
      if !FoldMatch(s, q, "erdiagram") then None
      else
        match IndexOfFrom(s, "```", q + 9)
        case None => None
        case Some(e) => Some((q, e))
  }

  /** The leftmost fenced match at or after `p` (`re.search`, `String.prototype.match`). */
  function FencedBlock(s: string, p: nat, space: char -> bool): (g: Option<(nat, nat)>)
    ensures g.Some? ==> g.value.0 + 9 <= g.value.1 <= |s| && FoldMatch(s, g.value.0, "erdiagram")
    ensures g.Some? ==> MatchAt(s, "```", g.value.1)
    ensures g.Some? ==> forall k :: g.value.0 + 9 <= k < g.value.1 ==> !MatchAt(s, "```", k)
    decreases |s| - p
  {
    if p > |s| then None
    else
      match FencedAt(s, p, space)
      case Some(g) => Some(g)
      case None => if p == |s| then None else FencedBlock(s, p + 1, space)
  }

  /**
   * The extraction of `_extract_mermaid_code`, with `ws` the whitespace the key-pair repair
   * matches: the fenced diagram when there is one, else everything from the first
   * `erDiagram`; stripped and repaired. Empty when the reply never says `erDiagram`.
   */
  function ExtractWith(response: string, ws: char -> bool): string
  {
    match FencedBlock(response, 0, PySpace)
    case Some(g) => Repaired(Strip(response[g.0..g.1]), ws)
    case None =>
      match FindFold(response, "erdiagram", 0)
      case Some(i) => Repaired(Strip(response[i..]), ws)
      case None => ""
  }

  /** `_extract_mermaid_code` as written: the key-pair repair takes any whitespace, line breaks included. */
  function ExtractMermaidCode(response: string): string
  {
    ExtractWith(response, PyWs)
  }

  /** The extraction with the repair confined to blanks within a line. */
  function ExtractMermaidCodeCorrected(response: string): string
  {
    ExtractWith(response, InLineBlank)
  }

  // ---------------------------------------------------------------------------------------
  // Syntax repairs

  /** `s` with every backtick removed (`s.replace('`', '')`). */
  function WithoutBackticks(s: string): (r: string)
    ensures '`' !in r
  {
    if s == [] then [] else (if s[0] == '`' then [] else [s[0]]) + WithoutBackticks(s[1..])
  }

  /** ``re.sub(r'`([^`]+)`', r'\1', s)``: each backtick pair around non-empty text is dropped, left to right. */
  function DropBacktickPairs(s: string): string
    decreases |s|
  {
    if s == [] then []
    else if s[0] != '`' then [s[0]] + DropBacktickPairs(s[1..])
    else
      match IndexOfFrom(s, "`", 1)
      case Some(j) =>
        if j > 1 then s[1..j] + DropBacktickPairs(s[j + 1..]) else [s[0]] + DropBacktickPairs(s[1..])
      case None => [s[0]] + DropBacktickPairs(s[1..])
  }

  /** The first repair: drop backtick pairs, then any backtick left over. */
  function StripBackticks(s: string): string
  {
    var f := DropBacktickPairs(s);
    if '`' in f then WithoutBackticks(f) else f
  }

  /**
   * The end of a match of `ws+ a ws+ b ws*` at the start of `s`. Every run is greedy and giving
   * characters back cannot help (the next token starts with a letter), so the match is unique.
   */
  function PairMatch(s: string, a: string, b: string, ws: char -> bool): (e: Option<nat>)
    ensures e.Some? ==> 0 < e.value <= |s|
  {
    var j := RunEnd(s, 0, ws);
    if j == 0 || !StartsWith(s[j..], a) then None
    else
      var k := RunEnd(s, j + |a|, ws);
      if k == j + |a| || !StartsWith(s[k..], b) then None
      else Some(RunEnd(s, k + |b|, ws))
  }

  /** A key-pair match is made of blanks and the characters of the two keys. */
  lemma {:induction false} PairMatchChars(s: string, a: string, b: string, ws: char -> bool)
    requires PairMatch(s, a, b, ws).Some?
    ensures forall k :: 0 <= k < PairMatch(s, a, b, ws).value ==> ws(s[k]) || s[k] in a || s[k] in b
  {
    var j := RunEnd(s, 0, ws);
    var k := RunEnd(s, j + |a|, ws);
    var e := RunEnd(s, k + |b|, ws);
    assert PairMatch(s, a, b, ws) == Some(e);
    RunEndBlanks(s, 0, ws);
    RunEndBlanks(s, j + |a|, ws);
    RunEndBlanks(s, k + |b|, ws);
    KeyChars(s, j, a);
    KeyChars(s, k, b);
  }

  /** The characters of a key found at `j` are the key's characters. */
  lemma KeyChars(s: string, j: nat, a: string)
    requires j <= |s| && StartsWith(s[j..], a)
    ensures forall i :: j <= i < j + |a| ==> s[i] in a
  {
    forall i | j <= i < j + |a| ensures s[i] in a {
      assert s[j..][..|a|][i - j] == s[i];
    }
  }

  /** `re.sub(r'ws+ a ws+ b ws*', ' PK', s)`: every match, leftmost first, becomes ` PK`. */
  function ReplacePairs(s: string, a: string, b: string, ws: char -> bool): string
    decreases |s|
  {
    if s == [] then []
    else
      match PairMatch(s, a, b, ws)
      case Some(e) => " PK" + ReplacePairs(s[e..], a, b, ws)
      case None => [s[0]] + ReplacePairs(s[1..], a, b, ws)
  }

  /** Python's `\s`. */
  predicate PyWs(c: char)
  {
    PySpace(c)
  }

  /** A blank within a line: space or tab. */
  predicate InLineBlank(c: char)
  {
    c == ' ' || c == '\t'
  }

  /**
   * The repairs of `_fix_mermaid_syntax` with `ws` as the whitespace of the key-pair patterns:
   * strip backticks, then rewrite `PK FK` and `FK PK` to `PK`. (The source substitutes only
   * when a count of matches is positive; substituting with no match changes nothing.)
   */
  function Repaired(code: string, ws: char -> bool): string
  {
    ReplacePairs(ReplacePairs(StripBackticks(code), "PK", "FK", ws), "FK", "PK", ws)
  }

  /** `_fix_mermaid_syntax` as written, whose patterns are `\s+PK\s+FK\s*` and `\s+FK\s+PK\s*`. */
  function FixedSyntax(code: string): string
  {
    Repaired(code, PyWs)
  }

  /** The repair with the patterns `[ \t]+PK[ \t]+FK[ \t]*` and `[ \t]+FK[ \t]+PK[ \t]*`. */
  function FixedSyntaxCorrected(code: string): string
  {
    Repaired(code, InLineBlank)
  }

  lemma {:induction false} WithoutBackticksConcat(x: string, y: string)
    ensures WithoutBackticks(x + y) == WithoutBackticks(x) + WithoutBackticks(y)
    decreases |x|
  {
    if x != [] {
      assert (x + y)[1..] == x[1..] + y;
      WithoutBackticksConcat(x[1..], y);
    } else {
      assert x + y == y;
    }
  }

  lemma {:induction false} WithoutBackticksFree(x: string)
    requires '`' !in x
    ensures WithoutBackticks(x) == x
    decreases |x|
  {
    if x != [] {
      assert x[0] in x;
      assert forall c :: c in x[1..] ==> c in x;
      WithoutBackticksFree(x[1..]);
      assert x == [x[0]] + x[1..];
    }
  }

  /** Removing backticks from a text that starts with one character works on the rest. */
  lemma WithoutBackticksCons(c: char, rest: string)
    ensures WithoutBackticks([c] + rest) == (if c == '`' then [] else [c]) + WithoutBackticks(rest)
  {
    assert ([c] + rest)[1..] == rest;
  }

  /** The text between a backtick and the next one holds none. */
  lemma BetweenBackticks(s: string, j: nat)
    requires IndexOfFrom(s, "`", 1) == Some(j)
    ensures '`' !in s[1..j]
  {
    forall c | c in s[1..j] ensures c != '`' {
      var k :| 1 <= k < j && s[k] == c;
      assert !MatchAt(s, "`", k);
      assert s[k..k + 1] == [c];
    }
  }

  /** Removing every backtick from a pair-delimited stretch keeps what it encloses. */
  lemma {:induction false} WithoutBackticksPair(s: string, j: nat)
    requires 1 < j < |s| && s[0] == '`' && s[j] == '`' && '`' !in s[1..j]
    ensures WithoutBackticks(s) == s[1..j] + WithoutBackticks(s[j + 1..])
  {
    assert WithoutBackticks(s) == WithoutBackticks(s[1..]);
    assert s[1..] == s[1..j] + s[j..];
    WithoutBackticksConcat(s[1..j], s[j..]);
    WithoutBackticksFree(s[1..j]);
    assert s[j..][1..] == s[j + 1..];
    assert WithoutBackticks(s[j..]) == WithoutBackticks(s[j + 1..]);
  }

  /** Dropping pairs first removes nothing that removing every backtick would keep. */
  lemma {:induction false} DropPairsThenRemove(s: string)
    ensures WithoutBackticks(DropBacktickPairs(s)) == WithoutBackticks(s)
    decreases |s|
  {
    if s != [] {
      var j := IndexOfFrom(s, "`", 1);
      if s[0] == '`' && j.Some? && j.value > 1 {
        var e := j.value;
        assert s[e..e + 1] == "`";
        BetweenBackticks(s, e);
        DropPairsThenRemove(s[e + 1..]);
        WithoutBackticksConcat(s[1..e], DropBacktickPairs(s[e + 1..]));
        WithoutBackticksFree(s[1..e]);
        WithoutBackticksPair(s, e);
      } else {
        assert DropBacktickPairs(s) == [s[0]] + DropBacktickPairs(s[1..]);
        DropPairsThenRemove(s[1..]);
        WithoutBackticksCons(s[0], DropBacktickPairs(s[1..]));
        WithoutBackticksCons(s[0], s[1..]);
        assert s == [s[0]] + s[1..];
      }
    }
  }

  /** The two backtick passes together remove exactly the backticks, keeping everything else in order. */
  lemma StripBackticksRemovesAll(s: string)
    ensures StripBackticks(s) == WithoutBackticks(s)
  {
    DropPairsThenRemove(s);
    var f := DropBacktickPairs(s);
    if '`' !in f {
      WithoutBackticksFree(f);
    }
  }

  /** The key-pair rewrite brings in no character other than those of ` PK`. */
  lemma {:induction false} ReplacePairsNoNewChar(s: string, a: string, b: string, ws: char -> bool, c: char)
    requires c !in s && c != ' ' && c != 'P' && c != 'K'
    ensures c !in ReplacePairs(s, a, b, ws)
    decreases |s|
  {
    if s != [] {
      match PairMatch(s, a, b, ws)
      case Some(e) =>
        assert forall d :: d in s[e..] ==> d in s;
        ReplacePairsNoNewChar(s[e..], a, b, ws, c);
      case None =>
        assert forall d :: d in s[1..] ==> d in s;
        ReplacePairsNoNewChar(s[1..], a, b, ws, c);
    }
  }

  /** A repaired diagram holds no backtick. */
  lemma RepairedHasNoBackticks(code: string, ws: char -> bool)
    ensures '`' !in Repaired(code, ws)
  {
    var stripped := StripBackticks(code);
    StripBackticksRemovesAll(code);
    ReplacePairsNoNewChar(stripped, "PK", "FK", ws, '`');
    ReplacePairsNoNewChar(ReplacePairs(stripped, "PK", "FK", ws), "FK", "PK", ws, '`');
  }

  /** A leading stretch without whitespace is kept by the key-pair rewrite. */
  lemma {:induction false} ReplacePairsKeepsPrefix(s: string, a: string, b: string, ws: char -> bool, n: nat)
    requires n <= |s| && forall k :: 0 <= k < n ==> !ws(s[k])
    ensures n <= |ReplacePairs(s, a, b, ws)| && ReplacePairs(s, a, b, ws)[..n] == s[..n]
    decreases n
  {
    if n > 0 {
      assert RunEnd(s, 0, ws) == 0;
      ReplacePairsKeepsPrefix(s[1..], a, b, ws, n - 1);
      assert ReplacePairs(s, a, b, ws) == [s[0]] + ReplacePairs(s[1..], a, b, ws);
    }
  }

  /** Removing backticks keeps a leading stretch that has none. */
  lemma WithoutBackticksKeepsPrefix(s: string, n: nat)
    requires n <= |s| && '`' !in s[..n]
    ensures n <= |WithoutBackticks(s)| && WithoutBackticks(s)[..n] == s[..n]
  {
    assert s == s[..n] + s[n..];
    WithoutBackticksConcat(s[..n], s[n..]);
    WithoutBackticksFree(s[..n]);
  }

  /** A letter whose ASCII lower case is a letter of `erdiagram` is neither whitespace nor a backtick. */
  lemma FoldedLetterIsPlain(c: char)
    requires LowerChar(c) in "erdiagram"
    ensures !PySpace(c) && c != '`'
  {
  }

  /** The nine characters of a case-insensitive `erDiagram` are neither whitespace nor backticks. */
  lemma HeaderIsPlain(x: string)
    requires FoldMatch(x, 0, "erdiagram")
    ensures forall k :: 0 <= k < 9 ==> !PySpace(x[k]) && x[k] != '`'
  {
    forall k | 0 <= k < 9 ensures !PySpace(x[k]) && x[k] != '`' {
      assert Lower(x[..9])[k] == LowerChar(x[k]);
      assert "erdiagram"[k] in "erdiagram";
      FoldedLetterIsPlain(x[k]);
    }
  }

  /** Repairing a text that starts with `erDiagram` (in any case) keeps that start, whatever the blanks matched. */
  lemma RepairedKeepsHeader(code: string, ws: char -> bool)
    requires forall c :: ws(c) ==> PySpace(c)
    requires FoldMatch(code, 0, "erdiagram")
    ensures FoldMatch(Repaired(code, ws), 0, "erdiagram")
  {
    HeaderIsPlain(code);
    var stripped := StripBackticks(code);
    StripBackticksRemovesAll(code);
    assert '`' !in code[..9];
    WithoutBackticksKeepsPrefix(code, 9);
    assert stripped[..9] == code[..9];
    ReplacePairsKeepsPrefix(stripped, "PK", "FK", ws, 9);
    var once := ReplacePairs(stripped, "PK", "FK", ws);
    assert once[..9] == code[..9];
    ReplacePairsKeepsPrefix(once, "FK", "PK", ws, 9);
    assert Repaired(code, ws)[..9] == code[..9];
  }

  /** Stripping a text whose first nine characters are not whitespace keeps them in front. */
  lemma StripKeepsHeader(x: string)
    requires FoldMatch(x, 0, "erdiagram")
    ensures FoldMatch(Strip(x), 0, "erdiagram")
  {
    HeaderIsPlain(x);
    assert TrimLeft(Py, x) == x;
    var r := TrimRight(Py, x);
    assert !IsSpace(Py, x[8]);
    assert |r| >= 9;
    assert r[..9] == x[..9];
  }

  /** The extracted diagram is empty exactly when the reply never says `erDiagram`; otherwise it starts with it. */
  lemma ExtractWithSpec(response: string, ws: char -> bool)
    requires forall c :: ws(c) ==> PySpace(c)
    ensures ExtractWith(response, ws) == "" <==> forall i :: !FoldMatch(response, i, "erdiagram")
    ensures ExtractWith(response, ws) != "" ==> FoldMatch(ExtractWith(response, ws), 0, "erdiagram")
    ensures '`' !in ExtractWith(response, ws)
  {
    match FencedBlock(response, 0, PySpace)
    case Some(g) =>
      var x := response[g.0..g.1];
      assert x[..9] == response[g.0..g.0 + 9];
      StripKeepsHeader(x);
      RepairedKeepsHeader(Strip(x), ws);
      RepairedHasNoBackticks(Strip(x), ws);
    case None =>
      match FindFold(response, "erdiagram", 0)
      case Some(i) =>
        var x := response[i..];
        assert x[..9] == response[i..i + 9];
        StripKeepsHeader(x);
        RepairedKeepsHeader(Strip(x), ws);
        RepairedHasNoBackticks(Strip(x), ws);
      case None =>
  }

  /** Both extractions find a diagram for the same replies, starting with `erDiagram` and free of backticks. */
  lemma ExtractMermaidCodeSpec(response: string)
    ensures ExtractMermaidCode(response) == "" <==> forall i :: !FoldMatch(response, i, "erdiagram")
    ensures ExtractMermaidCodeCorrected(response) == "" <==> ExtractMermaidCode(response) == ""
    ensures ExtractMermaidCode(response) != "" ==> FoldMatch(ExtractMermaidCode(response), 0, "erdiagram")
    ensures '`' !in ExtractMermaidCode(response) && '`' !in ExtractMermaidCodeCorrected(response)
  {
    ExtractWithSpec(response, PyWs);
    ExtractWithSpec(response, InLineBlank);
  }

  /** The number of times `c` occurs in `s`. */
  function CountChar(s: string, c: char): (n: nat)
    ensures n <= |s|
    ensures n == 0 <==> c !in s
  {
    if s == [] then 0 else (if s[0] == c then 1 else 0) + CountChar(s[1..], c)
  }

  lemma {:induction false} CountCharConcat(x: string, y: string, c: char)
    ensures CountChar(x + y, c) == CountChar(x, c) + CountChar(y, c)
    decreases |x|
  {
    if x == [] {
      assert x + y == y;
    } else {
      assert (x + y)[1..] == x[1..] + y;
      CountCharConcat(x[1..], y, c);
    }
  }

  /** Removing backticks keeps every other character. */
  lemma {:induction false} WithoutBackticksKeepsCount(s: string, c: char)
    requires c != '`'
    ensures CountChar(WithoutBackticks(s), c) == CountChar(s, c)
    decreases |s|
  {
    if s != [] {
      WithoutBackticksKeepsCount(s[1..], c);
      CountCharConcat(if s[0] == '`' then [] else [s[0]], WithoutBackticks(s[1..]), c);
    }
  }

  /** A key-pair rewrite whose blanks exclude `c`, and whose keys do not hold it, keeps every `c`. */
  lemma {:induction false} ReplacePairsKeepsCount(s: string, a: string, b: string, ws: char -> bool, c: char)
    requires !ws(c) && c !in a && c !in b && c !in " PK"
    ensures CountChar(ReplacePairs(s, a, b, ws), c) == CountChar(s, c)
    decreases |s|
  {
    if s != [] {
      match PairMatch(s, a, b, ws)
      case Some(e) =>
        PairMatchChars(s, a, b, ws);
        assert c !in s[..e] by {
          forall k | 0 <= k < e ensures s[..e][k] != c {
            assert s[..e][k] == s[k];
          }
        }
        assert s == s[..e] + s[e..];
        CountCharConcat(s[..e], s[e..], c);
        ReplacePairsKeepsCount(s[e..], a, b, ws, c);
        CountCharConcat(" PK", ReplacePairs(s[e..], a, b, ws), c);
      case None =>
        ReplacePairsKeepsCount(s[1..], a, b, ws, c);
        CountCharConcat([s[0]], ReplacePairs(s[1..], a, b, ws), c);
        assert s == [s[0]] + s[1..];
        CountCharConcat([s[0]], s[1..], c);
    }
  }

  /** The corrected repair keeps every line break, so no two lines of the diagram are joined. */
  lemma FixedSyntaxCorrectedKeepsLines(code: string)
    ensures CountChar(FixedSyntaxCorrected(code), '\n') == CountChar(code, '\n')
  {
    StripBackticksRemovesAll(code);
    WithoutBackticksKeepsCount(code, '\n');
    var once := ReplacePairs(StripBackticks(code), "PK", "FK", InLineBlank);
    ReplacePairsKeepsCount(StripBackticks(code), "PK", "FK", InLineBlank, '\n');
    ReplacePairsKeepsCount(once, "FK", "PK", InLineBlank, '\n');
  }

  /** A character that is not a blank is copied through by the key-pair rewrite. */
  lemma {:induction false} ReplacePairsSkip(s: string, a: string, b: string, ws: char -> bool)
    requires s != [] && !ws(s[0])
    ensures ReplacePairs(s, a, b, ws) == [s[0]] + ReplacePairs(s[1..], a, b, ws)
  {
    assert RunEnd(s, 0, ws) == 0;
  }

  /** Two leading characters that are not blanks are copied through. */
  lemma {:induction false} ReplacePairsSkipTwo(s: string, a: string, b: string, ws: char -> bool)
    requires |s| >= 2 && !ws(s[0]) && !ws(s[1])
    ensures ReplacePairs(s, a, b, ws) == s[..2] + ReplacePairs(s[2..], a, b, ws)
  {
    ReplacePairsSkip(s, a, b, ws);
    ReplacePairsSkip(s[1..], a, b, ws);
    assert s[1..][1..] == s[2..];
    assert s[..2] == [s[0]] + [s[1]];
  }

  /** A text without backticks is not changed by the backtick repair. */
  lemma {:induction false} StripBackticksFree(s: string)
    requires '`' !in s
    ensures StripBackticks(s) == s
  {
    StripBackticksRemovesAll(s);
    WithoutBackticksFree(s);
  }

  /** A key-pair match assembled from its three runs and two keys. */
  lemma {:induction false} PairMatchFrom(s: string, a: string, b: string, ws: char -> bool, j: nat, k: nat, e: nat)
    requires 0 < j && RunEnd(s, 0, ws) == j && StartsWith(s[j..], a)
    requires j + |a| < k && RunEnd(s, j + |a|, ws) == k && StartsWith(s[k..], b)
    requires RunEnd(s, k + |b|, ws) == e
    ensures PairMatch(s, a, b, ws) == Some(e)
  {
  }

  /** A blank followed by a non-blank: the first run ends after one character. */
  lemma {:induction false} RunEndOne(s: string, i: nat, ws: char -> bool)
    requires i + 1 < |s| && ws(s[i]) && !ws(s[i + 1])
    ensures RunEnd(s, i, ws) == i + 1
  {
    assert RunEnd(s, i + 1, ws) == i + 1;
  }

  /** No character of `s` is a blank. */
  predicate NoBlank(s: string, ws: char -> bool)
  {
    s == [] || (!ws(s[0]) && NoBlank(s[1..], ws))
  }

  /** What has no Python whitespace has no blank within a line either. */
  lemma {:induction false} NoBlankInLine(s: string)
    requires NoBlank(s, PyWs)
    ensures NoBlank(s, InLineBlank)
    decreases |s|
  {
    if s != [] {
      NoBlankInLine(s[1..]);
    }
  }

  /** A text with no blank at all passes the key-pair rewrite unchanged. */
  lemma {:induction false} ReplacePairsPlain(s: string, a: string, b: string, ws: char -> bool)
    requires NoBlank(s, ws)
    ensures ReplacePairs(s, a, b, ws) == s
    decreases |s|
  {
    if s != [] {
      ReplacePairsSkip(s, a, b, ws);
      ReplacePairsPlain(s[1..], a, b, ws);
      assert s == [s[0]] + s[1..];
    }
  }

  /** A leading word without blanks passes the key-pair rewrite unchanged. */
  lemma {:induction false} ReplacePairsAfterWord(w: string, rest: string, a: string, b: string, ws: char -> bool)
    requires NoBlank(w, ws)
    ensures ReplacePairs(w + rest, a, b, ws) == w + ReplacePairs(rest, a, b, ws)
    decreases |w|
  {
    if w == [] {
      assert w + rest == rest;
    } else {
      ReplacePairsSkip(w + rest, a, b, ws);
      assert (w + rest)[1..] == w[1..] + rest;
      ReplacePairsAfterWord(w[1..], rest, a, b, ws);
      assert w == [w[0]] + w[1..];
    }
  }

  /** A character that is not a blank in front of a text without blanks. */
  lemma {:induction false} NoBlankCons(c: char, y: string, ws: char -> bool)
    requires !ws(c) && NoBlank(y, ws)
    ensures NoBlank([c] + y, ws)
  {
    assert ([c] + y)[1..] == y;
  }

  /** A blank, then `PK`, then a word without blanks is not an `FK PK` pair and passes unchanged. */
  lemma {:induction false} NoFkPkAfter(u: string, y: string, ws: char -> bool)
    requires u == " PK" + y
    requires ws(' ') && !ws('P') && !ws('K') && NoBlank(y, ws)
    ensures ReplacePairs(u, "FK", "PK", ws) == u
  {
    assert u[0] == ' ' && u[1] == 'P';
    RunEndOne(u, 0, ws);
    assert u[1..][..2] == "PK" != "FK";
    assert PairMatch(u, "FK", "PK", ws) == None;
    NoBlankCons('K', y, ws);
    NoBlankCons('P', ['K'] + y, ws);
    assert u[1..] == ['P'] + (['K'] + y);
    ReplacePairsPlain(u[1..], "FK", "PK", ws);
    assert u == [u[0]] + u[1..];
  }

  /** The text of a `PK FK` line ending in `w`, followed by the line `x`. */
  function PkFkLines(w: string, x: string): string
  {
    w + PkFkTail(x)
  }

  /** A `PK FK` key pair, a line break and the line `x`. */
  function PkFkTail(x: string): string
  {
    " PK FK\n" + x
  }

  /** A `PK` key, a line break and the line `x`. */
  function PkTail(x: string): string
  {
    " PK\n" + x
  }

  /** When line breaks count as blanks, the `PK FK` match runs on through the line break. */
  lemma {:induction false} PkFkMatchRunsOn(x: string, ws: char -> bool)
    requires ws(' ') && ws('\n') && !ws('P') && !ws('F')
    requires NoBlank(x, ws) && x != []
    ensures ReplacePairs(" PK FK\n" + x, "PK", "FK", ws) == " PK" + x
  {
    var t := " PK FK\n" + x;
    assert t[0] == ' ' && t[1] == 'P' && t[3] == ' ' && t[4] == 'F' && t[6] == '\n' && t[7] == x[0];
    RunEndOne(t, 0, ws);
    RunEndOne(t, 3, ws);
    RunEndOne(t, 6, ws);
    assert t[1..][..2] == "PK";
    assert t[4..][..2] == "FK";
    PairMatchFrom(t, "PK", "FK", ws, 1, 4, 7);
    assert t[7..] == x;
    ReplacePairsPlain(x, "PK", "FK", ws);
  }

  /** When line breaks are not blanks, the `PK FK` match stops at the line break. */
  lemma {:induction false} PkFkMatchStopsAtLine(x: string, ws: char -> bool)
    requires ws(' ') && !ws('\n') && !ws('P') && !ws('F')
    requires NoBlank(x, ws)
    ensures ReplacePairs(" PK FK\n" + x, "PK", "FK", ws) == " PK\n" + x
  {
    var t := " PK FK\n" + x;
    assert t[0] == ' ' && t[1] == 'P' && t[3] == ' ' && t[4] == 'F' && t[6] == '\n';
    RunEndOne(t, 0, ws);
    RunEndOne(t, 3, ws);
    assert RunEnd(t, 6, ws) == 6;
    assert t[1..][..2] == "PK";
    assert t[4..][..2] == "FK";
    PairMatchFrom(t, "PK", "FK", ws, 1, 4, 6);
    assert t[6..] == "\n" + x;
    assert ("\n" + x)[1..] == x;
    ReplacePairsPlain("\n" + x, "PK", "FK", ws);
  }

  /** The repair of a word followed by a text `t` whose key-pair rewrites give `u` and leave it be. */
  lemma {:induction false} RepairedAfterWord(w: string, t: string, u: string, ws: char -> bool)
    requires NoBlank(w, ws) && '`' !in w && '`' !in t
    requires ReplacePairs(t, "PK", "FK", ws) == u && ReplacePairs(u, "FK", "PK", ws) == u
    ensures Repaired(w + t, ws) == w + u
  {
    assert '`' !in w + t;
    StripBackticksFree(w + t);
    ReplacePairsAfterWord(w, t, "PK", "FK", ws);
    ReplacePairsAfterWord(w, u, "FK", "PK", ws);
  }

  /** The repair of a `PK FK` line followed by another, when line breaks count as blanks. */
  lemma {:induction false} LinesJoinedFor(w: string, x: string, ws: char -> bool)
    requires ws(' ') && ws('\n') && !ws('P') && !ws('F') && !ws('K')
    requires NoBlank(w, ws) && NoBlank(x, ws) && x != [] && '`' !in w && '`' !in x
    ensures Repaired(PkFkLines(w, x), ws) == w + " PK" + x
  {
    JoinedTail(x, ws);
    RepairedAfterWord(w, PkFkTail(x), " PK" + x, ws);
  }

  /** The key-pair rewrites of the text after the word, when line breaks count as blanks. */
  lemma {:induction false} JoinedTail(x: string, ws: char -> bool)
    requires ws(' ') && ws('\n') && !ws('P') && !ws('F') && !ws('K')
    requires NoBlank(x, ws) && x != [] && '`' !in x
    ensures '`' !in PkFkTail(x)
    ensures ReplacePairs(PkFkTail(x), "PK", "FK", ws) == " PK" + x
    ensures ReplacePairs(" PK" + x, "FK", "PK", ws) == " PK" + x
  {
    TailShapes(x);
    PkFkMatchRunsOn(x, ws);
    NoFkPkAfter(" PK" + x, x, ws);
  }

  /** The key-pair rewrites of the text after the word, when line breaks are not blanks. */
  lemma {:induction false} KeptTail(x: string, ws: char -> bool)
    requires ws(' ') && !ws('\n') && !ws('P') && !ws('F') && !ws('K') && NoBlank(x, ws) && '`' !in x
    ensures '`' !in PkFkTail(x)
    ensures ReplacePairs(PkFkTail(x), "PK", "FK", ws) == PkTail(x)
    ensures ReplacePairs(PkTail(x), "FK", "PK", ws) == PkTail(x)
  {
    var y := "\n" + x;
    TailShapes(x);
    PkFkMatchStopsAtLine(x, ws);
    NoBlankCons('\n', x, ws);
    NoFkPkAfter(PkTail(x), y, ws);
  }

  lemma TailShapes(x: string)
    requires '`' !in x
    ensures '`' !in PkFkTail(x)
    ensures PkTail(x) == " PK" + ("\n" + x)
  {
  }

  /** The repair of a `PK FK` line followed by another, when line breaks are not blanks. */
  lemma {:induction false} LinesKeptFor(w: string, x: string, ws: char -> bool)
    requires ws(' ') && !ws('\n') && !ws('P') && !ws('F') && !ws('K')
    requires NoBlank(w, ws) && NoBlank(x, ws) && '`' !in w && '`' !in x
    ensures Repaired(PkFkLines(w, x), ws) == w + PkTail(x)
  {
    KeptTail(x, ws);
    RepairedAfterWord(w, PkFkTail(x), PkTail(x), ws);
  }

  /**
   * As written, a key pair at the end of a line swallows the line break: the trailing `\s*`
   * runs on into the next line, and that line is glued onto the `PK`.
   */
  lemma PkFkJoinsLines(w: string, x: string)
    requires NoBlank(w, PyWs) && NoBlank(x, PyWs) && x != []
    requires '`' !in w && '`' !in x
    ensures FixedSyntax(PkFkLines(w, x)) == w + " PK" + x
  {
    LinesJoinedFor(w, x, PyWs);
  }

  /** With blanks confined to the line, the same lines keep their line break. */
  lemma PkFkKeepsLinesCorrected(w: string, x: string)
    requires NoBlank(w, PyWs) && NoBlank(x, PyWs)
    requires '`' !in w && '`' !in x
    ensures FixedSyntaxCorrected(PkFkLines(w, x)) == w + " PK\n" + x
  {
    NoBlankInLine(w);
    NoBlankInLine(x);
    LinesKeptFor(w, x, InLineBlank);
    assert w + PkTail(x) == w + " PK\n" + x;
  }

  /** An `FK PK` key pair followed by the word `y`. */
  function FkPkTail(y: string): string
  {
    " FK PK" + y
  }

  /** ` FK PK` followed by a word is one match. */
  lemma {:induction false} FkPkCollapses(y: string, ws: char -> bool)
    requires ws(' ') && !ws('F') && !ws('K') && !ws('P') && NoBlank(y, ws)
    ensures ReplacePairs(FkPkTail(y), "FK", "PK", ws) == " PK" + y
  {
    var v := FkPkTail(y);
    assert v[0] == ' ' && v[1] == 'F' && v[3] == ' ' && v[4] == 'P';
    RunEndOne(v, 0, ws);
    RunEndOne(v, 3, ws);
    assert v[6..] == y;
    assert RunEnd(v, 6, ws) == 6 by {
      if y != [] {
        assert v[6] == y[0];
      }
    }
    assert v[1..][..2] == "FK";
    assert v[4..][..2] == "PK";
    PairMatchFrom(v, "FK", "PK", ws, 1, 4, 6);
    ReplacePairsPlain(y, "FK", "PK", ws);
  }

  /** In ` FK FK PK` the first `FK` is followed by `FK`, not `PK`: no match starts there. */
  lemma {:induction false} FkFkNoMatch(y: string, ws: char -> bool)
    requires ws(' ') && !ws('F') && !ws('K') && !ws('P')
    ensures ReplacePairs(" FK" + FkPkTail(y), "FK", "PK", ws) == " FK" + ReplacePairs(FkPkTail(y), "FK", "PK", ws)
  {
    var u := " FK" + FkPkTail(y);
    var v := FkPkTail(y);
    FkFkShape(y);
    RunEndOne(u, 0, ws);
    RunEndOne(u, 3, ws);
    PairMatchSecondMissing(u, "FK", "PK", ws, 1, 4);
    ReplacePairsNoMatch(u, "FK", "PK", ws);
    ReplacePairsSkipTwo(u[1..], "FK", "PK", ws);
    var rv := ReplacePairs(v, "FK", "PK", ws);
    assert ReplacePairs(u[1..], "FK", "PK", ws) == u[1..][..2] + rv;
    Regroup([u[0]], u[1..][..2], rv);
    assert [u[0]] + u[1..][..2] == " FK";
  }

  /** The characters of ` FK FK PK` followed by a word. */
  lemma FkFkShape(y: string)
    ensures var u := " FK" + FkPkTail(y);
            |u| >= 9 && u[0] == ' ' && u[1] == 'F' && u[2] == 'K' && u[3] == ' ' && u[4] == 'F'
            && u[1..][..2] == "FK" && u[1..][2..] == FkPkTail(y)
            && StartsWith(u[1..], "FK") && !StartsWith(u[4..], "PK")
  {
    var u := " FK" + FkPkTail(y);
    assert u[4..][..2] == "FK";
  }

  /** A blank run, the first key and a blank run not followed by the second key: no pair. */
  lemma {:induction false} PairMatchSecondMissing(s: string, a: string, b: string, ws: char -> bool, j: nat, k: nat)
    requires 0 < j && RunEnd(s, 0, ws) == j && StartsWith(s[j..], a)
    requires j + |a| <= |s| && RunEnd(s, j + |a|, ws) == k && !StartsWith(s[k..], b)
    ensures PairMatch(s, a, b, ws).None?
  {
  }

  /** Where no pair starts, the first character is copied through. */
  lemma {:induction false} ReplacePairsNoMatch(s: string, a: string, b: string, ws: char -> bool)
    requires s != [] && PairMatch(s, a, b, ws).None?
    ensures ReplacePairs(s, a, b, ws) == [s[0]] + ReplacePairs(s[1..], a, b, ws)
  {
  }

  /**
   * The `FK PK` rewrite is one left-to-right pass that does not look again at what it
   * produced: ` FK FK PK` becomes ` FK PK`, which a second pass would turn into ` PK`.
   */
  lemma {:induction false} FkPkOnePass(y: string)
    requires NoBlank(y, PyWs)
    ensures ReplacePairs(" FK" + FkPkTail(y), "FK", "PK", PyWs) == FkPkTail(y)
    ensures ReplacePairs(FkPkTail(y), "FK", "PK", PyWs) == " PK" + y
  {
    FkFkNoMatch(y, PyWs);
    FkPkCollapses(y, PyWs);
    FkPkTailSplit(y);
  }

  lemma FkPkTailSplit(y: string)
    ensures " FK" + (" PK" + y) == FkPkTail(y)
  {
  }

  /**
   * A whitespace-separated key pair `PK FK` at `i`, the shape `\s+PK\s+FK` looks for: a blank
   * at `i`, `PK`, a run of blanks, and `FK` at `j`.
   */
  predicate PkFkAt(t: string, i: nat, j: nat, ws: char -> bool)
  {
    i + 3 < j && j + 2 <= |t| && ws(t[i]) && t[i + 1] == 'P' && t[i + 2] == 'K'
    && (forall k :: i + 3 <= k < j ==> ws(t[k])) && t[j] == 'F' && t[j + 1] == 'K'
  }

  /** A run that covers exactly the blanks from `i` to `m` ends at `m`. */
  lemma {:induction false} RunEndAt(s: string, i: nat, m: nat, ws: char -> bool)
    requires i <= m <= |s|
    requires forall k :: i <= k < m ==> ws(s[k])
    requires m == |s| || !ws(s[m])
    ensures RunEnd(s, i, ws) == m
    decreases m - i
  {
    if i < m {
      RunEndAt(s, i + 1, m, ws);
    }
  }

  /** A key-pair match stops in front of a character that is not a blank. */
  lemma {:induction false} PairMatchEndsAtWord(s: string, a: string, b: string, ws: char -> bool)
    requires PairMatch(s, a, b, ws).Some?
    ensures PairMatch(s, a, b, ws).value == |s| || !ws(s[PairMatch(s, a, b, ws).value])
  {
  }

  /** A `PK FK` pair at the start of a text is what `\s+PK\s+FK\s*` matches there. */
  lemma {:induction false} PkFkAtMatches(u: string, j: nat, ws: char -> bool)
    requires !ws('P') && !ws('F')
    ensures PkFkAt(u, 0, j, ws) ==> PairMatch(u, "PK", "FK", ws).Some?
  {
    if PkFkAt(u, 0, j, ws) {
      PkFkAtMatchesStart(u, j, ws);
    }
  }

  lemma {:induction false} PkFkAtMatchesStart(u: string, j: nat, ws: char -> bool)
    requires !ws('P') && !ws('F')
    requires PkFkAt(u, 0, j, ws)
    ensures PairMatch(u, "PK", "FK", ws).Some?
  {
    RunEndOne(u, 0, ws);
    assert u[1..][..2] == "PK";
    RunEndAt(u, 3, j, ws);
    assert u[j..][..2] == "FK";
    RunEndBlanks(u, j + 2, ws);
    PairMatchFrom(u, "PK", "FK", ws, 1, j, RunEnd(u, j + 2, ws));
  }

  /**
   * Up to the first ` P` of the rewritten text, the rewrite is still a copy: every inserted
   * ` PK` starts with a blank followed by `P`.
   */
  lemma {:induction false} CopiedPrefix(u: string, a: string, b: string, ws: char -> bool, n: nat)
    ensures var r := ReplacePairs(u, a, b, ws);
            n <= |r| && (forall m :: 0 <= m < n && m + 1 < |r| ==> !(r[m] == ' ' && r[m + 1] == 'P'))
            ==> n <= |u| && r[..n] == u[..n]
    decreases |u|
  {
    var r := ReplacePairs(u, a, b, ws);
    if u != [] && n > 0 {
      match PairMatch(u, a, b, ws)
      case Some(e) =>
        assert r[0] == ' ' && r[1] == 'P';
      case None =>
        var rest := ReplacePairs(u[1..], a, b, ws);
        assert r == [u[0]] + rest;
        CopiedPrefix(u[1..], a, b, ws, n - 1);
        CopiedStep(u, r, rest, n);
    }
  }

  /** A text that starts with the first character of `u` and continues with a copy of the rest of `u` copies `u`. */
  lemma CopiedStep(u: string, r: string, rest: string, n: nat)
    requires u != [] && n > 0 && r == [u[0]] + rest
    requires n - 1 <= |rest| && (forall m :: 0 <= m < n - 1 && m + 1 < |rest| ==> !(rest[m] == ' ' && rest[m + 1] == 'P'))
             ==> n - 1 <= |u[1..]| && rest[..n - 1] == u[1..][..n - 1]
    ensures n <= |r| && (forall m :: 0 <= m < n && m + 1 < |r| ==> !(r[m] == ' ' && r[m + 1] == 'P'))
            ==> n <= |u| && r[..n] == u[..n]
  {
    if n <= |r| && (forall m :: 0 <= m < n && m + 1 < |r| ==> !(r[m] == ' ' && r[m + 1] == 'P')) {
      forall m | 0 <= m < n - 1 && m + 1 < |rest|
        ensures !(rest[m] == ' ' && rest[m + 1] == 'P')
      {
        assert rest[m] == r[m + 1] && rest[m + 1] == r[m + 2];
      }
      assert r[..n] == [u[0]] + rest[..n - 1];
      assert u[..n] == [u[0]] + u[1..][..n - 1];
    }
  }

  /** A pair read from a copied stretch of text: the pair shifted by one position. */
  lemma {:induction false} PkFkAtShift(r: string, t: string, i: nat, j: nat, d: nat, ws: char -> bool)
    requires d <= |r| && r[d..] == t
    ensures PkFkAt(t, i, j, ws) ==> PkFkAt(r, i + d, j + d, ws)
    ensures PkFkAt(r, i + d, j + d, ws) ==> PkFkAt(t, i, j, ws)
  {
    if PkFkAt(t, i, j, ws) || PkFkAt(r, i + d, j + d, ws) {
      assert forall k :: i + 3 <= k < j ==> r[k + d] == t[k];
    }
  }

  /** No pair starts in the inserted ` PK` when a word or the end of the text follows it. */
  lemma {:induction false} NoPkFkAtInsert(r: string, rest: string, i: nat, j: nat, ws: char -> bool)
    requires r == " PK" + rest && i < 3
    requires rest == [] || !ws(rest[0])
    requires !ws('P') && !ws('K')
    ensures !PkFkAt(r, i, j, ws)
  {
    assert r[1] == 'P' && r[2] == 'K';
    if rest != [] {
      assert r[3] == rest[0];
    }
  }

  /** The rewrite at a match: ` PK`, then the rewrite of what follows the match. */
  lemma {:induction false} ReplacePairsAtMatch(s: string, a: string, b: string, ws: char -> bool, e: nat)
    requires s != [] && PairMatch(s, a, b, ws) == Some(e)
    ensures ReplacePairs(s, a, b, ws) == " PK" + ReplacePairs(s[e..], a, b, ws)
    ensures 3 <= |ReplacePairs(s, a, b, ws)| && ReplacePairs(s, a, b, ws)[3..] == ReplacePairs(s[e..], a, b, ws)
  {
    assert (" PK" + ReplacePairs(s[e..], a, b, ws))[3..] == ReplacePairs(s[e..], a, b, ws);
  }

  /** Behind the ` PK` of a match, the rewrite goes on with what follows the match. */
  lemma {:induction false} ReplacePairsAfterMatch(s: string, a: string, b: string, ws: char -> bool, e: nat)
    requires s != [] && PairMatch(s, a, b, ws) == Some(e)
    ensures 3 <= |ReplacePairs(s, a, b, ws)| && ReplacePairs(s, a, b, ws)[3..] == ReplacePairs(s[e..], a, b, ws)
  {
    ReplacePairsAtMatch(s, a, b, ws, e);
  }

  /** Behind a copied character, the rewrite goes on with the rest of the text. */
  lemma {:induction false} ReplacePairsAfterCopy(s: string, a: string, b: string, ws: char -> bool)
    requires s != [] && PairMatch(s, a, b, ws).None?
    ensures 1 <= |ReplacePairs(s, a, b, ws)| && ReplacePairs(s, a, b, ws)[1..] == ReplacePairs(s[1..], a, b, ws)
  {
    ReplacePairsAtCopy(s, a, b, ws);
  }

  /** The rewrite where no match starts: the character, then the rewrite of the rest. */
  lemma {:induction false} ReplacePairsAtCopy(s: string, a: string, b: string, ws: char -> bool)
    requires s != [] && PairMatch(s, a, b, ws).None?
    ensures ReplacePairs(s, a, b, ws) == [s[0]] + ReplacePairs(s[1..], a, b, ws)
    ensures 1 <= |ReplacePairs(s, a, b, ws)| && ReplacePairs(s, a, b, ws)[1..] == ReplacePairs(s[1..], a, b, ws)
  {
    assert ([s[0]] + ReplacePairs(s[1..], a, b, ws))[1..] == ReplacePairs(s[1..], a, b, ws);
  }

  /** No pair starts inside the ` PK` that replaces a match at the start of the text. */
  lemma {:induction false} NoPkFkAtMatch(s: string, a: string, b: string, ws: char -> bool, e: nat, i: nat, n: nat)
    requires s != [] && PairMatch(s, a, b, ws) == Some(e) && i < 3
    requires !ws('P') && !ws('K')
    ensures !PkFkAt(ReplacePairs(s, a, b, ws), i, i + n, ws)
  {
    var rest := ReplacePairs(s[e..], a, b, ws);
    ReplacePairsAtMatch(s, a, b, ws, e);
    PairMatchEndsAtWord(s, a, b, ws);
    if e < |s| {
      ReplacePairsSkip(s[e..], a, b, ws);
    }
    NoPkFkAtInsert(ReplacePairs(s, a, b, ws), rest, i, i + n, ws);
  }

  /**
   * A pair `d` characters into an output whose tail is `rest`, where every pair of `rest` is one
   * of the input `e` characters in, is a pair of the input.
   */
  lemma {:induction false} PkFkBehind(r: string, rest: string, s: string, d: nat, e: nat, i: nat, n: nat, k': nat, k: nat, ws: char -> bool)
    requires d <= |r| && r[d..] == rest && d <= i && e <= |s| && k == e + k'
    requires PkFkAt(rest, i - d, i - d + n, ws) ==> PkFkAt(s[e..], k', k' + n, ws)
    ensures PkFkAt(r, i, i + n, ws) ==> PkFkAt(s, k, k + n, ws)
  {
    PkFkAtAfter(r, rest, d, i, n, ws);
    PkFkAtInto(s, e, k', n, ws);
  }

  /** A pair `d` characters into an output whose tail `rest` has no pair there is no pair. */
  lemma {:induction false} NoPkFkBehind(r: string, rest: string, d: nat, i: nat, n: nat, ws: char -> bool)
    requires d <= |r| && r[d..] == rest && d <= i
    requires !PkFkAt(rest, i - d, i - d + n, ws)
    ensures !PkFkAt(r, i, i + n, ws)
  {
    PkFkAtAfter(r, rest, d, i, n, ws);
  }

  /** A pair of the rewritten rest, `d` characters into the output, is a pair of the output. */
  lemma {:induction false} PkFkAtAfter(r: string, rest: string, d: nat, i: nat, n: nat, ws: char -> bool)
    requires d <= |r| && r[d..] == rest && d <= i
    ensures PkFkAt(r, i, i + n, ws) ==> PkFkAt(rest, i - d, i - d + n, ws)
  {
    PkFkAtShift(r, rest, i - d, i - d + n, d, ws);
  }

  /** A pair at the start of a copied character lies in the copied stretch of the input. */
  lemma {:induction false} PkFkAtCopiedStart(s: string, a: string, b: string, ws: char -> bool, n: nat)
    requires s != [] && !ws('P')
    ensures PkFkAt([s[0]] + ReplacePairs(s[1..], a, b, ws), 0, n, ws) ==> PkFkAt(s, 0, n, ws)
  {
    var rest := ReplacePairs(s[1..], a, b, ws);
    var r := [s[0]] + rest;
    if PkFkAt(r, 0, n, ws) {
      CopiedPrefix(s[1..], a, b, ws, n + 1);
      forall m | 0 <= m < n + 1 && m + 1 < |rest|
        ensures !(rest[m] == ' ' && rest[m + 1] == 'P')
      {
        assert rest[m] == r[m + 1] && rest[m + 1] == r[m + 2];
      }
      assert forall m :: 0 <= m < n + 2 ==> s[m] == r[m] by {
        forall m | 0 <= m < n + 2 ensures s[m] == r[m] {
          if m > 0 {
            assert rest[..n + 1][m - 1] == s[1..][..n + 1][m - 1];
          }
        }
      }
    }
  }

  /** The `PK FK` rewrite leaves no whitespace-separated `PK FK` pair. */
  lemma {:induction false} NoPkFkAfterRewrite(s: string, ws: char -> bool, i: nat, n: nat)
    requires ws(' ') && !ws('P') && !ws('K') && !ws('F')
    ensures !PkFkAt(ReplacePairs(s, "PK", "FK", ws), i, i + n, ws)
    decreases |s|, 2
  {
    if s != [] {
      if PairMatch(s, "PK", "FK", ws).Some? {
        NoPkFkAtMatchOrAfter(s, ws, i, n);
      } else {
        NoPkFkAtCopyOrAfter(s, ws, i, n);
      }
    }
  }

  /** NoPkFkAfterRewrite where a match starts the text. */
  lemma {:induction false} NoPkFkAtMatchOrAfter(s: string, ws: char -> bool, i: nat, n: nat)
    requires s != [] && PairMatch(s, "PK", "FK", ws).Some?
    requires ws(' ') && !ws('P') && !ws('K') && !ws('F')
    ensures !PkFkAt(ReplacePairs(s, "PK", "FK", ws), i, i + n, ws)
    decreases |s|, 1
  {
    if i >= 3 {
      NoPkFkAfterMatch(s, ws, PairMatch(s, "PK", "FK", ws).value, i, n);
    } else {
      NoPkFkAtMatch(s, "PK", "FK", ws, PairMatch(s, "PK", "FK", ws).value, i, n);
    }
  }

  /** NoPkFkAfterRewrite where the first character is copied. */
  lemma {:induction false} NoPkFkAtCopyOrAfter(s: string, ws: char -> bool, i: nat, n: nat)
    requires s != [] && PairMatch(s, "PK", "FK", ws).None?
    requires ws(' ') && !ws('P') && !ws('K') && !ws('F')
    ensures !PkFkAt(ReplacePairs(s, "PK", "FK", ws), i, i + n, ws)
    decreases |s|, 1
  {
    if i >= 1 {
      NoPkFkAfterCopy(s, ws, i, n);
    } else {
      ReplacePairsAtCopy(s, "PK", "FK", ws);
      PkFkAtCopiedStart(s, "PK", "FK", ws, n);
      PkFkAtMatches(s, n, ws);
    }
  }

  /** NoPkFkAfterRewrite behind the ` PK` of a match. */
  lemma {:induction false} NoPkFkAfterMatch(s: string, ws: char -> bool, e: nat, i: nat, n: nat)
    requires s != [] && PairMatch(s, "PK", "FK", ws) == Some(e) && i >= 3
    requires ws(' ') && !ws('P') && !ws('K') && !ws('F')
    ensures !PkFkAt(ReplacePairs(s, "PK", "FK", ws), i, i + n, ws)
    decreases |s|, 0
  {
    ReplacePairsAfterMatch(s, "PK", "FK", ws, e);
    NoPkFkAfterRewrite(s[e..], ws, i - 3, n);
    NoPkFkBehind(ReplacePairs(s, "PK", "FK", ws), ReplacePairs(s[e..], "PK", "FK", ws), 3, i, n, ws);
  }

  /** NoPkFkAfterRewrite behind a copied character. */
  lemma {:induction false} NoPkFkAfterCopy(s: string, ws: char -> bool, i: nat, n: nat)
    requires s != [] && PairMatch(s, "PK", "FK", ws).None? && i >= 1
    requires ws(' ') && !ws('P') && !ws('K') && !ws('F')
    ensures !PkFkAt(ReplacePairs(s, "PK", "FK", ws), i, i + n, ws)
    decreases |s|, 0
  {
    ReplacePairsAfterCopy(s, "PK", "FK", ws);
    NoPkFkAfterRewrite(s[1..], ws, i - 1, n);
    NoPkFkBehind(ReplacePairs(s, "PK", "FK", ws), ReplacePairs(s[1..], "PK", "FK", ws), 1, i, n, ws);
  }

  /** A pair of the input, `d` characters into it, read from the stretch after them. */
  lemma {:induction false} PkFkAtInto(s: string, d: nat, k: nat, n: nat, ws: char -> bool)
    requires d <= |s|
    ensures PkFkAt(s[d..], k, k + n, ws) ==> PkFkAt(s, d + k, d + k + n, ws)
  {
    PkFkAtShift(s, s[d..], k, k + n, d, ws);
  }

  /** A `PK FK` pair at `i` in the rewrite of `s`, `n` long, is one of `s` at `k`. */
  predicate PairKeptAt(s: string, a: string, b: string, ws: char -> bool, i: nat, n: nat, k: nat)
  {
    PkFkAt(ReplacePairs(s, a, b, ws), i, i + n, ws) ==> PkFkAt(s, k, k + n, ws)
  }

  /**
   * Any key-pair rewrite keeps `PK FK` pairs from its input and makes none: a pair in its
   * output is a pair of its input at `k`.
   */
  lemma {:induction false} PkFkKept(s: string, a: string, b: string, ws: char -> bool, i: nat, n: nat)
    returns (k: nat)
    requires ws(' ') && !ws('P') && !ws('K') && !ws('F')
    ensures PairKeptAt(s, a, b, ws, i, n, k)
    decreases |s|, 3
  {
    if s == [] {
      k := 0;
      NoPkFkInEmpty(s, a, b, ws, i, n);
    } else {
      k := PkFkKeptInText(s, a, b, ws, i, n);
    }
  }

  /** PkFkKept for a text that is not empty: a match or a copied character starts it. */
  lemma {:induction false} PkFkKeptInText(s: string, a: string, b: string, ws: char -> bool, i: nat, n: nat)
    returns (k: nat)
    requires s != []
    requires ws(' ') && !ws('P') && !ws('K') && !ws('F')
    ensures PairKeptAt(s, a, b, ws, i, n, k)
    decreases |s|, 2
  {
    if PairMatch(s, a, b, ws).Some? {
      k := PkFkKeptAtMatch(s, a, b, ws, i, n);
    } else {
      k := PkFkKeptAtCopy(s, a, b, ws, i, n);
    }
  }

  /** The rewrite of the empty text is empty and holds no pair. */
  lemma NoPkFkInEmpty(s: string, a: string, b: string, ws: char -> bool, i: nat, n: nat)
    requires s == []
    ensures !PkFkAt(ReplacePairs(s, a, b, ws), i, i + n, ws)
  {
    assert |ReplacePairs(s, a, b, ws)| == 0;
  }

  /** PkFkKept where a match starts the text. */
  lemma {:induction false} PkFkKeptAtMatch(s: string, a: string, b: string, ws: char -> bool, i: nat, n: nat)
    returns (k: nat)
    requires s != [] && PairMatch(s, a, b, ws).Some?
    requires ws(' ') && !ws('P') && !ws('K') && !ws('F')
    ensures PkFkAt(ReplacePairs(s, a, b, ws), i, i + n, ws) ==> PkFkAt(s, k, k + n, ws)
    decreases |s|, 1
  {
    k := 0;
    if i >= 3 {
      k := PkFkKeptAfterMatch(s, a, b, ws, PairMatch(s, a, b, ws).value, i, n);
    } else {
      NoPkFkAtMatch(s, a, b, ws, PairMatch(s, a, b, ws).value, i, n);
    }
  }

  /** PkFkKept where the first character is copied. */
  lemma {:induction false} PkFkKeptAtCopy(s: string, a: string, b: string, ws: char -> bool, i: nat, n: nat)
    returns (k: nat)
    requires s != [] && PairMatch(s, a, b, ws).None?
    requires ws(' ') && !ws('P') && !ws('K') && !ws('F')
    ensures PkFkAt(ReplacePairs(s, a, b, ws), i, i + n, ws) ==> PkFkAt(s, k, k + n, ws)
    decreases |s|, 1
  {
    k := 0;
    if i >= 1 {
      k := PkFkKeptAfterCopy(s, a, b, ws, i, n);
    } else {
      ReplacePairsAtCopy(s, a, b, ws);
      PkFkAtCopiedStart(s, a, b, ws, n);
    }
  }

  /** PkFkKept behind the ` PK` of a match. */
  lemma {:induction false} PkFkKeptAfterMatch(s: string, a: string, b: string, ws: char -> bool, e: nat, i: nat, n: nat)
    returns (k: nat)
    requires s != [] && PairMatch(s, a, b, ws) == Some(e) && i >= 3
    requires ws(' ') && !ws('P') && !ws('K') && !ws('F')
    ensures PkFkAt(ReplacePairs(s, a, b, ws), i, i + n, ws) ==> PkFkAt(s, k, k + n, ws)
    decreases |s|, 0
  {
    ReplacePairsAfterMatch(s, a, b, ws, e);
    var k' := PkFkKept(s[e..], a, b, ws, i - 3, n);
    k := e + k';
    PkFkBehind(ReplacePairs(s, a, b, ws), ReplacePairs(s[e..], a, b, ws), s, 3, e, i, n, k', k, ws);
  }

  /** PkFkKept behind a copied character. */
  lemma {:induction false} PkFkKeptAfterCopy(s: string, a: string, b: string, ws: char -> bool, i: nat, n: nat)
    returns (k: nat)
    requires s != [] && PairMatch(s, a, b, ws).None? && i >= 1
    requires ws(' ') && !ws('P') && !ws('K') && !ws('F')
    ensures PkFkAt(ReplacePairs(s, a, b, ws), i, i + n, ws) ==> PkFkAt(s, k, k + n, ws)
    decreases |s|, 0
  {
    ReplacePairsAfterCopy(s, a, b, ws);
    var k' := PkFkKept(s[1..], a, b, ws, i - 1, n);
    k := 1 + k';
    PkFkBehind(ReplacePairs(s, a, b, ws), ReplacePairs(s[1..], a, b, ws), s, 1, 1, i, n, k', k, ws);
  }

  /**
   * After the repair no whitespace-separated `PK FK` is left, for any text: the first rewrite
   * leaves none and the second makes none. Only a pair with no blank in front of it survives
   * (PkFkWithoutBlankSurvives).
   */
  lemma RepairedHasNoPkFk(code: string, ws: char -> bool)
    requires ws(' ') && !ws('P') && !ws('K') && !ws('F')
    ensures forall i: nat, j: nat :: !PkFkAt(Repaired(code, ws), i, j, ws)
  {
    var once := ReplacePairs(StripBackticks(code), "PK", "FK", ws);
    forall i: nat, j: nat | i <= j ensures !PkFkAt(Repaired(code, ws), i, j, ws) {
      var k := PkFkKept(once, "FK", "PK", ws, i, j - i);
      NoPkFkAfterRewrite(StripBackticks(code), ws, k, j - i);
    }
  }

  /** `_fix_mermaid_syntax` as written leaves no `PK FK` pair separated by Python whitespace. */
  lemma FixedSyntaxHasNoPkFk(code: string)
    ensures forall i: nat, j: nat :: !PkFkAt(FixedSyntax(code), i, j, PyWs)
  {
    RepairedHasNoPkFk(code, PyWs);
  }

  /**
   * The corrected repair leaves no `PK FK` pair separated by spaces or tabs. A pair behind a line
   * break is no match of its patterns and stays.
   */
  lemma FixedSyntaxCorrectedHasNoPkFk(code: string)
    ensures forall i: nat, j: nat :: !PkFkAt(FixedSyntaxCorrected(code), i, j, InLineBlank)
  {
    RepairedHasNoPkFk(code, InLineBlank);
  }

  /** A blank, `FK` and a word without blanks is no match of either key pair and passes unchanged. */
  lemma {:induction false} BlankKeyPasses(y: string, a: string, b: string, ws: char -> bool)
    requires |a| == 2 && ws(' ') && !ws('F') && !ws('K') && NoBlank(y, ws)
    ensures ReplacePairs(" FK" + y, a, b, ws) == " FK" + y
  {
    var u := " FK" + y;
    RunEndOne(u, 0, ws);
    if StartsWith(u[1..], a) {
      assert a == u[1..3] == "FK";
      assert u[3..] == y;
      assert RunEnd(u, 3, ws) == 3;
    }
    assert PairMatch(u, a, b, ws) == None;
    NoBlankCons('K', y, ws);
    NoBlankCons('F', ['K'] + y, ws);
    assert u[1..] == ['F'] + (['K'] + y);
    ReplacePairsPlain(u[1..], a, b, ws);
    assert u == [u[0]] + u[1..];
  }

  /**
   * Where a pair survives: `PK FK` with no blank in front of it, here at the very start of the
   * diagram, is no match of `\s+PK\s+FK\s*` and is left as it is.
   */
  lemma PkFkWithoutBlankSurvives(y: string)
    requires NoBlank(y, PyWs) && '`' !in y
    ensures FixedSyntax("PK FK" + y) == "PK FK" + y
  {
    var s := "PK FK" + y;
    PkFkStartShape(y);
    UnblankedPairPasses(s, y, "PK", "FK");
    UnblankedPairPasses(s, y, "FK", "PK");
    RepairedUnchanged(s, PyWs);
  }

  /** The characters of `PK FK` followed by a text without backticks. */
  lemma PkFkStartShape(y: string)
    requires '`' !in y
    ensures var s := "PK FK" + y;
            '`' !in s && |s| >= 2 && s[0] == 'P' && s[1] == 'K' && s[2..] == " FK" + y
  {
    var s := "PK FK" + y;
    assert forall i :: 0 <= i < 5 ==> s[i] != '`';
    assert forall i :: 5 <= i < |s| ==> s[i] == y[i - 5];
  }

  /** A text without backticks that neither rewrite changes is left as it is by the repair. */
  lemma RepairedUnchanged(s: string, ws: char -> bool)
    requires '`' !in s && ReplacePairs(s, "PK", "FK", ws) == s && ReplacePairs(s, "FK", "PK", ws) == s
    ensures Repaired(s, ws) == s
  {
    StripBackticksFree(s);
  }

  /** Either key-pair rewrite leaves two non-blanks, ` FK` and a word without blanks as they are. */
  lemma {:induction false} UnblankedPairPasses(s: string, y: string, a: string, b: string)
    requires |s| >= 2 && !PyWs(s[0]) && !PyWs(s[1]) && s[2..] == " FK" + y
    requires |a| == 2 && NoBlank(y, PyWs)
    ensures ReplacePairs(s, a, b, PyWs) == s
  {
    ReplacePairsSkipTwo(s, a, b, PyWs);
    BlankKeyPasses(y, a, b, PyWs);
    assert s[..2] + s[2..] == s;
  }

  // ---------------------------------------------------------------------------------------
  // generate_data_model

  /** The `metadata` of a result. */
  datatype Metadata = Metadata(generatedAt: string, promptUsed: string, mode: string,
                               projectContext: Json.Json, references: seq<string>,
                               serverVersion: string, generationType: string, aiProvider: string)

  /** What `generate_data_model` returns. */
  datatype DataModelResult = DataModelResult(mermaidCode: string, supplement: string, metadata: Metadata)

  const ServerVersion := "0.1.0"

  /** The diagram returned whenever generation fails: users, projects and documents. */
  const FallbackMermaid :=
    "erDiagram\n" +
    "    USER {\n" +
    "        string id PK\n" +
    "        string name\n" +
    "        string email\n" +
    "        datetime created_at\n" +
    "        datetime updated_at\n" +
    "    }\n" +
    "    \n" +
    "    PROJECT {\n" +
    "        string id PK\n" +
    "        string name\n" +
    "        string description\n" +
    "        string owner_id FK\n" +
    "        datetime created_at\n" +
    "        datetime updated_at\n" +
    "    }\n" +
    "    \n" +
    "    DOCUMENT {\n" +
    "        string id PK\n" +
    "        string project_id FK\n" +
    "        string name\n" +
    "        string type\n" +
    "        json content\n" +
    "        datetime created_at\n" +
    "        datetime updated_at\n" +
    "    }\n" +
    "    \n" +
    "    USER ||--o{ PROJECT : owns\n" +
    "    PROJECT ||--o{ DOCUMENT : contains"

  /** `references or []`. */
  function ReferencesOrEmpty(references: Option<seq<string>>): (r: seq<string>)
    ensures references.Some? ==> r == references.value
    ensures references.None? ==> r == []
  {
    match references
    case Some(rs) => rs
    case None => []
  }

  /**
   * `_generate_fallback_data`: the constant diagram, a supplement written at `stamp`, and
   * metadata saying `fallback` with no provider.
   */
  function FallbackData(request: DataModelRequest, now: string, fallbackSupplement: string): (r: DataModelResult)
    ensures r.mermaidCode == FallbackMermaid && r.supplement == fallbackSupplement
    ensures r.metadata == Metadata(now, request.prompt, "fallback", request.projectContext,
                                   ReferencesOrEmpty(request.references), ServerVersion,
                                   "fallback_mermaid", "none")
  {
    DataModelResult(FallbackMermaid, fallbackSupplement,
                    Metadata(now, request.prompt, "fallback", request.projectContext,
                             ReferencesOrEmpty(request.references), ServerVersion,
                             "fallback_mermaid", "none"))
  }

  /** The result of a generated diagram `code` credited to `provider`. */
  function GeneratedData(request: DataModelRequest, code: string, supplement: string, now: string,
                         provider: string): DataModelResult
  {
    DataModelResult(code, supplement,
                    Metadata(now, request.prompt, "ai_generated", request.projectContext,
                             ReferencesOrEmpty(request.references), ServerVersion,
                             "dynamic_ai_mermaid", provider))
  }

  /** How a call into the providers is wired: the two providers, the supplement writer and the clock's two readings. */
  datatype Wiring = Wiring(bedrock: DataModelRequest -> Outcome<string>,
                           openai: DataModelRequest -> Outcome<string>,
                           supplementFor: string -> string,
                           now: string, fallbackSupplement: string)

  /**
   * `generate_data_model` as written: the provider chain, the extraction, and the fallback
   * when the chain raises or finds no diagram. A generated result credits the first listed
   * provider, whichever one answered.
   */
  function DataModel(providers: seq<string>, request: DataModelRequest, wiring: Wiring): (r: DataModelResult)
    ensures r.metadata.mode == "ai_generated" || r.metadata.mode == "fallback"
    ensures r.metadata.promptUsed == request.prompt
    ensures r.metadata.references == ReferencesOrEmpty(request.references)
  {
    var answer := FirstAnswer(providers, request, wiring.bedrock, wiring.openai);
    if answer.Raised? then FallbackData(request, wiring.now, wiring.fallbackSupplement)
    else
      var code := ExtractMermaidCode(answer.value);
      if code == "" then FallbackData(request, wiring.now, wiring.fallbackSupplement)
      else GeneratedData(request, code, wiring.supplementFor(code), wiring.now,
                         if |providers| > 0 then providers[0] else "none")
  }

  /**
   * The result falls back exactly when no provider answers or the answer names no
   * `erDiagram`; otherwise it carries a diagram starting with `erDiagram` and no backticks.
   */
  lemma DataModelSpec(providers: seq<string>, request: DataModelRequest, wiring: Wiring)
    ensures var answer := FirstAnswer(providers, request, wiring.bedrock, wiring.openai);
            var r := DataModel(providers, request, wiring);
            (r.metadata.mode == "fallback" <==>
               answer.Raised? || forall i :: !FoldMatch(answer.value, i, "erdiagram"))
            && (r.metadata.mode == "fallback" ==> r == FallbackData(request, wiring.now, wiring.fallbackSupplement))
            && (r.metadata.mode == "ai_generated" ==>
                  r.mermaidCode == ExtractMermaidCode(answer.value)
                  && FoldMatch(r.mermaidCode, 0, "erdiagram") && '`' !in r.mermaidCode
                  && r.supplement == wiring.supplementFor(r.mermaidCode)
                  && r.metadata.generationType == "dynamic_ai_mermaid")
  {
    var answer := FirstAnswer(providers, request, wiring.bedrock, wiring.openai);
    if answer.Ok? {
      ExtractMermaidCodeSpec(answer.value);
    }
  }

  /**
   * As written, the provider credited is the first one listed, not the one that answered:
   * with both listed and Bedrock failing, OpenAI's diagram is credited to Bedrock.
   */
  lemma {:induction false} DataModelMiscreditsProvider(request: DataModelRequest, wiring: Wiring)
    requires wiring.bedrock(request).Raised? && wiring.openai(request).Ok?
    requires ExtractMermaidCode(wiring.openai(request).value) != ""
    ensures DataModel(["bedrock", "openai"], request, wiring).metadata.aiProvider == "bedrock"
    ensures DataModel(["bedrock", "openai"], request, wiring).mermaidCode
              == ExtractMermaidCode(wiring.openai(request).value)
  {
    var providers := ["bedrock", "openai"];
    assert providers[0] == "bedrock" && providers[1] == "openai";
    assert FirstAnswer(providers, request, wiring.bedrock, wiring.openai) == wiring.openai(request);
  }

  /**
   * `generate_data_model` with the answering provider credited and the line-preserving
   * repair.
   */
  function DataModelCorrected(providers: seq<string>, request: DataModelRequest, wiring: Wiring): (r: DataModelResult)
    ensures r.metadata.mode == "ai_generated" || r.metadata.mode == "fallback"
    ensures r.metadata.promptUsed == request.prompt
    ensures r.metadata.references == ReferencesOrEmpty(request.references)
  {
    var answer := FirstAnswer(providers, request, wiring.bedrock, wiring.openai);
    if answer.Raised? then FallbackData(request, wiring.now, wiring.fallbackSupplement)
    else
      var code := ExtractMermaidCodeCorrected(answer.value);
      if code == "" then FallbackData(request, wiring.now, wiring.fallbackSupplement)
      else GeneratedData(request, code, wiring.supplementFor(code), wiring.now,
                         Answerer(providers, request, wiring.bedrock, wiring.openai).value)
  }

  /**
   * The corrected result falls back on the same calls as the original, and a generated
   * result credits the provider whose reply the diagram came from.
   */
  lemma DataModelCorrectedSpec(providers: seq<string>, request: DataModelRequest, wiring: Wiring)
    ensures var r := DataModelCorrected(providers, request, wiring);
            (r.metadata.mode == "fallback" <==> DataModel(providers, request, wiring).metadata.mode == "fallback")
            && (r.metadata.mode == "fallback" ==> r == DataModel(providers, request, wiring))
            && (r.metadata.mode == "ai_generated" ==>
                  r.metadata.aiProvider in providers
                  && (r.metadata.aiProvider == "bedrock" ==>
                        r.mermaidCode == ExtractMermaidCodeCorrected(wiring.bedrock(request).value))
                  && (r.metadata.aiProvider == "openai" ==>
                        wiring.bedrock(request).Raised? || "bedrock" !in providers)
                  && (r.metadata.aiProvider == "openai" ==>
                        r.mermaidCode == ExtractMermaidCodeCorrected(wiring.openai(request).value)))
  {
    var answer := FirstAnswer(providers, request, wiring.bedrock, wiring.openai);
    if answer.Ok? {
      ExtractMermaidCodeSpec(answer.value);
    }
  }

  // ---------------------------------------------------------------------------------------
  // The service object

  /** The service: the settings read at start-up and the provider list built from them. */
  class AIService {
    const openaiApiKey: Option<string>
    const awsAccessKey: Option<string>
    const awsSecretKey: Option<string>
    const awsRegion: string
    const providers: seq<string>

    /** Reads the environment (region `us-west-2` by default) and lists the usable providers in order of preference. */
    constructor(env: PyEnv, openaiImported: bool, boto3Imported: bool)
      ensures providers == ProviderList(env, openaiImported, boto3Imported)
      ensures openaiApiKey == env.openaiApiKey && awsAccessKey == env.awsAccessKey
      ensures awsSecretKey == env.awsSecretKey
      ensures awsRegion == (if env.awsRegion.Some? then env.awsRegion.value else "us-west-2")
    {
      openaiApiKey := env.openaiApiKey;
      awsAccessKey := env.awsAccessKey;
      awsSecretKey := env.awsSecretKey;
      awsRegion := if env.awsRegion.Some? then env.awsRegion.value else "us-west-2";
      var list: seq<string> := [];
      if boto3Imported && PyTruthy(env.awsAccessKey) {
        list := list + ["bedrock"];
      }
      if openaiImported && PyTruthy(env.openaiApiKey) {
        list := list + ["openai"];
      }
      providers := list;
    }

    /** `_generate_with_ai`: each listed provider in turn, the first reply winning. */
    method GenerateWithAi(request: DataModelRequest, bedrock: DataModelRequest -> Outcome<string>,
                          openai: DataModelRequest -> Outcome<string>) returns (r: Outcome<string>)
      ensures r == FirstAnswer(providers, request, bedrock, openai)
    {
      if "bedrock" in providers {
        var reply := bedrock(request);
        if reply.Ok? {
          return reply;
        }
      }
      if "openai" in providers {
        var reply := openai(request);
        if reply.Ok? {
          return reply;
        }
      }
      return Raised(NoProvidersMessage);
    }

    /** `_fix_mermaid_syntax`: the backtick passes, then the two key-pair rewrites. */
    method FixMermaidSyntax(mermaidCode: string) returns (fixedCode: string)
      ensures fixedCode == FixedSyntax(mermaidCode)
      ensures '`' !in fixedCode
      ensures forall i: nat, j: nat :: !PkFkAt(fixedCode, i, j, PyWs)
    {
      fixedCode := DropBacktickPairs(mermaidCode);
      if '`' in fixedCode {
        fixedCode := WithoutBackticks(fixedCode);
      }
      fixedCode := ReplacePairs(fixedCode, "PK", "FK", PyWs);
      fixedCode := ReplacePairs(fixedCode, "FK", "PK", PyWs);
      RepairedHasNoBackticks(mermaidCode, PyWs);
      RepairedHasNoPkFk(mermaidCode, PyWs);
    }

    /** `generate_data_model`: generate, extract, and fall back on any failure. */
    method GenerateDataModel(request: DataModelRequest, wiring: Wiring) returns (r: DataModelResult)
      ensures r == DataModel(providers, request, wiring)
    {
      var answer := GenerateWithAi(request, wiring.bedrock, wiring.openai);
      if answer.Raised? {
        return FallbackData(request, wiring.now, wiring.fallbackSupplement);
      }
      var mermaidCode := ExtractMermaidCode(answer.value);
      if mermaidCode == "" {
        return FallbackData(request, wiring.now, wiring.fallbackSupplement);
      }
      var provider := if |providers| > 0 then providers[0] else "none";
      r := GeneratedData(request, mermaidCode, wiring.supplementFor(mermaidCode), wiring.now, provider);
    }
  }
}
