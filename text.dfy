/**
 * String primitives with the exact semantics the TypeScript and Python sources rely on:
 * whitespace classes, trimming, substring search, first-occurrence replacement, splitting,
 * ASCII lower-casing and decimal rendering.
 */
module Text {
  import opened Wrappers

  /** Which language's notion of whitespace applies. */
  datatype Flavor = Js | Py

  /**
   * ECMAScript WhiteSpace and LineTerminator code points: what a JavaScript `\s` matches
   * and what `String.prototype.trim` removes.
   */
  predicate JsSpace(c: char)
  {
    c == '\t' || c == '\n' || c == '\U{000B}' || c == '\U{000C}' || c == '\r' || c == ' '
    || c == '\U{00A0}' || c == '\U{1680}' || ('\U{2000}' <= c <= '\U{200A}')
    || c == '\U{2028}' || c == '\U{2029}' || c == '\U{202F}' || c == '\U{205F}'
    || c == '\U{3000}' || c == '\U{FEFF}'
  }

  /** The code points for which Python's `str.isspace` holds: what `\s` matches in a `str` pattern and `strip()` removes. */
  predicate PySpace(c: char)
  {
    c == '\t' || c == '\n' || c == '\U{000B}' || c == '\U{000C}' || c == '\r'
    || ('\U{001C}' <= c <= '\U{001F}') || c == ' ' || c == '\U{0085}' || c == '\U{00A0}'
    || c == '\U{1680}' || ('\U{2000}' <= c <= '\U{200A}') || c == '\U{2028}' || c == '\U{2029}'
    || c == '\U{202F}' || c == '\U{205F}' || c == '\U{3000}'
  }

  predicate IsSpace(f: Flavor, c: char)
  {
    if f == Js then JsSpace(c) else PySpace(c)
  }

  /** Every character of `s` is whitespace (the empty string included). */
  predicate Blank(f: Flavor, s: string)
  {
    forall i :: 0 <= i < |s| ==> IsSpace(f, s[i])
  }

  /** `s` without its leading whitespace. */
  function TrimLeft(f: Flavor, s: string): (r: string)
    ensures |r| <= |s| && r == s[|s| - |r|..]
    ensures forall k :: 0 <= k < |s| - |r| ==> IsSpace(f, s[k])
    ensures r == [] || !IsSpace(f, r[0])
  {
    if s == [] || !IsSpace(f, s[0]) then s else TrimLeft(f, s[1..])
  }

  /** `s` without its trailing whitespace. */
  function TrimRight(f: Flavor, s: string): (r: string)
    ensures |r| <= |s| && r == s[..|r|]
    ensures forall k :: |r| <= k < |s| ==> IsSpace(f, s[k])
    ensures r == [] || !IsSpace(f, r[|r| - 1])
  {
    if s == [] || !IsSpace(f, s[|s| - 1]) then s else TrimRight(f, s[..|s| - 1])
  }

  /** JavaScript `s.trim()`. */
  function Trim(s: string): string
  {
    TrimRight(Js, TrimLeft(Js, s))
  }

  /** Python `s.strip()`. */
  function Strip(s: string): string
  {
    TrimRight(Py, TrimLeft(Py, s))
  }

  /** Trimming leaves nothing exactly when the string is all whitespace. */
  lemma TrimEmptyIffBlank(f: Flavor, s: string)
    ensures TrimRight(f, TrimLeft(f, s)) == [] <==> Blank(f, s)
  {
    var l := TrimLeft(f, s);
    if l != [] {
      assert !IsSpace(f, s[|s| - |l|]);
    }
  }

  /** Leading whitespace is dropped by `trim`. */
  lemma TrimSkipsFirst(s: string)
    requires s != [] && JsSpace(s[0])
    ensures Trim(s) == Trim(s[1..])
  {
    assert TrimLeft(Js, s) == TrimLeft(Js, s[1..]);
  }

  /** Trailing whitespace after a non-blank first character is dropped by `trim`. */
  lemma TrimSkipsLast(s: string)
    requires s != [] && !JsSpace(s[0]) && JsSpace(s[|s| - 1])
    ensures Trim(s) == Trim(s[..|s| - 1])
  {
    var t := s[..|s| - 1];
    assert TrimLeft(Js, s) == s;
    assert t == [] || t[0] == s[0];
    assert TrimLeft(Js, t) == t;
    assert TrimRight(Js, s) == TrimRight(Js, t);
  }

  /** A string with no whitespace at either end is its own `trim`. */
  lemma TrimKeeps(s: string)
    requires s == [] || (!JsSpace(s[0]) && !JsSpace(s[|s| - 1]))
    ensures Trim(s) == s
  {
    assert TrimLeft(Js, s) == s;
    assert TrimRight(Js, s) == s;
  }

  /** Some character of `s` is not whitespace: read one character at a time. */
  predicate HasText(s: string)
  {
    s != [] && (!JsSpace(s[0]) || HasText(s[1..]))
  }

  /** `s.trim()` is non-empty exactly when `s` has a character that is not whitespace. */
  lemma {:induction false} HasTextIffTrimmed(s: string)
    ensures HasText(s) <==> Trim(s) != ""
  {
    TrimEmptyIffBlank(Js, s);
    HasTextIffNotBlank(s);
  }

  lemma {:induction false} HasTextIffNotBlank(s: string)
    ensures HasText(s) <==> !Blank(Js, s)
  {
    if s != [] {
      HasTextIffNotBlank(s[1..]);
      if !Blank(Js, s[1..]) {
        var i :| 0 <= i < |s[1..]| && !IsSpace(Js, s[1..][i]);
        assert !IsSpace(Js, s[i + 1]);
      }
      assert Blank(Js, s) <==> JsSpace(s[0]) && Blank(Js, s[1..]) by {
        if JsSpace(s[0]) && Blank(Js, s[1..]) {
          forall i | 0 <= i < |s|
            ensures IsSpace(Js, s[i])
          {
            if i > 0 {
              assert s[i] == s[1..][i - 1];
            }
          }
        }
      }
    }
  }

  /** The longest prefix of `t` without whitespace. */
  function NonSpacePrefix(t: string): (r: string)
    ensures |r| <= |t| && r == t[..|r|]
    ensures forall k :: 0 <= k < |r| ==> !JsSpace(r[k])
    ensures |r| == |t| || JsSpace(t[|r|])
    ensures t != [] && !JsSpace(t[0]) ==> r != []
  {
    if t == [] || JsSpace(t[0]) then [] else [t[0]] + NonSpacePrefix(t[1..])
  }

  /**
   * The maximal runs of non-whitespace in `s`: what `s.split(/\s+/)` gives for a string
   * without leading or trailing whitespace.
   */
  function Tokens(s: string): (r: seq<string>)
    ensures "" !in r
    decreases |s|
  {
    var t := TrimLeft(Js, s);
    if t == [] then []
    else
      var w := NonSpacePrefix(t);
      assert |w| > 0 by { assert !IsSpace(Js, t[0]); }
      [w] + Tokens(t[|w|..])
  }

  /** `t` occurs in `s` starting at index `i`. */
  predicate MatchAt(s: string, t: string, i: int)
  {
    0 <= i && i + |t| <= |s| && s[i..i + |t|] == t
  }

  /** JavaScript `s.includes(t)`, Python `t in s`. */
  predicate Contains(s: string, t: string)
  {
    exists i :: 0 <= i <= |s| - |t| && MatchAt(s, t, i)
  }

  /** The leftmost occurrence of `t` in `s` at or after `from`. */
  function IndexOfFrom(s: string, t: string, from: nat): (r: Option<nat>)
    ensures r.Some? ==> from <= r.value && MatchAt(s, t, r.value)
    ensures r.Some? ==> forall k :: from <= k < r.value ==> !MatchAt(s, t, k)
    ensures r.None? ==> forall k :: from <= k ==> !MatchAt(s, t, k)
    decreases |s| - from
  {
    if from + |t| > |s| then None
    else if s[from..from + |t|] == t then Some(from)
    else IndexOfFrom(s, t, from + 1)
  }

  /** JavaScript `s.indexOf(t)` (None for -1). */
  function IndexOf(s: string, t: string): (r: Option<nat>)
    ensures r.Some? <==> Contains(s, t)
    ensures r.Some? ==> MatchAt(s, t, r.value) && forall k :: 0 <= k < r.value ==> !MatchAt(s, t, k)
  {
    IndexOfFrom(s, t, 0)
  }

  /** JavaScript `s.startsWith(p)`. */
  predicate StartsWith(s: string, p: string)
  {
    |p| <= |s| && s[..|p|] == p
  }

  /**
   * JavaScript `s.replace(pat, rep)` with a string pattern: only the first occurrence is
   * replaced (the replacement is taken literally, i.e. it holds no `$` sequence).
   */
  function ReplaceFirst(s: string, pat: string, rep: string): (r: string)
    ensures !Contains(s, pat) ==> r == s
  {
    match IndexOf(s, pat)
    case None => s
    case Some(i) => s[..i] + rep + s[i + |pat|..]
  }

  /** The replacement of the first occurrence keeps everything before and after it. */
  lemma ReplaceFirstShape(s: string, pat: string, rep: string)
    requires Contains(s, pat)
    ensures var i := IndexOf(s, pat).value;
            ReplaceFirst(s, pat, rep) == s[..i] + rep + s[i + |pat|..]
            && s == s[..i] + pat + s[i + |pat|..]
  {
    var i := IndexOf(s, pat).value;
    assert s[i..i + |pat|] == pat;
    assert s == s[..i] + s[i..i + |pat|] + s[i + |pat|..];
  }

  /** JavaScript `parts.join(sep)`. */
  function Join(parts: seq<string>, sep: string): string
  {
    if |parts| == 0 then ""
    else if |parts| == 1 then parts[0]
    else parts[0] + sep + Join(parts[1..], sep)
  }

  /** A concatenation starts with its first part. */
  lemma StartsWithConcat(a: string, b: string)
    ensures StartsWith(a + b, a)
  {
    assert (a + b)[..|a|] == a;
  }

  /** The middle part of a concatenation occurs in it, right after the first part. */
  lemma ContainsInfix(a: string, b: string, c: string)
    ensures MatchAt(a + b + c, b, |a|) && Contains(a + b + c, b)
  {
    assert (a + b + c)[|a|..|a| + |b|] == b;
    assert MatchAt(a + b + c, b, |a|);
  }

  /** A prefix of `x` is a prefix of every extension of `x`. */
  lemma StartsWithExtend(x: string, y: string, p: string)
    requires StartsWith(x, p)
    ensures StartsWith(x + y, p)
  {
    assert (x + y)[..|p|] == x[..|p|];
  }

  /** An occurrence in `x` or in `y` is an occurrence in `x + y`. */
  lemma ContainsExtend(x: string, y: string, p: string)
    requires Contains(x, p) || Contains(y, p)
    ensures Contains(x + y, p)
  {
    if Contains(x, p) {
      var i :| 0 <= i <= |x| - |p| && MatchAt(x, p, i);
      assert (x + y)[i..i + |p|] == x[i..i + |p|];
      assert MatchAt(x + y, p, i);
    } else {
      var i :| 0 <= i <= |y| - |p| && MatchAt(y, p, i);
      assert (x + y)[|x| + i..|x| + i + |p|] == y[i..i + |p|];
      assert MatchAt(x + y, p, |x| + i);
    }
  }

  /** An occurrence of `p` inside an occurrence of `q` is an occurrence of `p`. */
  lemma ContainsTrans(s: string, q: string, p: string)
    requires Contains(s, q) && Contains(q, p)
    ensures Contains(s, p)
  {
    var i :| 0 <= i <= |s| - |q| && MatchAt(s, q, i);
    var j :| 0 <= j <= |q| - |p| && MatchAt(q, p, j);
    forall k | 0 <= k < |p| ensures s[i + j + k] == p[k] {
      assert s[i..i + |q|][j + k] == q[j + k];
      assert q[j..j + |p|][k] == p[k];
    }
    assert s[i + j..i + j + |p|] == p;
    assert MatchAt(s, p, i + j);
  }

  /** A match inside a prefix of `s` is a match in `s`. */
  lemma MatchInPrefix(s: string, t: string, n: nat, k: int)
    requires n <= |s| && MatchAt(s[..n], t, k)
    ensures MatchAt(s, t, k)
  {
    assert s[..n][k..k + |t|] == s[k..k + |t|];
  }

  /** JavaScript `s.split(sep)` for a non-empty separator string. */
  function Split(s: string, sep: string): (parts: seq<string>)
    requires |sep| > 0
    ensures |parts| >= 1
    ensures Join(parts, sep) == s
    ensures forall i :: 0 <= i < |parts| ==> !Contains(parts[i], sep)
    decreases |s|
  {
    match IndexOf(s, sep)
    case None => [s]
    case Some(i) =>
      var rest := Split(s[i + |sep|..], sep);
      assert !Contains(s[..i], sep) by {
        forall k | MatchAt(s[..i], sep, k) ensures false {
          MatchInPrefix(s, sep, i, k);
        }
      }
      assert s == s[..i] + sep + s[i + |sep|..] by {
        assert s[i..i + |sep|] == sep;
        assert s == s[..i] + s[i..i + |sep|] + s[i + |sep|..];
      }
      [s[..i]] + rest
  }

  /** JavaScript `s.split('\n')`. */
  function Lines(s: string): (lines: seq<string>)
    ensures |lines| >= 1 && Join(lines, "\n") == s
    ensures forall i :: 0 <= i < |lines| ==> '\n' !in lines[i]
  {
    var parts := Split(s, "\n");
    assert forall i :: 0 <= i < |parts| ==> '\n' !in parts[i] by {
      forall i, k | 0 <= i < |parts| && 0 <= k < |parts[i]| ensures parts[i][k] != '\n' {
        assert !MatchAt(parts[i], "\n", k);
        assert parts[i][k..k + 1] == [parts[i][k]];
      }
    }
    parts
  }

  /** ASCII lower-casing of one character. */
  function LowerChar(c: char): (r: char)
    ensures ('A' <= c <= 'Z') ==> r as int == c as int + 32
    ensures !('A' <= c <= 'Z') ==> r == c
  {
    if 'A' <= c <= 'Z' then (c as int + 32) as char else c
  }

  /** `s.toLowerCase()` restricted to ASCII letters. */
  function Lower(s: string): (r: string)
    ensures |r| == |s| && forall i :: 0 <= i < |s| ==> r[i] == LowerChar(s[i])
  {
    if s == [] then [] else [LowerChar(s[0])] + Lower(s[1..])
  }

  /** JavaScript `s.substring(0, n)`. */
  function Prefix(s: string, n: nat): (r: string)
    ensures |r| == if |s| <= n then |s| else n
    ensures r == s[..|r|]
  {
    if |s| <= n then s else s[..n]
  }

  function DigitChar(d: nat): (c: char)
    requires d < 10
    ensures '0' <= c <= '9' && c as int - '0' as int == d
  {
    ('0' as int + d) as char
  }

  /** The decimal rendering `String(n)` of a non-negative integer. */
  function NatToString(n: nat): (r: string)
    ensures |r| >= 1 && forall i :: 0 <= i < |r| ==> '0' <= r[i] <= '9'
    ensures |r| > 1 ==> r[0] != '0'
  {
    if n < 10 then [DigitChar(n)] else NatToString(n / 10) + [DigitChar(n % 10)]
  }

  /** The value of a string of decimal digits. */
  function DigitsValue(s: string): nat
    requires forall i :: 0 <= i < |s| ==> '0' <= s[i] <= '9'
  {
    if s == [] then 0 else 10 * DigitsValue(s[..|s| - 1]) + (s[|s| - 1] as int - '0' as int)
  }

  /** Reading the decimal rendering back gives the number. */
  lemma {:induction false} NatToStringRoundTrip(n: nat)
    ensures DigitsValue(NatToString(n)) == n
  {
    if n >= 10 {
      var r := NatToString(n);
      assert r[..|r| - 1] == NatToString(n / 10);
      NatToStringRoundTrip(n / 10);
    }
  }

  /** Concatenation regrouped, stated over plain strings so that callers need not unfold anything. */
  lemma Regroup(p: string, q: string, r: string)
    ensures p + (q + r) == (p + q) + r
  {
  }

  /** The decimal rendering `String(i)` of any integer. */
  function IntToString(i: int): string
  {
    if i < 0 then "-" + NatToString(-i) else NatToString(i)
  }

  /** Splitting stops at the first separator: when none occurs before the one after `x`, `x` is the first piece. */
  lemma SplitAtFirst(x: string, sep: string, z: string)
    requires |sep| > 0
    requires !Contains(x + sep[..|sep| - 1], sep)
    ensures Split(x + sep + z, sep) == [x] + Split(z, sep)
  {
    var s := x + sep + z;
    assert s[|x|..|x| + |sep|] == sep;
    forall k | 0 <= k < |x| ensures !MatchAt(s, sep, k) {
      if MatchAt(s, sep, k) {
        var w := x + sep[..|sep| - 1];
        assert w[k..k + |sep|] == s[k..k + |sep|];
        assert MatchAt(w, sep, k);
      }
    }
    assert MatchAt(s, sep, |x|);
    assert IndexOf(s, sep) == Some(|x|);
    assert s[..|x|] == x && s[|x| + |sep|..] == z;
  }

  /** Text without the separator splits into itself alone. */
  lemma SplitNone(x: string, sep: string)
    requires |sep| > 0 && !Contains(x, sep)
    ensures Split(x, sep) == [x]
  {
  }

  /** A line without a newline, then a newline, is the first of the lines. */
  lemma LinesCons(a: string, b: string)
    requires '\n' !in a
    ensures Lines(a + "\n" + b) == [a] + Lines(b)
  {
    assert "\n"[..0] == "";
    assert !Contains(a, "\n") by {
      forall k | 0 <= k <= |a| - 1 ensures !MatchAt(a, "\n", k) {
        assert a[k..k + 1][0] == a[k];
      }
    }
    assert a + "\n"[..0] == a;
    SplitAtFirst(a, "\n", b);
  }

  lemma BlankTail(ws: string)
    requires ws != [] && Blank(Js, ws)
    ensures Blank(Js, ws[1..])
  {
    forall i | 0 <= i < |ws| - 1 ensures IsSpace(Js, ws[1..][i]) {
      assert ws[1..][i] == ws[i + 1];
    }
  }

  /** Leading whitespace is skipped by `trim`. */
  lemma {:induction false} TrimLeftSkip(ws: string, s: string)
    requires Blank(Js, ws)
    ensures TrimLeft(Js, ws + s) == TrimLeft(Js, s)
    decreases |ws|, 1
  {
    if ws != [] {
      TrimLeftSkipFirst(ws, s);
    } else {
      assert ws + s == s;
    }
  }

  /** TrimLeftSkip when there is leading whitespace: its first character goes first. */
  lemma {:induction false} TrimLeftSkipFirst(ws: string, s: string)
    requires ws != [] && Blank(Js, ws)
    ensures TrimLeft(Js, ws + s) == TrimLeft(Js, s)
    decreases |ws|, 0
  {
    TrimLeftDropsSpace(ws, s);
    BlankTail(ws);
    TrimLeftSkip(ws[1..], s);
  }

  /** A leading space is dropped by `trimStart`. */
  lemma TrimLeftDropsSpace(ws: string, s: string)
    requires ws != [] && IsSpace(Js, ws[0])
    ensures TrimLeft(Js, ws + s) == TrimLeft(Js, ws[1..] + s)
  {
    var t := ws + s;
    assert t[0] == ws[0];
    assert t[1..] == ws[1..] + s;
  }

  /** Trimming the end stops inside the last part as long as that part has a non-space character. */
  lemma {:induction false} TrimRightKeep(a: string, b: string, k: nat)
    requires k < |b| && !JsSpace(b[k])
    ensures TrimRight(Js, a + b) == a + TrimRight(Js, b)
    decreases |b|
  {
    var s := a + b;
    assert s[|s| - 1] == b[|b| - 1];
    if JsSpace(b[|b| - 1]) {
      assert k < |b| - 1;
      assert s[..|s| - 1] == a + b[..|b| - 1];
      TrimRightKeep(a, b[..|b| - 1], k);
    }
  }
}
