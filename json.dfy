/**
 * The values `JSON.parse` produces, plus `undefined`, with the JavaScript coercions the
 * sources apply to them: truthiness (`||` defaults), property access and `String(v)`.
 */
module Json {
  import opened Wrappers
  import Text

  /**
   * A parsed JSON value. A number carries its value and the text `String(n)` renders it as
   * (number formatting is floating point and is taken as given, like `JSON.parse` itself).
   */
  datatype Json =
    | JUndef
    | JNull
    | JBool(b: bool)
    | JNum(n: real, text: string)
    | JStr(s: string)
    | JArr(items: seq<Json>)
    | JObj(members: seq<Member>)

  datatype Member = Member(key: string, value: Json)

  /** JavaScript truthiness: `undefined`, `null`, `false`, `0` and `''` are falsy. */
  predicate Truthy(v: Json)
  {
    match v
    case JUndef => false
    case JNull => false
    case JBool(b) => b
    case JNum(n, _) => n != 0.0
    case JStr(s) => s != ""
    case _ => true
  }

  /** `v || d`. */
  function Or(v: Json, d: Json): (r: Json)
    ensures Truthy(v) ==> r == v
    ensures !Truthy(v) ==> r == d
  {
    if Truthy(v) then v else d
  }

  /** The value under `key` among `members`; a later duplicate key wins, as with `JSON.parse`. */
  function Lookup(members: seq<Member>, key: string): Json
  {
    if members == [] then JUndef
    else if members[|members| - 1].key == key then members[|members| - 1].value
    else Lookup(members[..|members| - 1], key)
  }

  /** Members appended after the last one with `key` do not change what `key` looks up. */
  lemma {:induction false} LookupSkipsSuffix(ms: seq<Member>, rest: seq<Member>, key: string)
    requires forall m :: m in rest ==> m.key != key
    ensures Lookup(ms + rest, key) == Lookup(ms, key)
    decreases |rest|
  {
    if rest == [] {
      assert ms + rest == ms;
    } else {
      var init := rest[..|rest| - 1];
      assert (ms + rest)[..|ms + rest| - 1] == ms + init;
      assert (ms + rest)[|ms + rest| - 1] == rest[|rest| - 1];
      assert rest[|rest| - 1] in rest;
      LookupSkipsSuffix(ms, init, key);
    }
  }

  /** The member at `i` is what `key` looks up when no later member has that key. */
  lemma LookupAt(ms: seq<Member>, i: nat, key: string)
    requires i < |ms| && ms[i].key == key
    requires forall j :: i < j < |ms| ==> ms[j].key != key
    ensures Lookup(ms, key) == ms[i].value
  {
    var head, rest := ms[..i + 1], ms[i + 1..];
    assert ms == head + rest;
    forall m | m in rest ensures m.key != key {
      var j :| 0 <= j < |rest| && rest[j] == m;
      assert ms[i + 1 + j] == m;
    }
    LookupSkipsSuffix(head, rest, key);
  }

  /**
   * Property access `v.key`: a TypeError (None) on `null`/`undefined`, `undefined` for a
   * key a non-object does not have.
   */
  function Prop(v: Json, key: string): (r: Option<Json>)
    ensures r.None? <==> v.JUndef? || v.JNull?
  {
    match v
    case JUndef => None
    case JNull => None
    case JObj(ms) => Some(Lookup(ms, key))
    case _ => Some(JUndef)
  }

  /** `v.key` where the caller has already ruled out `null`/`undefined`, with `undefined` for them otherwise (`v?.key`). */
  function Get(v: Json, key: string): Json
  {
    match v
    case JObj(ms) => Lookup(ms, key)
    case _ => JUndef
  }

  /** `String(v)`. */
  function ToJsString(v: Json): string
  {
    match v
    case JUndef => "undefined"
    case JNull => "null"
    case JBool(b) => if b then "true" else "false"
    case JNum(_, text) => text
    case JStr(s) => s
    case JArr(items) => JoinItems(items)
    case JObj(_) => "[object Object]"
  }

  /** `items.join(',')`, where `null` and `undefined` elements render as the empty string. */
  function JoinItems(items: seq<Json>): string
    decreases items, 0
  {
    if items == [] then ""
    else
      var last := items[|items| - 1];
      var shown := if last.JUndef? || last.JNull? then "" else ToJsString(last);
      if |items| == 1 then shown else JoinItems(items[..|items| - 1]) + "," + shown
  }

  /**
   * `SameValueZero(a, b)`, the comparison `Array.prototype.includes` uses: primitives by value,
   * numbers by their numeric value. Arrays and objects compare by identity, and two values
   * read from separate places of a parsed document are never the same object.
   */
  predicate SameValueZero(a: Json, b: Json)
  {
    if a.JNum? && b.JNum? then a.n == b.n
    else if a.JArr? || a.JObj? || b.JArr? || b.JObj? then false
    else a == b
  }

  /** `items.includes(x)`. */
  predicate ArrayIncludes(items: seq<Json>, x: Json)
  {
    exists i :: 0 <= i < |items| && SameValueZero(items[i], x)
  }

  /** A JavaScript number as the coercions below produce it: finite, infinite or NaN. */
  datatype JsNumber = Finite(x: real) | Infinite(positive: bool) | NaN

  predicate Digits(s: string)
  {
    forall i :: 0 <= i < |s| ==> '0' <= s[i] <= '9'
  }

  function Pow10(n: nat): (p: nat)
    ensures p >= 1
  {
    if n == 0 then 1 else 10 * Pow10(n - 1)
  }

  /** The end of the run of digits starting at `from`. */
  function DigitRun(s: string, from: nat): (k: nat)
    requires from <= |s|
    ensures from <= k <= |s| && Digits(s[from..k]) && (k == |s| || !('0' <= s[k] <= '9'))
    decreases |s| - from
  {
    if from == |s| || !('0' <= s[from] <= '9') then from else DigitRun(s, from + 1)
  }

  /** The number `whole.frac` whose fraction digits take `places` positions. */
  function Fraction(whole: nat, frac: nat, places: nat): (x: real)
    ensures x >= whole as real
  {
    whole as real + frac as real / Pow10(places) as real
  }

  /** `x` times ten to the power `e`. */
  function Scale(x: real, e: int): (r: real)
    ensures x >= 0.0 ==> r >= 0.0
  {
    if e >= 0 then x * Pow10(e) as real else x / Pow10(-e) as real
  }

  /** Ten to the power `a + b` is the product of the two powers. */
  lemma {:induction false} Pow10Add(a: nat, b: nat)
    ensures Pow10(a + b) == Pow10(a) * Pow10(b)
  {
    if b > 0 {
      Pow10Add(a, b - 1);
    }
  }

  /**
   * 2^1024 - 2^970, halfway between the largest finite double (2^1024 - 2^971) and 2^1024:
   * rounding to the nearest double, ties to even, makes every magnitude from here on infinite.
   */
  const OverflowThreshold: nat := 179769313486231580793728971405303415079934132710037826936173778980444968292764750946649017977587207096330286416692887910946555547851940402630657488671505820681908902000708383676273854845817711531764475730270069855571366959622842914819860834936475292719074168444365510704342711559699508093042880177904174497792

  /**
   * 2^1075: a magnitude of at most 1 / 2^1075, half the smallest subnormal double, rounds to
   * zero (the tie goes to the even zero).
   */
  const UnderflowDenominator: nat := 404804506614621236704990693437834614099113299528284236713802716054860679135990693783920767402874248990374155728633623822779617474771586953734026799881477019843034848553132722728933815484186432682479535356945490137124014966849385397236206711298319112681620113024717539104666829230461005064372655017292012526615415482186989568

  /**
   * The double the exact value `x` of a numeric literal rounds to, as far as the range goes:
   * an infinity of its sign from the overflow threshold on, zero at or below half the smallest
   * subnormal, and otherwise the value itself.
   */
  function ToDouble(x: real): (r: JsNumber)
    ensures !r.NaN?
    ensures r.Infinite? <==> x >= OverflowThreshold as real || x <= -(OverflowThreshold as real)
    ensures r.Infinite? ==> r.positive == (x > 0.0)
    ensures r.Finite? ==> r.x == x || r.x == 0.0
    ensures r.Finite? && x != 0.0 ==> (r.x == 0.0 <==> -1.0 <= x * UnderflowDenominator as real <= 1.0)
  {
    if x >= OverflowThreshold as real then Infinite(true)
    else if x <= -(OverflowThreshold as real) then Infinite(false)
    else if -1.0 <= x * UnderflowDenominator as real <= 1.0 then Finite(0.0)
    else Finite(x)
  }

  /** An exponent part: `e` or `E`, an optional sign and at least one digit, read as a whole number. */
  function Exponent(s: string): (r: Option<int>)
  {
    if |s| < 2 || (s[0] != 'e' && s[0] != 'E') then None
    else
      var digits := if s[1] == '-' || s[1] == '+' then s[2..] else s[1..];
      if digits == "" || !Digits(digits) then None
      else if s[1] == '-' then Some(-(Text.DigitsValue(digits) as int))
      else Some(Text.DigitsValue(digits))
  }

  /**
   * The digits, optional point and fraction digits an unsigned decimal literal starts with:
   * their value and where they end, or None without a digit on either side of the point.
   */
  function Mantissa(s: string): (r: Option<(real, nat)>)
    ensures r.Some? ==> r.value.0 >= 0.0 && r.value.1 <= |s|
  {
    var k := DigitRun(s, 0);
    if k < |s| && s[k] == '.' then
      var f := DigitRun(s, k + 1);
      if k == 0 && f == k + 1 then None
      else Some((Fraction(Text.DigitsValue(s[..k]), Text.DigitsValue(s[k + 1..f]), f - k - 1), f))
    else if k == 0 then None
    else Some((Text.DigitsValue(s[..k]) as real, k))
  }

  /** An unsigned decimal literal: a mantissa, then an optional exponent part that scales it. */
  function UnsignedDecimal(s: string): (r: Option<real>)
    ensures r.Some? ==> r.value >= 0.0
  {
    match Mantissa(s)
    case None => None
    case Some((m, f)) =>
      if f == |s| then Some(m)
      else
        match Exponent(s[f..])
        case None => None
        case Some(e) => Some(Scale(m, e))
  }

  /** The value of `c` as a digit of `base` (at most 16), if it is one. */
  function RadixDigit(c: char, base: nat): (r: Option<nat>)
    ensures r.Some? ==> r.value < base
  {
    var d := if '0' <= c <= '9' then c as int - '0' as int
             else if 'a' <= c <= 'f' then c as int - 'a' as int + 10
             else if 'A' <= c <= 'F' then c as int - 'A' as int + 10
             else base;
    if d < base then Some(d) else None
  }

  /** At least one digit of `base`, most significant first: their value. */
  function RadixValue(s: string, base: nat): (r: Option<nat>)
  {
    if s == [] then None
    else
      var d := RadixDigit(s[|s| - 1], base);
      var init := if |s| == 1 then Some(0) else RadixValue(s[..|s| - 1], base);
      if d.None? || init.None? then None else Some(base * init.value + d.value)
  }

  /** The base the letter after a leading `0` selects: `x` hexadecimal, `o` octal, `b` binary. */
  function RadixOf(c: char): (r: Option<nat>)
    ensures r.Some? ==> r.value in {2, 8, 16}
  {
    if c == 'x' || c == 'X' then Some(16)
    else if c == 'o' || c == 'O' then Some(8)
    else if c == 'b' || c == 'B' then Some(2)
    else None
  }

  /**
   * `Number(s)` for a string: surrounding whitespace is ignored, an empty string is 0, a
   * `0x`, `0o` or `0b` literal is read in its base, a sign may precede `Infinity` or a decimal
   * literal, and anything else is NaN. A literal's value is taken to the double range.
   */
  function StringToNumber(s: string): JsNumber
  {
    TrimmedToNumber(Unpadded(s))
  }

  /** `s` with its surrounding whitespace removed one character at a time. */
  function Unpadded(s: string): string
    decreases |s|
  {
    if s != [] && Text.JsSpace(s[0]) then Unpadded(s[1..])
    else if s != [] && Text.JsSpace(s[|s| - 1]) then Unpadded(s[..|s| - 1])
    else s
  }

  /** Removing the whitespace one character at a time is trimming it. */
  lemma {:induction false} UnpaddedIsTrim(s: string)
    ensures Unpadded(s) == Text.Trim(s)
    decreases |s|
  {
    if s != [] && Text.JsSpace(s[0]) {
      UnpaddedIsTrim(s[1..]);
      Text.TrimSkipsFirst(s);
    } else if s != [] && Text.JsSpace(s[|s| - 1]) {
      UnpaddedIsTrim(s[..|s| - 1]);
      Text.TrimSkipsLast(s);
    } else {
      Text.TrimKeeps(s);
    }
  }

  /** `Number` of a string without surrounding whitespace. */
  function TrimmedToNumber(t: string): JsNumber
  {
    if t == "" then Finite(0.0)
    else if |t| > 2 && t[0] == '0' && RadixOf(t[1]).Some? then
      match RadixValue(t[2..], RadixOf(t[1]).value)
      case None => NaN
      case Some(n) => ToDouble(n as real)
    else
      var negative := t[0] == '-';
      var body := if t[0] == '-' || t[0] == '+' then t[1..] else t;
      if body == "Infinity" then Infinite(!negative)
      else
        match UnsignedDecimal(body)
        case None => NaN
        case Some(x) => ToDouble(if negative then -x else x)
  }

  /**
   * `Number(v)`, the coercion relational operators and `Math.max` apply: `undefined` and an
   * object are NaN, `null` is 0, a boolean 0 or 1, and an array converts through its joined
   * text.
   */
  function ToNumber(v: Json): (r: JsNumber)
    ensures v.JNum? ==> r == Finite(v.n)
    ensures v.JBool? ==> r == Finite(if v.b then 1.0 else 0.0)
    ensures v.JUndef? || v.JObj? ==> r == NaN
  {
    match v
    case JUndef => NaN
    case JNull => Finite(0.0)
    case JBool(b) => Finite(if b then 1.0 else 0.0)
    case JNum(n, _) => Finite(n)
    case JStr(s) => StringToNumber(s)
    case JArr(items) => StringToNumber(JoinItems(items))
    case JObj(_) => NaN
  }

  lemma {:induction false} DigitRunToEnd(s: string, from: nat)
    requires from <= |s| && forall i :: from <= i < |s| ==> '0' <= s[i] <= '9'
    ensures DigitRun(s, from) == |s|
    decreases |s| - from
  {
    if from < |s| {
      DigitRunToEnd(s, from + 1);
    }
  }

  /** The run of digits from `from` ends at the first non-digit `k`. */
  lemma {:induction false} DigitRunStops(s: string, from: nat, k: nat)
    requires from <= k < |s| && !('0' <= s[k] <= '9')
    requires forall i :: from <= i < k ==> '0' <= s[i] <= '9'
    ensures DigitRun(s, from) == k
    decreases k - from
  {
    if from < k {
      DigitRunStops(s, from + 1, k);
    }
  }

  /**
   * A string that starts and ends with a digit and has no base prefix has no whitespace to
   * skip and is neither signed nor `Infinity`: it converts as an unsigned decimal literal.
   */
  lemma DigitEndsRead(s: string)
    requires s != "" && '0' <= s[0] <= '9' && '0' <= s[|s| - 1] <= '9'
    requires |s| <= 2 || s[0] != '0' || RadixOf(s[1]).None?
    ensures StringToNumber(s) == match UnsignedDecimal(s) case None => NaN case Some(x) => ToDouble(x)
  {
    assert !Text.JsSpace(s[0]) && !Text.JsSpace(s[|s| - 1]);
    assert s != "Infinity" by {
      assert "Infinity"[0] == 'I';
    }
  }

  /** Digits up to `k`, then the end or a character that is neither a digit nor a point, make the mantissa. */
  lemma WholeMantissa(s: string, k: nat)
    requires 0 < k <= |s| && forall i :: 0 <= i < k ==> '0' <= s[i] <= '9'
    requires k == |s| || (!('0' <= s[k] <= '9') && s[k] != '.')
    ensures Mantissa(s) == Some((Text.DigitsValue(s[..k]) as real, k))
  {
    if k == |s| {
      DigitRunToEnd(s, 0);
    } else {
      DigitRunStops(s, 0, k);
    }
  }

  /** Digits up to `k`, a point and digits to the end make a mantissa that is the decimal fraction. */
  lemma PointMantissa(s: string, k: nat)
    requires 0 < k < |s| - 1 && s[k] == '.'
    requires forall i :: 0 <= i < |s| && i != k ==> '0' <= s[i] <= '9'
    ensures Mantissa(s) == Some((Fraction(Text.DigitsValue(s[..k]), Text.DigitsValue(s[k + 1..]), |s| - k - 1), |s|))
  {
    DigitRunStops(s, 0, k);
    DigitRunToEnd(s, k + 1);
    assert s[k + 1..|s|] == s[k + 1..];
  }

  /** In `w.f` every character but the point is a digit. */
  lemma PointDigits(w: string, f: string)
    requires Digits(w) && Digits(f)
    ensures var s := w + "." + f;
            s[|w|] == '.' && forall i :: 0 <= i < |s| && i != |w| ==> '0' <= s[i] <= '9'
  {
    var s := w + "." + f;
    forall i | 0 <= i < |s| && i != |w| ensures '0' <= s[i] <= '9' {
      if i < |w| {
        assert s[i] == w[i];
      } else {
        assert s[i] == f[i - |w| - 1];
      }
    }
  }

  /** The unsigned literal `w.f` is the decimal fraction it spells. */
  lemma UnsignedFraction(w: string, f: string)
    requires w != "" && Digits(w) && f != "" && Digits(f)
    ensures UnsignedDecimal(w + "." + f)
            == Some(Fraction(Text.DigitsValue(w), Text.DigitsValue(f), |f|))
  {
    var s := w + "." + f;
    PointDigits(w, f);
    PointMantissa(s, |w|);
    assert s[..|w|] == w && s[|w| + 1..] == f;
    MantissaToEnd(s, Fraction(Text.DigitsValue(w), Text.DigitsValue(f), |f|));
  }

  /** A mantissa that runs to the end of the text is the literal's value. */
  lemma MantissaToEnd(s: string, m: real)
    requires Mantissa(s) == Some((m, |s|))
    ensures UnsignedDecimal(s) == Some(m)
  {
  }


  /** `Number(w + "." + f)` for digit strings `w` and `f` is the decimal fraction they spell, taken to the double range. */
  lemma DecimalStringReads(w: string, f: string)
    requires w != "" && Digits(w) && f != "" && Digits(f)
    ensures StringToNumber(w + "." + f)
            == ToDouble(Fraction(Text.DigitsValue(w), Text.DigitsValue(f), |f|))
  {
    var s := w + "." + f;
    assert s[0] == w[0] && s[|s| - 1] == f[|f| - 1];
    assert |s| <= 2 || RadixOf(s[1]).None? by {
      if |w| > 1 {
        assert s[1] == w[1];
      }
    }
    DigitEndsRead(s);
    UnsignedFraction(w, f);
  }

  /** `Number("0.8")` is 0.8. */
  lemma PointEightReads()
    ensures StringToNumber("0.8") == Finite(0.8)
  {
    var s := "0.8";
    assert Mantissa(s) == Some((0.8, 3)) by {
      OneDigitValue('0');
      OneDigitValue('8');
      assert s[..1] == ['0'] && s[2..] == ['8'];
      PointMantissa(s, 1);
      assert Pow10(1) == 10;
    }
    assert s[0] == '0' && s[2] == '8' && RadixOf(s[1]).None?;
    DigitEndsRead(s);
    MantissaToEnd(s, 0.8);
  }


  lemma OneDigitValue(c: char)
    requires '0' <= c <= '9'
    ensures Text.DigitsValue([c]) == c as int - '0' as int
  {
    assert [c][..0] == [];
  }

  /**
   * `Number(d)` of a string of digits is its decimal value taken to the double range, leading
   * zeros included: `"02"` is 2 though it names no array index.
   */
  lemma DigitStringReads(d: string)
    requires d != "" && Digits(d)
    ensures StringToNumber(d) == ToDouble(Text.DigitsValue(d) as real)
  {
    assert |d| <= 2 || RadixOf(d[1]).None? by {
      if |d| > 2 {
        assert '0' <= d[1] <= '9';
      }
    }
    DigitEndsRead(d);
    WholeMantissa(d, |d|);
    assert d[..|d|] == d;
  }

  /** `Number("abc")` is NaN. */
  lemma WordStringIsNaN()
    ensures StringToNumber("abc") == NaN
  {
    var s := "abc";
    assert !Text.JsSpace(s[0]) && !Text.JsSpace(s[|s| - 1]);
    assert DigitRun(s, 0) == 0;
  }

  /**
   * A mantissa `m` ending at `k`, then an exponent part of value `e` that ends in a digit:
   * `Number` reads `m` times ten to the power `e`, taken to the double range.
   */
  lemma ScientificReads(s: string, k: nat, m: real, e: int)
    requires 0 < k < |s| && '0' <= s[0] <= '9' && s[k] in {'e', 'E'} && '0' <= s[|s| - 1] <= '9'
    requires k == 1 || '0' <= s[1] <= '9' || s[1] == '.'
    requires Mantissa(s) == Some((m, k)) && Exponent(s[k..]) == Some(e)
    ensures StringToNumber(s) == ToDouble(Scale(m, e))
  {
    MantissaThenExponent(s, m, k, e);
    assert RadixOf(s[1]).None?;
    DigitEndsRead(s);
  }

  /** A mantissa followed by an exponent part makes the literal's value the mantissa scaled by it. */
  lemma MantissaThenExponent(s: string, m: real, k: nat, e: int)
    requires k < |s| && Mantissa(s) == Some((m, k)) && Exponent(s[k..]) == Some(e)
    ensures UnsignedDecimal(s) == Some(Scale(m, e))
  {
  }

  /** `Number("1e-1")` is 0.1. */
  lemma OneTenthReads()
    ensures StringToNumber("1e-1") == Finite(0.1)
  {
    var s := "1e-1";
    assert Mantissa(s) == Some((1.0, 1)) by {
      OneDigitValue('1');
      assert s[..1] == ['1'];
      WholeMantissa(s, 1);
    }
    assert Exponent(s[1..]) == Some(-1) by {
      OneDigitValue('1');
      assert s[1..] == "e-1" && "e-1"[2..] == ['1'];
    }
    ScientificReads(s, 1, 1.0, -1);
    assert Scale(1.0, -1) == 0.1 by {
      assert Pow10(1) == 10;
    }
  }


  /** `Number("5E2")` is 500. */
  lemma FiveHundredReads()
    ensures StringToNumber("5E2") == Finite(500.0)
  {
    var s := "5E2";
    assert Mantissa(s) == Some((5.0, 1)) by {
      OneDigitValue('5');
      assert s[..1] == ['5'];
      WholeMantissa(s, 1);
    }
    assert Exponent(s[1..]) == Some(2) by {
      OneDigitValue('2');
      assert s[1..] == "E2" && "E2"[1..] == ['2'];
    }
    ScientificReads(s, 1, 5.0, 2);
    assert Scale(5.0, 2) == 500.0 by {
      assert Pow10(2) == 100;
    }
  }


  /** `Number("1e1")` is 10. */
  lemma TenReads()
    ensures StringToNumber("1e1") == Finite(10.0)
  {
    var s := "1e1";
    assert Mantissa(s) == Some((1.0, 1)) by {
      OneDigitValue('1');
      assert s[..1] == ['1'];
      WholeMantissa(s, 1);
    }
    assert Exponent(s[1..]) == Some(1) by {
      OneDigitValue('1');
      assert s[1..] == "e1" && "e1"[1..] == ['1'];
    }
    ScientificReads(s, 1, 1.0, 1);
    assert Scale(1.0, 1) == 10.0 by {
      assert Pow10(1) == 10;
    }
  }


  /** Ten to the power 400 lies past both ends of the double range. */
  lemma Pow10Of400()
    ensures Pow10(400) >= UnderflowDenominator >= OverflowThreshold
  {
    assert Pow10(1) == 10;
    Pow10Add(1, 1);
    assert Pow10(2) == 100;
    Pow10Add(2, 2);
    assert Pow10(4) == 10000;
    Pow10Add(4, 4);
    assert Pow10(8) == 100000000;
    Pow10Add(8, 8);
    assert Pow10(16) == 10000000000000000;
    Pow10Add(16, 16);
    assert Pow10(32) == 100000000000000000000000000000000;
    Pow10Add(32, 32);
    assert Pow10(64) == 10000000000000000000000000000000000000000000000000000000000000000;
    Pow10Add(64, 64);
    assert Pow10(128) == 100000000000000000000000000000000000000000000000000000000000000000000000000000000000000000000000000000000000000000000000000000000;
    Pow10Add(128, 128);
    assert Pow10(256) == 10000000000000000000000000000000000000000000000000000000000000000000000000000000000000000000000000000000000000000000000000000000000000000000000000000000000000000000000000000000000000000000000000000000000000000000000000000000000000000000000000000000000000000;
    Pow10Add(256, 128);
    assert Pow10(384) == 1000000000000000000000000000000000000000000000000000000000000000000000000000000000000000000000000000000000000000000000000000000000000000000000000000000000000000000000000000000000000000000000000000000000000000000000000000000000000000000000000000000000000000000000000000000000000000000000000000000000000000000000000000000000000000000000000000000000000000000000000000000000000000000000000;
    Pow10Add(384, 16);
  }

  /** The exponent part `e400` reads as 400 and `e-400` as -400. */
  lemma Exponent400()
    ensures Exponent("e400") == Some(400) && Exponent("e-400") == Some(-400)
  {
    var d := "400";
    OneDigitValue('4');
    assert d[..2] == "40" && "40"[..1] == ['4'];
    assert Text.DigitsValue("40") == 40;
    assert Text.DigitsValue(d) == 400;
    assert "e400"[1..] == d && "e-400"[2..] == d;
  }

  /** `Number("1e400")` is past the largest double: Infinity. */
  lemma OverflowReads()
    ensures StringToNumber("1e400") == Infinite(true)
  {
    var s := "1e400";
    assert Mantissa(s) == Some((1.0, 1)) by {
      OneDigitValue('1');
      assert s[..1] == ['1'];
      WholeMantissa(s, 1);
    }
    Exponent400();
    assert s[1..] == "e400";
    ScientificReads(s, 1, 1.0, 400);
    Pow10Of400();
  }

  /** `Number("1e-400")` is below half the smallest double: 0. */
  lemma UnderflowReads()
    ensures StringToNumber("1e-400") == Finite(0.0)
  {
    MinusFourHundredReads();
    MinusFourHundredIsZero();
  }

  /** Ten to the power -400 rounds to zero. */
  lemma MinusFourHundredIsZero()
    ensures ToDouble(Scale(1.0, -400)) == Finite(0.0)
  {
    var x := Scale(1.0, -400);
    assert 0.0 < x <= 1.0 && x * UnderflowDenominator as real <= 1.0 by {
      Pow10Of400();
      ReciprocalAtMost(Pow10(400) as real, UnderflowDenominator as real);
    }
    TinyIsZero(x);
  }

  /** `Number("1e-400")` reads one scaled by ten to the power -400. */
  lemma MinusFourHundredReads()
    ensures StringToNumber("1e-400") == ToDouble(Scale(1.0, -400))
  {
    var s := "1e-400";
    assert Mantissa(s) == Some((1.0, 1)) by {
      OneDigitValue('1');
      assert s[..1] == ['1'];
      WholeMantissa(s, 1);
    }
    Exponent400();
    assert s[1..] == "e-400";
    ScientificReads(s, 1, 1.0, -400);
  }

  /** A positive value at most half the smallest subnormal double rounds to zero. */
  lemma TinyIsZero(x: real)
    requires 0.0 < x <= 1.0 && x * UnderflowDenominator as real <= 1.0
    ensures ToDouble(x) == Finite(0.0)
  {
  }

  /** A reciprocal is at most one, and so is its product with a number no larger than its denominator. */
  lemma ReciprocalAtMost(p: real, d: real)
    requires 1.0 <= d <= p
    ensures 0.0 < 1.0 / p <= 1.0 && 1.0 / p * d <= 1.0
  {
  }

  /** The digits after a `0x`, `0o` or `0b` prefix are read in that base, then taken to the double range. */
  lemma RadixLiteralReads(p: char, digits: string)
    requires RadixOf(p).Some? && RadixValue(digits, RadixOf(p).value).Some?
    ensures StringToNumber("0" + [p] + digits) == ToDouble(RadixValue(digits, RadixOf(p).value).value as real)
  {
    var s := "0" + [p] + digits;
    assert RadixDigit(digits[|digits| - 1], RadixOf(p).value).Some?;
    assert s[|s| - 1] == digits[|digits| - 1];
    assert !Text.JsSpace(s[0]) && !Text.JsSpace(s[|s| - 1]);
    assert s[2..] == digits;
  }

  /** A text with a base prefix is no decimal literal: the mantissa `0` is followed by a letter that starts no exponent. */
  lemma PrefixedNotDecimal(s: string)
    requires |s| > 2 && s[0] == '0' && RadixOf(s[1]).Some?
    ensures UnsignedDecimal(s) == None
  {
    DigitRunStops(s, 0, 1);
    assert Mantissa(s) == Some((Text.DigitsValue(s[..1]) as real, 1));
    assert s[1..][0] == s[1];
  }

  /** A sign before a `0x`, `0o` or `0b` literal makes the text NaN. */
  lemma SignedRadixIsNaN(p: char, digits: string)
    requires RadixOf(p).Some? && RadixValue(digits, RadixOf(p).value).Some?
    ensures StringToNumber("-0" + [p] + digits) == NaN
  {
    var t := "-0" + [p] + digits;
    var s := t[1..];
    assert Unpadded(t) == t by {
      assert RadixDigit(digits[|digits| - 1], RadixOf(p).value).Some?;
      assert t[|t| - 1] == digits[|digits| - 1];
      assert !Text.JsSpace(t[0]) && !Text.JsSpace(t[|t| - 1]);
    }
    assert UnsignedDecimal(s) == None by {
      assert s[0] == '0' && s[1] == p;
      PrefixedNotDecimal(s);
    }
    assert t[0] == '-' && s != "Infinity" by {
      assert s[0] == '0' && "Infinity"[0] == 'I';
    }
  }

  /** `Number("0x1F")` is 31 and `Number("0x1")` is 1. */
  lemma HexExamples()
    ensures StringToNumber("0x1F") == Finite(31.0)
    ensures StringToNumber("0x1") == Finite(1.0)
  {
    var d := "1F";
    assert RadixValue(d[..1], 16) == Some(1);
    assert RadixValue(d, 16) == Some(31);
    RadixLiteralReads('x', d);
    assert "0" + ['x'] + d == "0x1F";
    assert RadixValue("1", 16) == Some(1);
    RadixLiteralReads('x', "1");
    assert "0" + ['x'] + "1" == "0x1";
  }

  /** `typeof v === 'number'`. */
  predicate IsNumber(v: Json)
  {
    v.JNum?
  }

  /** Python truthiness of the same values after `json.loads`: `None`, `False`, `0`, `""`, `[]` and `{}` are falsy. */
  predicate PyTruthy(v: Json)
  {
    match v
    case JUndef => false
    case JNull => false
    case JBool(b) => b
    case JNum(n, _) => n != 0.0
    case JStr(s) => s != ""
    case JArr(items) => items != []
    case JObj(ms) => ms != []
  }
}
