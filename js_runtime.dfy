/** The parts of the JavaScript runtime that the modelled code relies on, stated over exact
    integers, reals and strings: `String(n)` of an integer-valued number, `padStart`,
    `toFixed`, `Number(x.toFixed(d))`, the `%` operator, `parseFloat`, `parseInt`, `trim`,
    `replaceAll` and ASCII `toLowerCase`.  Numbers are exact reals: binary floating point,
    NaN and the infinities are not modelled here. */
module JsRuntime {
  import opened Wrappers

  // ---------------------------------------------------------------- decimal digits

  function Pow10(k: nat): (p: nat)
    ensures p >= 1
  {
    if k == 0 then 1 else 10 * Pow10(k - 1)
  }

  predicate IsDigit(c: char) { '0' <= c <= '9' }

  predicate AllDigits(s: string) { forall i :: 0 <= i < |s| ==> IsDigit(s[i]) }

  function DigitChar(d: nat): (c: char)
    requires d < 10
    ensures IsDigit(c) && c as int - '0' as int == d
  {
    ('0' as int + d) as char
  }

  function DigitValue(c: char): nat
    requires IsDigit(c)
  {
    c as int - '0' as int
  }

  /** The decimal digits of `n`, most significant first, without leading zeros. */
  function NatDigits(n: nat): (s: string)
    ensures 1 <= |s| && AllDigits(s)
    ensures |s| > 1 ==> s[0] != '0'
  {
    if n < 10 then [DigitChar(n)] else NatDigits(n / 10) + [DigitChar(n % 10)]
  }

  /** The number a string of decimal digits denotes. */
  function DigitsValue(s: string): nat
    requires AllDigits(s)
  {
    if s == [] then 0 else 10 * DigitsValue(s[..|s| - 1]) + DigitValue(s[|s| - 1])
  }

  lemma {:induction false} NatDigitsRoundTrip(n: nat)
    ensures DigitsValue(NatDigits(n)) == n
  {
    if n >= 10 {
      var s := NatDigits(n);
      assert s[..|s| - 1] == NatDigits(n / 10);
      NatDigitsRoundTrip(n / 10);
    }
  }

  lemma {:induction false} DigitsValueAppend(a: string, b: string)
    requires AllDigits(a) && AllDigits(b)
    ensures AllDigits(a + b)
    ensures DigitsValue(a + b) == DigitsValue(a) * Pow10(|b|) + DigitsValue(b)
  {
    assert forall i :: 0 <= i < |a + b| ==> (a + b)[i] == if i < |a| then a[i] else b[i - |a|];
    if b == [] {
      assert a + b == a;
    } else {
      var ab := a + b;
      var b' := b[..|b| - 1];
      var last := b[|b| - 1];
      assert ab[..|ab| - 1] == a + b';
      assert ab[|ab| - 1] == last;
      DigitsValueAppend(a, b');
      var va, p, vb', d := DigitsValue(a), Pow10(|b'|), DigitsValue(b'), DigitValue(last);
      assert DigitsValue(ab) == 10 * DigitsValue(a + b') + d;
      assert DigitsValue(b) == 10 * vb' + d;
      assert Pow10(|b|) == 10 * p;
      Regroup(va, p, vb', d);
    }
  }

  lemma Regroup(va: int, p: int, vb: int, d: int)
    ensures 10 * (va * p + vb) + d == va * (10 * p) + (10 * vb + d)
  {
  }

  /** `k` copies of the character `c`. */
  function Repeat(c: char, k: nat): (r: string)
    ensures |r| == k && forall i :: 0 <= i < k ==> r[i] == c
  {
    if k == 0 then [] else [c] + Repeat(c, k - 1)
  }

  /** A run of '0' characters. */
  function Zeros(k: nat): (z: string)
    ensures |z| == k && AllDigits(z)
  {
    Repeat('0', k)
  }

  lemma {:induction false} ZerosValue(k: nat)
    ensures DigitsValue(Zeros(k)) == 0
  {
    if k > 0 {
      assert Zeros(k)[..k - 1] == Zeros(k - 1);
      ZerosValue(k - 1);
    }
  }

  /** Leading zeros do not change the value of a digit string. */
  lemma LeadingZerosValue(k: nat, s: string)
    requires AllDigits(s)
    ensures AllDigits(Zeros(k) + s) && DigitsValue(Zeros(k) + s) == DigitsValue(s)
  {
    DigitsValueAppend(Zeros(k), s);
    ZerosValue(k);
  }

  /** `String(n)` for an integer-valued number `n`. */
  function IntToString(n: int): (s: string)
    ensures n >= 0 ==> AllDigits(s)
  {
    if n < 0 then "-" + NatDigits(-n) else NatDigits(n)
  }

  /** A number below 10^k has at most k digits. */
  lemma {:induction false} NatDigitsLength(n: nat, k: nat)
    requires 1 <= k && n < Pow10(k)
    ensures |NatDigits(n)| <= k
  {
    if n >= 10 {
      assert k >= 1 && Pow10(k) == 10 * Pow10(k - 1);
      assert n / 10 < Pow10(k - 1);
      NatDigitsLength(n / 10, k - 1);
    }
  }

  /** `String(n)` writes only digits and, for a negative `n`, one leading minus sign. */
  lemma IntToStringChars(n: int)
    ensures var s := IntToString(n);
      forall i :: 0 <= i < |s| ==> IsDigit(s[i]) || (i == 0 && s[i] == '-' && n < 0)
  {
  }

  /** `s.padStart(width, fill)` for a one-character `fill`. */
  function PadStart(s: string, width: nat, fill: char): (r: string)
    ensures |r| == if |s| < width then width else |s|
    ensures r[|r| - |s|..] == s
    ensures forall i :: 0 <= i < |r| - |s| ==> r[i] == fill
  {
    if width <= |s| then s else Repeat(fill, width - |s|) + s
  }

  /** Zero-padding a natural number's digits keeps its value. */
  lemma PaddedDigitsValue(n: nat, width: nat)
    ensures AllDigits(PadStart(NatDigits(n), width, '0'))
    ensures DigitsValue(PadStart(NatDigits(n), width, '0')) == n
  {
    var d := NatDigits(n);
    var r := PadStart(d, width, '0');
    NatDigitsRoundTrip(n);
    if width > |d| {
      assert r == Zeros(width - |d|) + d;
      LeadingZerosValue(width - |d|, d);
    }
  }

  // ---------------------------------------------------------------- toFixed and rounding

  /** The integer nearest to `x`, the larger one on a tie: the choice `toFixed` makes. */
  function RoundHalfUp(x: real): (n: nat)
    requires x >= 0.0
    ensures n as real - 0.5 <= x < n as real + 0.5
  {
    (x + 0.5).Floor
  }

  /** The digits `toFixed` produces for a non-negative `x`: at least one integer digit,
      then, when `f > 0`, a point and exactly `f` fraction digits.  They depend on `x` only
      through `x` rounded to a whole number of 10^-f units. */
  function FixedDigits(x: real, f: nat): (s: string)
    requires x >= 0.0
  {
    ScaledDigits(Units(x, f), f)
  }

  /** The whole number of 10^-f units `toFixed(f)` rounds a non-negative `x` to. */
  function Units(x: real, f: nat): nat
    requires x >= 0.0
  {
    RoundHalfUp(x * Pow10(f) as real)
  }

  /** The decimal text of `n` units of 10^-f: `n`'s digits, zero-padded to `f + 1` places,
      with a point before the last `f`. */
  function ScaledDigits(n: nat, f: nat): (s: string)
  {
    var m := NatDigits(n);
    if f == 0 then m
    else
      var k := PadStart(m, f + 1, '0');
      k[..|k| - f] + "." + k[|k| - f..]
  }

  /** `x.toFixed(f)` in fixed-point form, as JavaScript prints it for `|x| < 1e21`: a minus
      sign exactly when `x < 0`. The exponent form printed from 1e21 up is not modelled. */
  function ToFixed(x: real, f: nat): (s: string)
  {
    if x < 0.0 then "-" + FixedDigits(-x, f) else FixedDigits(x, f)
  }

  /** `toFixed` of a non-negative number writes digits and at most a point: it starts with a
      digit and holds no sign. */
  lemma FixedDigitsChars(x: real, f: nat)
    requires x >= 0.0
    ensures var s := FixedDigits(x, f);
      |s| >= 1 && IsDigit(s[0]) && forall i :: 0 <= i < |s| ==> IsDigit(s[i]) || s[i] == '.'
  {
    ScaledDigitsChars(Units(x, f), f);
  }

  lemma ScaledDigitsChars(n: nat, f: nat)
    ensures var s := ScaledDigits(n, f);
      |s| >= 1 && IsDigit(s[0]) && forall i :: 0 <= i < |s| ==> IsDigit(s[i]) || s[i] == '.'
  {
    var m := NatDigits(n);
    if f > 0 {
      var k := PadStart(m, f + 1, '0');
      assert AllDigits(k) by {
        forall i | 0 <= i < |k| ensures IsDigit(k[i]) {
          if i < |k| - |m| {
            assert k[i] == '0';
          } else {
            assert k[i] == m[i - (|k| - |m|)];
          }
        }
      }
      PointedDigits(k[..|k| - f], k[|k| - f..]);
    }
  }

  /** Digits, a point and digits: at least one character, a digit first, only digits and
      the point. */
  lemma PointedDigits(a: string, b: string)
    requires a != [] && AllDigits(a) && AllDigits(b)
    ensures var s := a + "." + b;
      |s| >= 1 && IsDigit(s[0]) && forall i :: 0 <= i < |s| ==> IsDigit(s[i]) || s[i] == '.'
  {
    var s := a + "." + b;
    forall i | 0 <= i < |s| ensures IsDigit(s[i]) || s[i] == '.' {
      if i < |a| {
        assert s[i] == a[i];
      } else if i > |a| {
        assert s[i] == b[i - |a| - 1];
      }
    }
  }

  /** The characters a number's decimal text is made of: digits, a point and a minus sign. */
  predicate NumberText(s: string) {
    forall i :: 0 <= i < |s| ==> IsDigit(s[i]) || s[i] == '.' || s[i] == '-'
  }

  /** No character other than a digit, a point or a minus sign occurs in number text. */
  lemma NotInNumberText(c: char, s: string)
    requires NumberText(s) && !IsDigit(c) && c != '.' && c != '-'
    ensures c !in s
  {
  }

  /** No character other than a digit occurs in a digit string. */
  lemma NotInDigits(c: char, s: string)
    requires AllDigits(s) && !IsDigit(c)
    ensures c !in s
  {
  }

  /** When the rounded count of 10^-f units has more than `f` digits, `toFixed` is those
      digits with a point before the last `f`: no padding is needed. */
  lemma FixedDigitsFrom(x: real, f: nat, n: nat, digits: string)
    requires x >= 0.0 && 0 < f < |digits|
    requires Units(x, f) == n && NatDigits(n) == digits
    ensures FixedDigits(x, f) == digits[..|digits| - f] + "." + digits[|digits| - f..]
  {
    assert PadStart(digits, f + 1, '0') == digits;
  }

  /** `toFixed` writes a minus sign exactly for negative numbers, and then only in front. */
  lemma ToFixedSign(x: real, f: nat)
    ensures |ToFixed(x, f)| >= 1 && NumberText(ToFixed(x, f))
    ensures '-' in ToFixed(x, f) <==> x < 0.0
    ensures ToFixed(x, f)[0] == '-' <==> x < 0.0
  {
    var a := if x < 0.0 then -x else x;
    FixedDigitsChars(a, f);
    var d := FixedDigits(a, f);
    assert '-' !in d by {
      forall i | 0 <= i < |d| ensures d[i] != '-' { assert IsDigit(d[i]) || d[i] == '.'; }
    }
    if x < 0.0 { assert ToFixed(x, f) == "-" + d; }
  }

  /** `Number(x.toFixed(d))` counted in units of 10^-d: `x` rounded to `d` decimals, ties
      away from zero.  The emitted number is this count divided by 10^d, and two such numbers
      are equal exactly when their counts are. */
  function ScaledRound(x: real, d: nat): (n: int)
    ensures x * Pow10(d) as real - 0.5 <= n as real <= x * Pow10(d) as real + 0.5
    ensures (n < 0) == (x * Pow10(d) as real <= -0.5)
  {
    // toFixed writes a minus sign and formats -x; with 10^d > 0, x < 0 exactly when x * 10^d < 0
    var v := x * Pow10(d) as real;
    if v < 0.0 then -(RoundHalfUp(-v) as int) else RoundHalfUp(v)
  }

  /** Rounding a value that is already a whole number of units gives that number back. */
  lemma ScaledRoundExact(n: int, d: nat)
    ensures ScaledRound(n as real / Pow10(d) as real, d) == n
  {
    var p := Pow10(d) as real;
    assert n as real / p * p == n as real;
  }

  // ---------------------------------------------------------------- the % operator

  /** `x % y` on numbers: the remainder has the sign of the dividend and the magnitude of
      `|x|` modulo `y`. */
  function Rem(x: real, y: real): (r: real)
    requires y > 0.0
    ensures x >= 0.0 ==> 0.0 <= r < y
    ensures x < 0.0 ==> -y < r <= 0.0
  {
    var a := if x >= 0.0 then x else -x;
    FloorDiv(a, y);
    var m := a - (a / y).Floor as real * y;
    if x >= 0.0 then m else -m
  }

  lemma MulMonotone(a: real, b: real, y: real)
    requires a <= b && y > 0.0
    ensures a * y <= b * y
  {
    var d := b - a;
    assert b * y == a * y + d * y;
    assert d * y >= 0.0;
  }

  lemma MulStrict(a: real, b: real, y: real)
    requires a < b && y > 0.0
    ensures a * y < b * y
  {
    var d := b - a;
    assert b * y == a * y + d * y;
    assert d * y > 0.0;
  }

  /** The floor of a quotient times the divisor lies within one divisor below the dividend. */
  lemma FloorDiv(x: real, y: real)
    requires y > 0.0
    ensures var k := (x / y).Floor as real; k * y <= x < k * y + y
  {
    var q := x / y;
    assert q * y == x;
    StepBelow(q, y, x, q.Floor as real);
    StepAbove(q, y, x, q.Floor as real);
  }

  /** For `x == q * y` with `y > 0` and `k <= q`: `k * y <= x`. */
  lemma StepBelow(q: real, y: real, x: real, k: real)
    requires y > 0.0 && q * y == x && k <= q
    ensures k * y <= x
  {
    MulMonotone(k, q, y);
  }

  /** For `x == q * y` with `y > 0` and `q < k + 1`: `x < k * y + y`. */
  lemma StepAbove(q: real, y: real, x: real, k: real)
    requires y > 0.0 && q * y == x && q < k + 1.0
    ensures x < k * y + y
  {
    MulStrict(q, k + 1.0, y);
    assert (k + 1.0) * y == k * y + y;
  }

  /** Adding whole periods to a non-negative dividend does not change the remainder. */
  lemma RemPeriodic(x: real, y: real, k: nat)
    requires y > 0.0 && x >= 0.0
    ensures Rem(x + k as real * y, y) == Rem(x, y)
  {
    var t := (x / y).Floor;
    assert (x + k as real * y) / y == x / y + k as real;
    assert ((x + k as real * y) / y).Floor == t + k;
  }

  /** `a % b` on integer-valued numbers. */
  function RemInt(a: int, b: int): (r: int)
    requires b > 0
    ensures a >= 0 ==> 0 <= r < b && r == a % b
    ensures a < 0 ==> -b < r <= 0 && r == -((-a) % b)
  {
    if a >= 0 then a % b else -((-a) % b)
  }

  // ---------------------------------------------------------------- whitespace and trim

  /** ECMAScript WhiteSpace and LineTerminator code points: what `trim` removes and what
      `parseInt`/`parseFloat` skip at the start. */
  predicate IsSpace(c: char) {
    c == '\t' || c == '\n' || c == '\U{B}' || c == '\U{C}' || c == '\r' || c == ' '
    || c == '\U{A0}' || c == '\U{1680}' || ('\U{2000}' <= c <= '\U{200A}')
    || c == '\U{2028}' || c == '\U{2029}' || c == '\U{202F}' || c == '\U{205F}'
    || c == '\U{3000}' || c == '\U{FEFF}'
  }

  function TrimStart(s: string): (r: string)
    ensures |r| <= |s| && r == s[|s| - |r|..]
    ensures r == [] || !IsSpace(r[0])
    ensures forall i :: 0 <= i < |s| - |r| ==> IsSpace(s[i])
  {
    if s != [] && IsSpace(s[0]) then TrimStart(s[1..]) else s
  }

  function TrimEnd(s: string): (r: string)
    ensures |r| <= |s| && r == s[..|r|]
    ensures r == [] || !IsSpace(r[|r| - 1])
    ensures forall i :: |r| <= i < |s| ==> IsSpace(s[i])
  {
    if s != [] && IsSpace(s[|s| - 1]) then TrimEnd(s[..|s| - 1]) else s
  }

  /** `s.trim()`. */
  function Trim(s: string): string {
    TrimEnd(TrimStart(s))
  }

  /** Trimming twice is trimming once. */
  lemma TrimIdempotent(s: string)
    ensures Trim(Trim(s)) == Trim(s)
  {
    var r := Trim(s);
    if r != [] {
      assert r[0] == TrimStart(s)[0];
    }
    assert TrimStart(r) == r;
  }

  /** A string that neither starts nor ends with white space is its own trim. */
  lemma TrimUnspaced(s: string)
    requires s != [] ==> !IsSpace(s[0]) && !IsSpace(s[|s| - 1])
    ensures Trim(s) == s
  {
    assert TrimStart(s) == s;
  }

  // ---------------------------------------------------------------- parseFloat and parseInt

  /** The longest prefix of `s` made of decimal digits. */
  function DigitPrefix(s: string): (d: string)
    ensures AllDigits(d) && d <= s
    ensures |d| == |s| || !IsDigit(s[|d|])
  {
    if s != [] && IsDigit(s[0]) then [s[0]] + DigitPrefix(s[1..]) else []
  }

  predicate IsHexDigit(c: char) {
    IsDigit(c) || 'a' <= c <= 'f' || 'A' <= c <= 'F'
  }

  function HexPrefix(s: string): (h: string)
    ensures h <= s && forall i :: 0 <= i < |h| ==> IsHexDigit(h[i])
  {
    if s != [] && IsHexDigit(s[0]) then [s[0]] + HexPrefix(s[1..]) else []
  }

  function HexValue(s: string): nat
    requires forall i :: 0 <= i < |s| ==> IsHexDigit(s[i])
  {
    if s == [] then 0
    else
      var c := s[|s| - 1];
      assert IsHexDigit(c);
      var d: nat := if IsDigit(c) then DigitValue(c)
               else if 'a' <= c <= 'f' then c as int - 'a' as int + 10
               else c as int - 'A' as int + 10;
      16 * HexValue(s[..|s| - 1]) + d
  }

  /** `s` with one leading '+' or '-' removed, and the sign it stood for. */
  function SplitSign(s: string): (int, string) {
    if s != [] && s[0] == '-' then (-1, s[1..])
    else if s != [] && s[0] == '+' then (1, s[1..])
    else (1, s)
  }

  /** `parseInt(s)` with no radix: `None` is NaN. */
  function ParseInt(s: string): Option<int> {
    var (sign, u) := SplitSign(TrimStart(s));
    if |u| >= 2 && u[0] == '0' && (u[1] == 'x' || u[1] == 'X') then
      var h := HexPrefix(u[2..]);
      if h == [] then None else Some(sign * HexValue(h))
    else
      var d := DigitPrefix(u);
      if d == [] then None else Some(sign * DigitsValue(d))
  }

  /** A single letter is not a number. */
  lemma ParseIntLetter(c: char)
    requires 'a' <= c <= 'z' || 'A' <= c <= 'Z'
    ensures ParseInt([c]) == None
  {
    assert !IsSpace(c);
    assert TrimStart([c]) == [c];
    assert DigitPrefix([c]) == [];
  }

  /** `parseInt` reads back what `String` writes for an integer. */
  lemma ParseIntRoundTrip(n: int)
    ensures ParseInt(IntToString(n)) == Some(n)
  {
    var m := if n < 0 then -n else n;
    var d := NatDigits(m);
    var s := IntToString(n);
    assert IsDigit(d[0]);
    assert s[0] == if n < 0 then '-' else d[0];
    assert TrimStart(s) == s by {
      assert !IsSpace(s[0]);
    }
    assert SplitSign(s) == (if n < 0 then -1 else 1, d) by {
      if n < 0 {
        assert s[1..] == d;
      }
    }
    assert !(|d| >= 2 && d[0] == '0');
    DigitPrefixOfDigits(d);
    NatDigitsRoundTrip(m);
  }

  lemma {:induction false} DigitPrefixOfDigits(d: string)
    requires AllDigits(d)
    ensures DigitPrefix(d) == d
  {
    if d != [] {
      DigitPrefixOfDigits(d[1..]);
    }
  }

  /** The value of the exponent part `e[+|-]digits` at the start of `s`, or 0 when there is none. */
  function ExponentPart(s: string): int {
    if |s| >= 1 && (s[0] == 'e' || s[0] == 'E') then
      var (sign, u) := SplitSign(s[1..]);
      var d := DigitPrefix(u);
      if d == [] then 0 else sign * DigitsValue(d)
    else 0
  }

  function ScaleByPow10(x: real, e: int): real {
    if e >= 0 then x * Pow10(e) as real else x / Pow10(-e) as real
  }

  /** `parseFloat(s)` when its result is finite; `None` stands for NaN and for the literal
      `Infinity` (signed or not). */
  function ParseFloat(s: string): (r: Option<real>)
  {
    var (sign, u) := SplitSign(TrimStart(s));
    if |u| >= 8 && u[..8] == "Infinity" then None
    else
      var whole := DigitPrefix(u);
      var rest := u[|whole|..];
      var hasPoint := rest != [] && rest[0] == '.';
      var frac := if hasPoint then DigitPrefix(rest[1..]) else [];
      if whole == [] && frac == [] then None
      else
        var tail := if hasPoint then rest[1 + |frac|..] else rest;
        DigitsValueAppend(whole, frac);
        var mantissa := DigitsValue(whole + frac) as real / Pow10(|frac|) as real;
        Some(sign as real * ScaleByPow10(mantissa, ExponentPart(tail)))
  }

  /** A string that starts with neither white space, a sign, a digit nor a point is not a
      finite number: NaN, or Infinity for text starting with `Infinity`. */
  lemma ParseFloatNonNumeric(s: string)
    requires s != [] && !IsSpace(s[0]) && !IsDigit(s[0]) && s[0] != '-' && s[0] != '+' && s[0] != '.'
    ensures ParseFloat(s) == None
  {
    assert TrimStart(s) == s;
    assert SplitSign(s) == (1, s);
    assert DigitPrefix(s) == [];
  }

  // ---------------------------------------------------------------- replaceAll, toLowerCase

  /** `s.replaceAll(pattern, replacement)` for a non-empty string pattern and a replacement
      without `$` patterns: occurrences are replaced left to right without overlapping. */
  function ReplaceAll(s: string, pattern: string, replacement: string): (r: string)
    requires pattern != []
    decreases |s|
  {
    if |s| < |pattern| then s
    else if s[..|pattern|] == pattern then replacement + ReplaceAll(s[|pattern|..], pattern, replacement)
    else [s[0]] + ReplaceAll(s[1..], pattern, replacement)
  }

  predicate OccursAt(pattern: string, s: string, i: int) {
    0 <= i <= |s| - |pattern| && s[i..i + |pattern|] == pattern
  }

  ghost predicate Occurs(pattern: string, s: string) {
    exists i :: OccursAt(pattern, s, i)
  }

  lemma OccursInTail(pattern: string, s: string)
    requires s != []
    ensures Occurs(pattern, s[1..]) ==> Occurs(pattern, s)
  {
    if Occurs(pattern, s[1..]) {
      var i :| OccursAt(pattern, s[1..], i);
      assert s[1..][i..i + |pattern|] == s[i + 1..i + 1 + |pattern|];
      assert OccursAt(pattern, s, i + 1);
    }
  }

  /** A string without the pattern is returned unchanged. */
  lemma {:induction false} ReplaceAllAbsent(s: string, pattern: string, replacement: string)
    requires pattern != [] && !Occurs(pattern, s)
    ensures ReplaceAll(s, pattern, replacement) == s
  {
    if |s| >= |pattern| {
      assert !OccursAt(pattern, s, 0);
      OccursInTail(pattern, s);
      ReplaceAllAbsent(s[1..], pattern, replacement);
    }
  }

  /** `s.toLowerCase()` on ASCII letters; other characters are kept. */
  function ToLowerAscii(s: string): (r: string)
    ensures |r| == |s|
    ensures forall i :: 0 <= i < |s| ==> r[i] == if 'A' <= s[i] <= 'Z' then (s[i] as int + 32) as char else s[i]
  {
    if s == [] then [] else
      var c := s[0];
      [if 'A' <= c <= 'Z' then (c as int + 32) as char else c] + ToLowerAscii(s[1..])
  }

  /** `xs.indexOf(x)`: the first position of `x`, or -1. */
  function IndexOf<T(==)>(xs: seq<T>, x: T): (i: int)
    ensures -1 <= i < |xs|
    ensures i == -1 <==> x !in xs
    ensures i >= 0 ==> xs[i] == x && x !in xs[..i]
  {
    if xs == [] then -1
    else if xs[0] == x then 0
    else
      var j := IndexOf(xs[1..], x);
      if j == -1 then -1 else j + 1
  }
}
