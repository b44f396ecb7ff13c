/** The project key of a working directory (claude-agent-sdk/src/session_store.rs:153-201):
    a mapped path, cut and completed with a signed 32-bit hash when it is long. */
module ProjectKey {
  import opened SessionPaths

  // ---- UTF-16 ----

  type Unit = u: nat | u < 0x10000

  function UnitsOf(c: char): (units: seq<Unit>)
    ensures 1 <= |units| <= 2
  {
    var code := c as int;
    if code < 0x10000 then [code] else [0xD800 + (code - 0x10000) / 0x400, 0xDC00 + (code - 0x10000) % 0x400]
  }

  function EncodeUtf16(text: string): (units: seq<Unit>)
    ensures |units| >= |text|
  {
    if text == [] then [] else UnitsOf(text[0]) + EncodeUtf16(text[1..])
  }

  // ---- Mapped characters ----

  predicate Alphanumeric(u: Unit) {
    '0' as int <= u <= '9' as int || 'A' as int <= u <= 'Z' as int || 'a' as int <= u <= 'z' as int
  }

  function KeyChar(u: Unit): char {
    if Alphanumeric(u) then u as char else '-'
  }

  predicate KeySafe(c: char) {
    '0' <= c <= '9' || 'A' <= c <= 'Z' || 'a' <= c <= 'z' || c == '-'
  }

  method MapUnits(units: seq<Unit>) returns (mapped: string)
    ensures |mapped| == |units| && forall i :: 0 <= i < |units| ==> mapped[i] == KeyChar(units[i])
  {
    mapped := [];
    for i := 0 to |units|
      invariant |mapped| == i && forall j :: 0 <= j < i ==> mapped[j] == KeyChar(units[j])
    {
      mapped := mapped + [KeyChar(units[i])];
    }
  }

  // ---- The hash ----

  const MODULUS := 0x1_0000_0000

  /** The 32-bit two's complement value congruent to `x`. */
  function Signed32(x: int): (r: int)
    ensures -0x8000_0000 <= r < 0x8000_0000
  {
    var low := x % MODULUS;
    if low < 0x8000_0000 then low else low - MODULUS
  }

  function Pow(base: nat, n: nat): nat {
    if n == 0 then 1 else base * Pow(base, n - 1)
  }

  /** The polynomial in 31 with the units as coefficients, the first one of highest degree. */
  function Polynomial(units: seq<Unit>): nat {
    if units == [] then 0 else units[0] * Pow(31, |units| - 1) + Polynomial(units[1..])
  }

  lemma {:induction false} HornerStep(units: seq<Unit>, u: Unit)
    ensures Polynomial(units + [u]) == Polynomial(units) * 31 + u
  {
    if units == [] {
      assert ([u])[1..] == [] && Pow(31, 0) == 1;
      assert units + [u] == [u];
    } else {
      HornerStep(units[1..], u);
      var n := |units|;
      assert (units + [u])[1..] == units[1..] + [u];
      assert units[0] * Pow(31, n) == units[0] * Pow(31, n - 1) * 31 by {
        Regroup(units[0], Pow(31, n - 1), 31);
      }
    }
  }

  lemma Regroup(a: int, b: int, c: int)
    ensures a * (c * b) == a * b * c
  {
  }

  /** Wrapping after each operation is wrapping once at the end. */
  lemma WrapStep(a: int, u: int)
    ensures Signed32(Signed32(Signed32(a) * 31) + u) == Signed32(a * 31 + u)
  {
  }

  method HashUnits(units: seq<Unit>) returns (hash: int)
    ensures hash == Signed32(Polynomial(units))
  {
    hash := 0;
    for i := 0 to |units|
      invariant hash == Signed32(Polynomial(units[..i]))
    {
      HornerStep(units[..i], units[i]);
      WrapStep(Polynomial(units[..i]), units[i]);
      assert units[..i + 1] == units[..i] + [units[i]];
      hash := Signed32(Signed32(hash * 31) + units[i]);
    }
    assert units[..|units|] == units;
  }

  // ---- Base 36 ----

  function DigitChar(d: nat): (c: char)
    requires d < 36
    ensures IsDigit(c) && DigitValue(c) == d
  {
    if d < 10 then ('0' as int + d) as char else ('a' as int + d - 10) as char
  }

  predicate IsDigit(c: char) {
    '0' <= c <= '9' || 'a' <= c <= 'z'
  }

  function DigitValue(c: char): (d: nat)
    requires IsDigit(c)
    ensures d < 36
  {
    if c <= '9' then c as int - '0' as int else c as int - 'a' as int + 10
  }

  predicate IsNumeral(s: string) {
    forall c :: c in s ==> IsDigit(c)
  }

  /** Base-36 parsing. */
  function Parse36(s: string): nat
    requires IsNumeral(s)
  {
    if s == [] then 0
    else
      assert s[|s| - 1] in s && forall c :: c in s[..|s| - 1] ==> c in s;
      Parse36(s[..|s| - 1]) * 36 + DigitValue(s[|s| - 1])
  }

  /** Digits, at least one, and no zero in front of another digit. */
  predicate Canonical(s: string) {
    IsNumeral(s) && s != [] && (|s| > 1 ==> s[0] != '0')
  }

  lemma {:induction false} ParseFront(d: char, s: string)
    requires IsDigit(d) && IsNumeral(s)
    ensures IsNumeral([d] + s)
    ensures Parse36([d] + s) == DigitValue(d) * Pow(36, |s|) + Parse36(s)
  {
    var t := [d] + s;
    assert forall c :: c in t ==> c == d || c in s;
    if s == [] {
      assert t[..0] == [] && Pow(36, 0) == 1;
    } else {
      var n := |s| - 1;
      assert s[n] in s && forall c :: c in s[..n] ==> c in s;
      ParseFront(d, s[..n]);
      assert t[..n + 1] == [d] + s[..n] && t[n + 1] == s[n];
      Regroup(DigitValue(d), Pow(36, n), 36);
    }
  }

  function Reversed(s: string): (r: string)
    ensures |r| == |s| && forall i :: 0 <= i < |s| ==> r[i] == s[|s| - 1 - i]
  {
    if s == [] then [] else Reversed(s[1..]) + [s[0]]
  }

  method Base36(value: nat) returns (numeral: string)
    ensures Canonical(numeral) && Parse36(numeral) == value
  {
    if value == 0 {
      assert Parse36("0"[..0]) == 0;
      return "0";
    }
    var rest, out := value, [];
    assert Reversed([]) == [] && Pow(36, 0) == 1;
    while rest > 0
      invariant DigitsOf(value, rest, out)
      invariant out == [] ==> rest > 0
      invariant rest == 0 ==> out[|out| - 1] != '0'
    {
      OneDigit(value, rest, out);
      out := out + [DigitChar(rest % 36)];
      rest := rest / 36;
    }
    numeral := Reversed(out);
    assert 0 * Pow(36, |out|) == 0;
  }

  /** `out` holds the low digits of `value`, the lowest first, and `rest` the part above them. */
  ghost predicate DigitsOf(value: nat, rest: nat, out: string) {
    IsNumeral(Reversed(out)) && rest * Pow(36, |out|) + Parse36(Reversed(out)) == value
  }

  lemma OneDigit(value: nat, rest: nat, out: string)
    requires DigitsOf(value, rest, out)
    ensures DigitsOf(value, rest / 36, out + [DigitChar(rest % 36)])
  {
    var low, digit := Reversed(out), DigitChar(rest % 36);
    ReversedLast(out, digit);
    ParseFront(digit, low);
    DigitMoves(rest, Pow(36, |low|));
  }

  lemma {:induction false} ReversedLast(s: string, c: char)
    ensures Reversed(s + [c]) == [c] + Reversed(s)
  {
  }

  lemma DigitMoves(rest: nat, power: nat)
    ensures rest / 36 * (36 * power) + rest % 36 * power == rest * power
  {
    assert rest == rest / 36 * 36 + rest % 36;
    Regroup(rest / 36, power, 36);
    assert rest / 36 * 36 * power == rest / 36 * (36 * power) by {
      Associate(rest / 36, 36, power);
    }
  }

  lemma Associate(a: int, b: int, c: int)
    ensures a * b * c == a * (b * c)
  {
  }

  /** Every digit but the last shifts the value by 36. */
  lemma {:induction false} NumeralAtLeast(s: string)
    requires Canonical(s)
    ensures |s| > 1 ==> Parse36(s) >= Pow(36, |s| - 1)
    ensures |s| > 1 ==> Canonical(s[..|s| - 1]) && Parse36(s[..|s| - 1]) > 0
  {
    if |s| > 1 {
      var n := |s| - 1;
      var front := s[..n];
      assert forall c :: c in front ==> c in s;
      assert front[0] == s[0] && s[0] in s;
      if n == 1 {
        assert Pow(36, 1) == 36 * Pow(36, 0) == 36;
        assert front[..0] == [] && Parse36(front) == DigitValue(s[0]);
      } else {
        NumeralAtLeast(front);
        assert Pow(36, n) == 36 * Pow(36, n - 1);
      }
    }
  }

  /** A number has one canonical numeral. */
  lemma {:induction false} NumeralsAreUnique(s: string, t: string)
    requires Canonical(s) && Canonical(t) && Parse36(s) == Parse36(t)
    ensures s == t
    decreases |s|
  {
    NumeralAtLeast(s);
    NumeralAtLeast(t);
    var a, b := s[|s| - 1], t[|t| - 1];
    assert a in s && b in t;
    assert forall c :: c in s[..|s| - 1] ==> c in s;
    assert forall c :: c in t[..|t| - 1] ==> c in t;
    var high, low := Parse36(s[..|s| - 1]), Parse36(t[..|t| - 1]);
    assert a == b;
    if |s| > 1 && |t| > 1 {
      NumeralsAreUnique(s[..|s| - 1], t[..|t| - 1]);
    } else {
      assert |s| == 1 ==> s[..0] == [];
      assert |t| == 1 ==> t[..0] == [];
    }
    assert s == s[..|s| - 1] + [a] && t == t[..|t| - 1] + [b];
  }

  lemma SixDigits(s: string)
    requires Canonical(s) && Parse36(s) <= 0x8000_0000
    ensures |s| <= 6
  {
    NumeralAtLeast(s);
    assert Pow(36, 6) == 36 * (36 * (36 * (36 * (36 * (36 * Pow(36, 0))))));
    if |s| > 6 {
      PowGrows(6, |s| - 1);
    }
  }

  lemma {:induction false} PowGrows(m: nat, n: nat)
    requires m <= n
    ensures 0 < Pow(36, m) <= Pow(36, n)
    decreases n
  {
    if m < n {
      PowGrows(m, n - 1);
    } else if n > 0 {
      PowGrows(n - 1, n - 1);
    }
  }

  // ---- The key ----

  function Abs(x: int): nat {
    if x < 0 then -x else x
  }

  /** The mapped text when it is short; otherwise its first 200 characters, a dash, and the
      magnitude of the hash in base 36. */
  ghost predicate IsProjectKey(text: string, key: string) {
    var units := EncodeUtf16(text);
    if |units| <= 200 then
      |key| == |units| && forall i :: 0 <= i < |key| ==> key[i] == KeyChar(units[i])
    else
      && |key| > 201 && key[200] == '-'
      && (forall i :: 0 <= i < 200 ==> key[i] == KeyChar(units[i]))
      && Canonical(key[201..]) && Parse36(key[201..]) == Abs(Signed32(Polynomial(units)))
  }

  method SessionProjectKey(text: string) returns (key: string)
    ensures IsProjectKey(text, key)
  {
    var units := EncodeUtf16(text);
    var mapped := MapUnits(units);
    if |mapped| <= 200 {
      return mapped;
    }
    var hash := HashUnits(units);
    var numeral := Base36(Abs(hash));
    key := mapped[..200] + "-" + numeral;
    assert key[201..] == numeral && key[..200] == mapped[..200];
  }

  /** The key is safe as a path segment for every text but the empty one, and short. */
  lemma ProjectKeyIsASegment(text: string, key: string)
    requires IsProjectKey(text, key)
    ensures |key| <= 207 && forall c :: c in key ==> KeySafe(c)
    ensures ValidSegment(key) <==> text != ""
  {
    var units := EncodeUtf16(text);
    if |units| > 200 {
      SixDigits(key[201..]);
      forall i | 201 <= i < |key|
        ensures KeySafe(key[i])
      {
        assert key[201..][i - 201] == key[i] && key[i] in key[201..];
      }
    }
    assert forall i :: 0 <= i < |key| ==> KeySafe(key[i]);
    assert !KeySafe('.') && !KeySafe('/') && !KeySafe('\\') && !KeySafe('\0');
    assert '.' in "." && '.' in "..";
  }

  lemma {:induction false} PlainUnits(text: string)
    requires forall c :: c in text ==> c as int < 0x10000
    ensures var units := EncodeUtf16(text); |units| == |text| && forall i :: 0 <= i < |text| ==> units[i] == text[i] as int
  {
    if text != [] {
      assert text[0] in text && forall c :: c in text[1..] ==> c in text;
      PlainUnits(text[1..]);
      assert EncodeUtf16(text) == [text[0] as int] + EncodeUtf16(text[1..]);
    }
  }

  /** Of a text whose characters take one unit each, the first 200 ASCII letters and digits stand in
      the key as they are, upper case included, and every other character as a dash. */
  lemma LettersStay(text: string, key: string, i: nat)
    requires IsProjectKey(text, key) && (forall c :: c in text ==> c as int < 0x10000) && i < |text| && i < 200
    ensures i < |key|
    ensures key[i] == if '0' <= text[i] <= '9' || 'A' <= text[i] <= 'Z' || 'a' <= text[i] <= 'z' then text[i] else '-'
  {
    PlainUnits(text);
    assert text[i] in text;
  }

  /** A text has exactly one project key. */
  lemma ProjectKeyIsUnique(text: string, a: string, b: string)
    requires IsProjectKey(text, a) && IsProjectKey(text, b)
    ensures a == b
  {
    if |EncodeUtf16(text)| > 200 {
      NumeralsAreUnique(a[201..], b[201..]);
      assert a == a[..200] + ['-'] + a[201..] && b == b[..200] + ['-'] + b[201..];
      assert a[..200] == b[..200];
    }
  }
}
