/** The few JavaScript string primitives the core relies on, over Dafny strings
    (sequences of Unicode scalar values): the `\s` / `trim()` whitespace class,
    `includes`, ASCII digits (`\d` without the `u` flag), `Number.prototype.toString`
    on naturals and `parseFloat` on strings made of digits, signs and dots. */
module JsText {
  import opened Wrappers
  import opened Seqs

  /** ECMAScript WhiteSpace and LineTerminator code points: the set that `\s`
      matches and that `String.prototype.trim` removes. */
  predicate IsWhitespace(c: char) {
    c == '\t' || c == '\n' || c == '\U{B}' || c == '\U{C}' || c == '\r' || c == ' '
    || c == '\U{A0}' || c == '\U{1680}' || ('\U{2000}' <= c <= '\U{200A}')
    || c == '\U{2028}' || c == '\U{2029}' || c == '\U{202F}' || c == '\U{205F}'
    || c == '\U{3000}' || c == '\U{FEFF}'
  }

  predicate IsDigit(c: char) { '0' <= c <= '9' }

  predicate AllDigits(s: string) { forall i :: 0 <= i < |s| ==> IsDigit(s[i]) }

  function TrimStart(s: string): (r: string)
    ensures |r| <= |s| && r == s[|s| - |r|..]
    ensures r == [] || !IsWhitespace(r[0])
    ensures forall i :: 0 <= i < |s| - |r| ==> IsWhitespace(s[i])
  {
    if s != [] && IsWhitespace(s[0]) then TrimStart(s[1..]) else s
  }

  function TrimEnd(s: string): (r: string)
    ensures |r| <= |s| && r == s[..|r|]
    ensures r == [] || !IsWhitespace(r[|r| - 1])
    ensures forall i :: |r| <= i < |s| ==> IsWhitespace(s[i])
  {
    if s != [] && IsWhitespace(s[|s| - 1]) then TrimEnd(s[..|s| - 1]) else s
  }

  /** `s.trim()`: the longest infix of `s` that neither starts nor ends with whitespace,
      obtained by dropping whitespace only. */
  function Trim(s: string): (r: string)
    ensures |r| <= |s|
    ensures r == [] || (!IsWhitespace(r[0]) && !IsWhitespace(r[|r| - 1]))
    ensures (forall i :: 0 <= i < |s| ==> IsWhitespace(s[i])) <==> r == []
  {
    var e := TrimEnd(s);
    var r := TrimStart(e);
    assert r != [] ==> r[|r| - 1] == e[|e| - 1];
    assert r == [] ==> e == [];
    assert r != [] ==> !IsWhitespace(s[|e| - |r|]) by {
      if r != [] { assert r[0] == e[|e| - |r|] == s[|e| - |r|]; }
    }
    r
  }

  /** `trim()` returns a contiguous piece of its argument. */
  lemma TrimIsInfix(s: string) returns (a: nat)
    ensures a + |Trim(s)| <= |s|
    ensures forall i :: 0 <= i < |Trim(s)| ==> Trim(s)[i] == s[a + i]
  {
    var e := TrimEnd(s);
    var r := TrimStart(e);
    assert Trim(s) == r;
    a := |e| - |r|;
    assert r == e[a..] && e == s[..|e|];
  }

  /** `s.includes(t)`. */
  predicate Contains(s: string, t: string) {
    exists i :: 0 <= i <= |s| - |t| && OccursAt(s, t, i)
  }

  predicate OccursAt(s: string, t: string, i: nat) {
    i + |t| <= |s| && s[i..i + |t|] == t
  }

  /** `s.includes(t)` as a left-to-right search; equal to `Contains` by `IncludesIsContains`. */
  predicate Includes(s: string, t: string)
    decreases |s|
  {
    if |t| > |s| then false
    else if s[..|t|] == t then true
    else Includes(s[1..], t)
  }

  /** A left-to-right search that succeeds finds an occurrence. */
  lemma {:induction false} IncludesWitness(s: string, t: string) returns (i: nat)
    requires Includes(s, t)
    ensures i <= |s| - |t| && OccursAt(s, t, i)
    decreases |s|
  {
    if s[..|t|] == t {
      i := 0;
    } else {
      var j := IncludesWitness(s[1..], t);
      assert s[1..][j..j + |t|] == s[j + 1..j + 1 + |t|];
      i := j + 1;
    }
  }

  /** An occurrence anywhere makes the search succeed. */
  lemma {:induction false} OccurrenceIncluded(s: string, t: string, i: nat)
    requires OccursAt(s, t, i)
    ensures Includes(s, t)
    decreases |s|
  {
    if s[..|t|] != t {
      assert i != 0;
      assert s[1..][i - 1..i - 1 + |t|] == s[i..i + |t|];
      OccurrenceIncluded(s[1..], t, i - 1);
    }
  }

  lemma IncludesIsContains(s: string, t: string)
    ensures Includes(s, t) <==> Contains(s, t)
  {
    if Includes(s, t) {
      var i := IncludesWitness(s, t);
    }
    if Contains(s, t) {
      var i :| 0 <= i <= |s| - |t| && OccursAt(s, t, i);
      OccurrenceIncluded(s, t, i);
    }
  }

  /** Removes every occurrence of the character `c` (`s.replace(/c/g, '')`). */
  function Remove(s: string, c: char): (r: string)
    ensures c !in r
    ensures forall x :: x in r <==> x in s && x != c
    ensures IsSubsequence(r, s)
    ensures forall x :: multiset(r)[x] == (if x == c then 0 else multiset(s)[x])
  {
    if s == [] then []
    else
      assert s == [s[0]] + s[1..];
      if s[0] == c then Remove(s[1..], c)
      else
        var rest := Remove(s[1..], c);
        assert ([s[0]] + rest)[1..] == rest;
        [s[0]] + rest
  }

  /** A string's JavaScript `length`: its count of UTF-16 code units, where a character
      outside the Basic Multilingual Plane takes a surrogate pair. */
  function Utf16Length(s: string): (n: nat)
    ensures |s| <= n <= 2 * |s|
  {
    if s == [] then 0 else (if s[0] as int >= 0x10000 then 2 else 1) + Utf16Length(s[1..])
  }

  /** On text inside the Basic Multilingual Plane the two lengths agree. */
  lemma {:induction false} Utf16LengthOfBmp(s: string)
    requires forall i :: 0 <= i < |s| ==> s[i] as int < 0x10000
    ensures Utf16Length(s) == |s|
  {
    if s != [] {
      assert forall i :: 0 <= i < |s[1..]| ==> s[1..][i] == s[i + 1];
      Utf16LengthOfBmp(s[1..]);
    }
  }

  /** A single character outside the plane is two code units long. */
  lemma AstralCharIsTwoUnits(c: char)
    requires c as int >= 0x10000
    ensures Utf16Length([c]) == 2
  {
    assert [c][1..] == [];
  }

  // ---------------------------------------------------------------------------
  // Decimal digits

  function DigitChar(d: nat): (c: char)
    requires d < 10
    ensures IsDigit(c) && DigitValue(c) == d
  {
    (d + '0' as int) as char
  }

  function DigitValue(c: char): nat
    requires IsDigit(c)
  {
    c as int - '0' as int
  }

  /** `n.toString()` for a natural number: its decimal digits, no leading zero. */
  function NatToString(n: nat): (s: string)
    ensures |s| >= 1 && AllDigits(s)
    ensures |s| > 1 ==> s[0] != '0'
    decreases n
  {
    if n < 10 then [DigitChar(n)]
    else
      var p := NatToString(n / 10);
      p + [DigitChar(n % 10)]
  }

  /** The number written by a string of decimal digits (most significant first). */
  function DigitsValue(s: string): nat
    requires AllDigits(s)
  {
    if s == [] then 0
    else 10 * DigitsValue(s[..|s| - 1]) + DigitValue(s[|s| - 1])
  }

  /** Length of the leading run of ASCII digits. */
  function DigitRun(s: string): (n: nat)
    ensures n <= |s| && AllDigits(s[..n])
    ensures n < |s| ==> !IsDigit(s[n])
  {
    if s == [] || !IsDigit(s[0]) then 0
    else
      var n := 1 + DigitRun(s[1..]);
      assert forall i :: 1 <= i < n ==> s[..n][i] == s[1..][..n - 1][i - 1];
      n
  }

  function Pow10(k: nat): (r: real)
    ensures r >= 1.0
  {
    if k == 0 then 1.0 else 10.0 * Pow10(k - 1)
  }

  /** `s` without one leading sign character. */
  function Unsigned(s: string): string {
    if s != [] && (s[0] == '-' || s[0] == '+') then s[1..] else s
  }

  /** The digits after the decimal point in `b[n..]`, when `b[n]` is a point. */
  function FractionDigits(b: string, n: nat): (f: string)
    requires n <= |b|
    ensures AllDigits(f)
  {
    var rest := b[n..];
    if rest != [] && rest[0] == '.' then rest[1..][..DigitRun(rest[1..])] else []
  }

  /** `b` starts with a decimal literal: a digit, or a point followed by a digit. */
  predicate StartsWithNumber(b: string) {
    DigitRun(b) > 0 || (|b| > 1 && b[0] == '.' && IsDigit(b[1]))
  }

  /** `parseFloat(s)` for strings with no leading whitespace, exponent or `Infinity`:
      the value of the longest prefix of the form `[+-]? digits [. digits]` holding at
      least one digit; `None` (NaN) when there is no such prefix. */
  function ParseFloat(s: string): (r: Option<real>)
    ensures r.Some? <==> StartsWithNumber(Unsigned(s))
    ensures r.Some? && s != [] && s[0] == '-' ==> r.value <= 0.0
    ensures r.Some? && !(s != [] && s[0] == '-') ==> r.value >= 0.0
  {
    var body := Unsigned(s);
    var n := DigitRun(body);
    var frac := FractionDigits(body, n);
    if n == 0 && frac == [] then
      None
    else
      var magnitude := Magnitude(body[..n], frac);
      Some(if s != [] && s[0] == '-' then -magnitude else magnitude)
  }

  function Magnitude(intDigits: string, frac: string): (m: real)
    requires AllDigits(intDigits) && AllDigits(frac)
    ensures m >= 0.0
  {
    var f := DigitsValue(frac) as real;
    var p := Pow10(|frac|);
    assert f / p >= 0.0;
    DigitsValue(intDigits) as real + f / p
  }

  lemma {:induction false} DigitsOfNatToString(n: nat)
    ensures DigitsValue(NatToString(n)) == n
    decreases n
  {
    var s := NatToString(n);
    if n >= 10 {
      DigitsOfNatToString(n / 10);
      assert s[..|s| - 1] == NatToString(n / 10);
    }
  }

  lemma {:induction false} DigitRunOfDigits(s: string)
    requires AllDigits(s)
    ensures DigitRun(s) == |s|
    decreases |s|
  {
    if s != [] {
      assert AllDigits(s[1..]) by {
        assert forall i :: 0 <= i < |s[1..]| ==> s[1..][i] == s[i + 1];
      }
      DigitRunOfDigits(s[1..]);
    }
  }

  /** `parseFloat(String(n)) === n` for every natural number. */
  lemma ParseFloatOfNatToString(n: nat)
    ensures ParseFloat(NatToString(n)) == Some(n as real)
  {
    var s := NatToString(n);
    DigitRunOfDigits(s);
    DigitsOfNatToString(n);
    assert s[..|s|] == s;
    assert s[|s|..] == [];
  }
}
