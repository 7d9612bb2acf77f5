/** The value logic of `src/components/common/NumberInput.tsx`: the text filter that
    decides whether a keystroke is accepted, `parseNumber`, the clamp into `[min, max]`
    and the empty-text case of `formatNumber`. The `displayValue` state and the locale
    formatting of non-zero numbers are presentation and are not modelled. */
module NumberInput {
  import opened Wrappers
  import opened Seqs
  import opened JsText

  // ---------------------------------------------------------------------------
  // parseNumber

  /** The characters the second `replace` keeps: digits, the point and the minus sign. */
  predicate IsKeptChar(c: char) { IsDigit(c) || c == '.' || c == '-' }

  function KeptChar(): char -> bool { (c: char) => IsKeptChar(c) }

  /** `str.replace(/,/g, '').replace(/[^0-9.-]/g, '')`: exactly the digits, points and
      minus signs of `s`, each as often as in `s`, in their order. */
  function CleanNumber(s: string): (r: string)
    ensures forall i :: 0 <= i < |r| ==> IsKeptChar(r[i]) && r[i] in s
    ensures forall i :: 0 <= i < |s| && IsKeptChar(s[i]) ==> s[i] in r
    ensures IsSubsequence(r, s)
    ensures forall x :: multiset(r)[x] == (if IsKeptChar(x) then multiset(s)[x] else 0)
  {
    var noCommas := Remove(s, ',');
    assert forall i :: 0 <= i < |s| && IsKeptChar(s[i]) ==> s[i] in noCommas;
    var r := Filter(noCommas, KeptChar());
    SubsequenceTrans(r, noCommas, s);
    assert forall x :: multiset(r)[x] == (if IsKeptChar(x) then multiset(s)[x] else 0) by {
      forall x
        ensures multiset(r)[x] == (if IsKeptChar(x) then multiset(s)[x] else 0)
      {
        if x in noCommas {
          var j :| 0 <= j < |noCommas| && noCommas[j] == x;
          assert multiset(r)[noCommas[j]] == (if IsKeptChar(x) then multiset(noCommas)[x] else 0);
        } else {
          assert x !in r;
        }
      }
    }
    r
  }

  /** `parseNumber`: the cleaned text read by `parseFloat`, with an empty cleaned text,
      NaN and zero all giving 0 (`parseFloat(cleaned) || 0`). */
  function ParseNumber(s: string): (r: real)
    ensures CleanNumber(s) == [] ==> r == 0.0
    ensures ParseFloat(CleanNumber(s)).None? ==> r == 0.0
    ensures ParseFloat(CleanNumber(s)).Some? ==> r == ParseFloat(CleanNumber(s)).value
    ensures r < 0.0 ==> '-' in s
  {
    var cleaned := CleanNumber(s);
    if cleaned == [] then 0.0
    else match ParseFloat(cleaned)
      case None => 0.0
      case Some(v) => v
  }

  // ---------------------------------------------------------------------------
  // The keystroke filter

  /** Length of the leading run of `[0-9,]`. */
  function PatternRun(s: string): (n: nat)
    ensures n <= |s|
    ensures forall i :: 0 <= i < n ==> IsDigit(s[i]) || s[i] == ','
    ensures n < |s| ==> !IsDigit(s[n]) && s[n] != ','
  {
    if s == [] || !(IsDigit(s[0]) || s[0] == ',') then 0
    else
      var n := 1 + PatternRun(s[1..]);
      assert forall i :: 1 <= i < n ==> s[i] == s[1..][i - 1];
      n
  }

  /** `/^[-+]?[0-9,]*\.?[0-9]*$/.test(s)`: an optional sign, then digits and commas, then
      at most one point followed only by digits. */
  predicate NumberPattern(s: string) {
    var b := Unsigned(s);
    var rest := b[PatternRun(b)..];
    rest == [] || (rest[0] == '.' && AllDigits(rest[1..]))
  }

  /** The test `handleChange` makes before it accepts the text. */
  predicate Accepts(input: string) {
    input == [] || NumberPattern(Remove(input, ','))
  }

  /** `handleChange`: `None` when the text is refused and `onChange` is not called,
      otherwise the number passed to `onChange`: the parsed value, lowered to `max`
      when there is one, then raised to `min`. */
  function HandleChange(input: string, min: real, max: Option<real>): (r: Option<real>)
    ensures r.Some? <==> Accepts(input)
    ensures r.Some? ==> r.value >= min
    ensures r.Some? && max.Some? && max.value >= min ==> r.value <= max.value
    ensures r.Some? && max.Some? && max.value < min ==> r.value == min
    ensures r.Some? && min <= ParseNumber(input) && (max.None? || ParseNumber(input) <= max.value)
            ==> r.value == ParseNumber(input)
  {
    if Accepts(input) then
      var parsed := ParseNumber(input);
      var clamped := if max.Some? && max.value < parsed then max.value else parsed;
      Some(if clamped < min then min else clamped)
    else None
  }

  /** The default lower bound. */
  const DEFAULT_MIN: real := 0.0

  // ---------------------------------------------------------------------------
  // formatNumber

  /** `formatNumber`, `None` standing for NaN and `localized` for `toLocaleString`. */
  function FormatNumber(num: Option<real>, localized: real -> string): (r: string)
    ensures num.None? || num == Some(0.0) ==> r == []
    ensures num.Some? && num.value != 0.0 ==> r == localized(num.value)
  {
    if num.None? || num.value == 0.0 then [] else localized(num.value)
  }

  /** The text `handleFocus` shows for a whole number: empty for 0, else the digits that
      spell it. */
  function FocusText(n: nat): (r: string)
    ensures r == [] <==> n == 0
    ensures AllDigits(r) && DigitsValue(r) == n
  {
    if n == 0 then [] else (DigitsOfNatToString(n); NatToString(n))
  }

  // ---------------------------------------------------------------------------
  // Properties

  /** The empty display of zero and NaN reads back as 0. */
  lemma FormatZeroReadsZero(num: Option<real>, localized: real -> string)
    requires num.None? || num == Some(0.0)
    ensures ParseNumber(FormatNumber(num, localized)) == 0.0
    ensures HandleChange(FormatNumber(num, localized), DEFAULT_MIN, None) == Some(0.0)
  {
  }

  lemma {:induction false} RemoveAbsent(s: string, c: char)
    requires c !in s
    ensures Remove(s, c) == s
    decreases |s|
  {
    if s != [] {
      assert c !in s[1..] by {
        assert forall i :: 0 <= i < |s[1..]| ==> s[1..][i] == s[i + 1];
      }
      RemoveAbsent(s[1..], c);
    }
  }

  /** A digit string passes the filter and is not changed by the cleaning. */
  lemma DigitsAcceptedUnchanged(s: string)
    requires AllDigits(s)
    ensures NumberPattern(s) && CleanNumber(s) == s
  {
    assert ',' !in s;
    RemoveAbsent(s, ',');
    FilterKeepsAll(s, KeptChar());
    assert Unsigned(s) == s;
    assert PatternRun(s) == |s| by {
      PatternRunOfDigits(s);
    }
  }

  lemma {:induction false} PatternRunOfDigits(s: string)
    requires AllDigits(s)
    ensures PatternRun(s) == |s|
    decreases |s|
  {
    if s != [] {
      assert AllDigits(s[1..]) by {
        assert forall i :: 0 <= i < |s[1..]| ==> s[1..][i] == s[i + 1];
      }
      PatternRunOfDigits(s[1..]);
    }
  }

  /** Focusing shows a whole number as text that, typed back, gives the same number
      whenever it lies within the bounds. */
  lemma FocusRoundTrip(n: nat, min: real, max: Option<real>)
    requires min <= n as real && (max.None? || n as real <= max.value)
    ensures HandleChange(FocusText(n), min, max) == Some(n as real)
  {
    if n != 0 {
      var s := NatToString(n);
      DigitsAcceptedUnchanged(s);
      assert ',' !in s;
      RemoveAbsent(s, ',');
      ParseFloatOfNatToString(n);
    }
  }

  /** Every character of an accepted text without `+` and commas survives the cleaning,
      so what `parseNumber` reads is the text as typed. */
  lemma AcceptedTextIsClean(s: string)
    requires NumberPattern(s) && '+' !in s && ',' !in s
    ensures CleanNumber(s) == s
  {
    PatternChars(s);
    assert forall i :: 0 <= i < |s| ==> IsKeptChar(s[i]);
    RemoveAbsent(s, ',');
    FilterKeepsAll(s, KeptChar());
  }

  /** A letter makes the filter refuse the text. */
  lemma LetterRefused()
    ensures !Accepts("12a")
  {
    var t := "12a";
    RemoveAbsent(t, ',');
    assert PatternRun(t[2..]) == 0;
  }

  /** The characters the pattern allows anywhere: digits, commas, the point and signs. */
  predicate IsPatternChar(c: char) { IsDigit(c) || c == ',' || c == '.' || c == '-' || c == '+' }

  lemma PatternChars(s: string)
    requires NumberPattern(s)
    ensures forall i :: 0 <= i < |s| ==> IsPatternChar(s[i])
  {
    var b := Unsigned(s);
    var n := PatternRun(b);
    var off := |s| - |b|;
    forall i | 0 <= i < |s|
      ensures IsPatternChar(s[i])
    {
      if i >= off {
        assert s[i] == b[i - off];
        var k := i - off;
        if k >= n {
          assert b[n..][k - n] == b[k];
          if k > n {
            assert b[n..][1..][k - n - 1] == b[k];
          }
        }
      }
    }
  }

  /** Only digits, commas, points and signs get through the filter: any other character
      makes `handleChange` refuse the text. */
  lemma AcceptedChars(input: string)
    requires Accepts(input)
    ensures forall i :: 0 <= i < |input| ==> IsPatternChar(input[i])
  {
    if input != [] {
      var t := Remove(input, ',');
      PatternChars(t);
      forall i | 0 <= i < |input|
        ensures IsPatternChar(input[i])
      {
        if input[i] != ',' {
          assert input[i] in t;
        }
      }
    }
  }

  /** A negative amount is accepted and raised to the default minimum. */
  lemma NegativeRaised()
    ensures HandleChange("-5", DEFAULT_MIN, None) == Some(0.0)
  {
    var t := "-5";
    RemoveAbsent(t, ',');
    assert Unsigned(t) == "5";
    assert PatternRun("5") == 1;
  }
}
