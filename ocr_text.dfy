/** The text handling of `src/utils/ocrParser.ts`, with each regular expression written
    out as the function that says which characters it consumes: line-break normalisation,
    blank collapsing, splitting into lines, the excluded keywords, the 6-digit code, the
    two number patterns and the name cleaner. */
module OcrText {
  import opened Wrappers
  import opened Seqs
  import opened JsText

  // ---------------------------------------------------------------------------
  // Cleaning the whole text

  /** `.replace(/\r\n/g, '\n')`: each CR LF pair, scanning left to right, becomes LF. */
  function ReplaceCrLf(s: string): (r: string)
    ensures |r| <= |s|
    ensures forall i :: 0 <= i < |r| ==> r[i] in s
    ensures '\r' !in s ==> r == s
  {
    if s == [] then []
    else if |s| >= 2 && s[0] == '\r' && s[1] == '\n' then "\n" + ReplaceCrLf(s[2..])
    else [s[0]] + ReplaceCrLf(s[1..])
  }

  /** `.replace(/\r/g, '\n')`. */
  function ReplaceCr(s: string): (r: string)
    ensures |r| == |s| && '\r' !in r
    ensures forall i :: 0 <= i < |s| ==> r[i] == (if s[i] == '\r' then '\n' else s[i])
  {
    seq(|s|, i requires 0 <= i < |s| => if s[i] == '\r' then '\n' else s[i])
  }

  predicate IsSpaceOrTab(c: char) { c == ' ' || c == '\t' }

  /** `s` without its leading characters of the class `blank`. */
  function SkipRun(s: string, blank: char -> bool): (r: string)
    ensures |r| <= |s| && r == s[|s| - |r|..]
    ensures r == [] || !blank(r[0])
  {
    if s != [] && blank(s[0]) then SkipRun(s[1..], blank) else s
  }

  /** `.replace(/[class]+/g, ' ')`: every maximal run of characters of the class becomes
      one space. */
  function Collapse(s: string, blank: char -> bool): (r: string)
    requires blank(' ')
    ensures s == [] <==> r == []
    ensures s != [] && !blank(s[0]) ==> r[0] == s[0]
    ensures s != [] && blank(s[0]) ==> r[0] == ' '
    decreases |s|
  {
    if s == [] then []
    else if blank(s[0]) then [' '] + Collapse(SkipRun(s[1..], blank), blank)
    else [s[0]] + Collapse(s[1..], blank)
  }

  /** The input left after the first character of the result is produced. */
  function CollapseRest(s: string, blank: char -> bool): (r: string)
    requires s != []
    ensures |r| < |s| && r == s[|s| - |r|..]
    ensures blank(s[0]) ==> r == [] || !blank(r[0])
  {
    if blank(s[0]) then SkipRun(s[1..], blank) else s[1..]
  }

  lemma CollapseUnfold(s: string, blank: char -> bool)
    requires blank(' ') && s != []
    ensures Collapse(s, blank) == [Collapse(s, blank)[0]] + Collapse(CollapseRest(s, blank), blank)
  {
  }

  /** Each character of the result other than the space is a character of the input
      outside the class. */
  lemma {:induction false} CollapseCharFrom(s: string, blank: char -> bool, c: char)
    requires blank(' ') && c in Collapse(s, blank) && c != ' '
    ensures c in s && !blank(c)
    decreases |s|
  {
    if blank(s[0]) {
      var t := SkipRun(s[1..], blank);
      assert Collapse(s, blank) == [' '] + Collapse(t, blank);
      CollapseCharFrom(t, blank, c);
      InSuffix(s[1..], |s[1..]| - |t|, c);
      InSuffix(s, 1, c);
    } else if c != s[0] {
      assert Collapse(s, blank) == [s[0]] + Collapse(s[1..], blank);
      CollapseCharFrom(s[1..], blank, c);
      InSuffix(s, 1, c);
    } else {
      assert s[0] in s;
    }
  }

  lemma InSuffix(s: string, k: nat, c: char)
    requires k <= |s| && c in s[k..]
    ensures c in s
  {
    var j :| 0 <= j < |s[k..]| && s[k..][j] == c;
    assert s[k + j] == c;
  }

  /** No two characters of the class are adjacent in the result. */
  lemma {:induction false} CollapseNoDoubleBlankAt(s: string, blank: char -> bool, i: nat)
    requires blank(' ') && i + 1 < |Collapse(s, blank)|
    ensures var r := Collapse(s, blank);
      !(blank(r[i]) && blank(r[i + 1]))
    decreases |s|
  {
    var rest := CollapseRest(s, blank);
    CollapseUnfold(s, blank);
    if i > 0 {
      CollapseNoDoubleBlankAt(rest, blank, i - 1);
    } else if blank(s[0]) {
      assert Collapse(rest, blank)[0] == rest[0];
    }
  }

  /** `split('\n')`: the pieces between line feeds, an empty text giving one empty piece. */
  function SplitLines(s: string): (r: seq<string>)
    ensures |r| >= 1
    ensures forall k :: 0 <= k < |r| ==> '\n' !in r[k]
  {
    if s == [] then [[]]
    else
      var rest := SplitLines(s[1..]);
      if s[0] == '\n' then [[]] + rest
      else [[s[0]] + rest[0]] + rest[1..]
  }

  /** `join('\n')`, the inverse of `SplitLines`. */
  function JoinLines(pieces: seq<string>): string
    requires |pieces| >= 1
  {
    if |pieces| == 1 then pieces[0] else pieces[0] + ("\n" + JoinLines(pieces[1..]))
  }

  lemma JoinCons(c: char, pieces: seq<string>)
    requires |pieces| >= 1
    ensures JoinLines([[c] + pieces[0]] + pieces[1..]) == [c] + JoinLines(pieces)
  {
    var q := [[c] + pieces[0]] + pieces[1..];
    if |pieces| > 1 {
      assert q[1..] == pieces[1..];
      AppendAssoc([c], pieces[0], "\n" + JoinLines(pieces[1..]));
    }
  }

  /** Splitting loses nothing: joining the pieces gives the text back. */
  lemma {:induction false} JoinSplitLines(s: string)
    ensures JoinLines(SplitLines(s)) == s
  {
    if s != [] {
      var rest := SplitLines(s[1..]);
      JoinSplitLines(s[1..]);
      if s[0] == '\n' {
        assert ([[]] + rest)[1..] == rest;
        assert s == "\n" + s[1..];
      } else {
        JoinCons(s[0], rest);
        assert s == [s[0]] + s[1..];
      }
    }
  }

  predicate IsNonBlank(line: string) { Trim(line) != [] }

  function NonBlank(): string -> bool { (line: string) => IsNonBlank(line) }

  /** The lines the parser walks: CR LF and CR made LF, runs of spaces and tabs made
      one space, the text trimmed, split on LF, and blank lines dropped. */
  function Lines(text: string): (r: seq<string>)
    ensures forall k :: 0 <= k < |r| ==> IsNonBlank(r[k]) && '\n' !in r[k]
  {
    var cleaned := Trim(Collapse(ReplaceCr(ReplaceCrLf(text)), c => IsSpaceOrTab(c)));
    Filter(SplitLines(cleaned), NonBlank())
  }

  // ---------------------------------------------------------------------------
  // Keywords and the fund code

  /** `excludeKeywords`, in the source's order (收益 is listed twice there). */
  const EXCLUDE_KEYWORDS: seq<string> := [
    "总计", "持仓", "收益", "盈亏", "金额", "份额",
    "确认", "申购", "赎回", "操作", "查看", "详情",
    "元", "份", "¥", "CNY", "收益", "净值", "日期",
    "持仓市值", "昨日收益", "累计收益", "总资产",
    "持有份额", "可用份额", "今日盈亏", "持仓盈亏"
  ]

  /** `keywords.some(keyword => line.includes(keyword))`. */
  predicate IncludesAny(line: string, keywords: seq<string>) {
    keywords != [] && (Includes(line, keywords[0]) || IncludesAny(line, keywords[1..]))
  }

  predicate Excluded(line: string) {
    IncludesAny(line, EXCLUDE_KEYWORDS)
  }

  lemma {:induction false} IncludesAnyIsSome(line: string, keywords: seq<string>)
    ensures IncludesAny(line, keywords) <==> exists k :: 0 <= k < |keywords| && Contains(line, keywords[k])
  {
    if keywords != [] {
      IncludesIsContains(line, keywords[0]);
      IncludesAnyIsSome(line, keywords[1..]);
      if IncludesAny(line, keywords[1..]) {
        var k :| 0 <= k < |keywords[1..]| && Contains(line, keywords[1..][k]);
        assert Contains(line, keywords[k + 1]);
      }
      if exists k :: 0 <= k < |keywords| && Contains(line, keywords[k]) {
        var k :| 0 <= k < |keywords| && Contains(line, keywords[k]);
        if k > 0 {
          assert keywords[1..][k - 1] == keywords[k];
        }
      }
    }
  }

  /** A line is excluded exactly when it contains one of the keywords. */
  lemma ExcludedMeansKeyword(line: string)
    ensures Excluded(line) <==> exists k :: 0 <= k < |EXCLUDE_KEYWORDS| && Contains(line, EXCLUDE_KEYWORDS[k])
  {
    IncludesAnyIsSome(line, EXCLUDE_KEYWORDS);
  }

  predicate SixDigitsAt(line: string, p: nat) {
    p + 6 <= |line| && AllDigits(line[p..p + 6])
  }

  /** Where `/(\d{6})/` matches: the first position followed by six digits. */
  function FindCode(line: string, from: nat): (r: Option<nat>)
    requires from <= |line|
    ensures r.None? ==> forall p :: from <= p <= |line| ==> !SixDigitsAt(line, p)
    ensures r.Some? ==> from <= r.value && SixDigitsAt(line, r.value)
    ensures r.Some? ==> forall p :: from <= p < r.value ==> !SixDigitsAt(line, p)
    decreases |line| - from
  {
    if from + 6 > |line| then None
    else if SixDigitsAt(line, from) then Some(from)
    else FindCode(line, from + 1)
  }

  /** The six digits removed by `line.replace(code, '')` are the matched ones: no
      position `q` before the match holds the same string. */
  lemma CodeRemovedAtMatch(line: string, p: nat, q: nat)
    requires FindCode(line, 0) == Some(p) && q < p
    ensures !OccursAt(line, line[p..p + 6], q)
  {
    assert !SixDigitsAt(line, q);
  }

  // ---------------------------------------------------------------------------
  // Number patterns

  /** The amount pattern `/(\d{1,3}(?:,\d{3})*|\d+)(?:\.\d{2})?/g`. Its first alternative
      matches wherever a digit starts, so the second is never used: a token is one to
      three digits, then any number of `,ddd` groups, then an optional `.dd`. */
  function CommaGroups(s: string): (n: nat)
    ensures n <= |s|
  {
    if |s| >= 4 && s[0] == ',' && IsDigit(s[1]) && IsDigit(s[2]) && IsDigit(s[3])
    then 4 + CommaGroups(s[4..])
    else 0
  }

  function CentsSuffix(s: string): (n: nat)
    ensures n <= |s|
  {
    if |s| >= 3 && s[0] == '.' && IsDigit(s[1]) && IsDigit(s[2]) then 3 else 0
  }

  function TokenLength(s: string): (n: nat)
    requires s != [] && IsDigit(s[0])
    ensures 1 <= n <= |s|
  {
    var lead := if DigitRun(s) < 3 then DigitRun(s) else 3;
    var groups := CommaGroups(s[lead..]);
    lead + groups + CentsSuffix(s[lead + groups..])
  }

  predicate IsNumberChar(c: char) { IsDigit(c) || c == ',' || c == '.' }

  /** The successive matches of the amount pattern. */
  function NumberTokens(s: string): (r: seq<string>)
    ensures forall k :: 0 <= k < |r| ==> r[k] != [] && IsDigit(r[k][0])
    decreases |s|
  {
    if s == [] then []
    else if !IsDigit(s[0]) then NumberTokens(s[1..])
    else
      var n := TokenLength(s);
      [s[..n]] + NumberTokens(s[n..])
  }

  /** `parseFloat(numStr.replace(/,/g, ''))`, `None` standing for NaN: never negative for
      a token without a minus sign, so for none of the tokens the amount pattern matches. */
  function TokenValue(token: string): (r: Option<real>)
    ensures r.Some? && '-' !in token ==> r.value >= 0.0
  {
    ParseFloat(Remove(token, ','))
  }

  /** The shares pattern `/([\d,]+\.?\d*)/`, first match only: a run of digits and commas,
      then, after a point, the digits that follow it. */
  predicate IsDigitOrComma(c: char) { IsDigit(c) || c == ',' }

  function DigitCommaRun(s: string): (n: nat)
    ensures n <= |s|
    ensures forall i :: 0 <= i < n ==> IsDigitOrComma(s[i])
    ensures n < |s| ==> !IsDigitOrComma(s[n])
  {
    if s == [] || !IsDigitOrComma(s[0]) then 0 else 1 + DigitCommaRun(s[1..])
  }

  function SharesToken(s: string): (r: Option<string>)
    ensures r.Some? ==> r.value != [] && IsDigitOrComma(r.value[0])
    ensures r.None? <==> forall i :: 0 <= i < |s| ==> !IsDigitOrComma(s[i])
  {
    if s == [] then None
    else if IsDigitOrComma(s[0]) then
      var n := DigitCommaRun(s);
      var rest := s[n..];
      var m := if rest != [] && rest[0] == '.' then n + 1 + DigitRun(rest[1..]) else n;
      Some(s[..m])
    else
      var r := SharesToken(s[1..]);
      assert forall i :: 1 <= i < |s| ==> s[i] == s[1..][i - 1];
      r
  }

  // ---------------------------------------------------------------------------
  // The holding name

  /** The class `[\d,\.¥元CNY份]`. */
  predicate IsNameNoise(c: char) {
    IsDigit(c) || c == ',' || c == '.' || c == '¥' || c == '元' || c == 'C' || c == 'N' || c == 'Y' || c == '份'
  }

  /** `.replace(/[\d,\.¥元CNY份]+/g, '')`. */
  function RemoveNoise(s: string): (r: string)
    ensures forall i :: 0 <= i < |r| ==> r[i] in s && !IsNameNoise(r[i])
  {
    if s == [] then []
    else
      var tail := RemoveNoise(s[1..]);
      if IsNameNoise(s[0]) then tail else [s[0]] + tail
  }

  /** What the cleaner promises of a name: no noise character, no two whitespace
      characters in a row, and none at either end. */
  predicate IsCleanName(name: string) {
    && (forall i :: 0 <= i < |name| ==> !IsNameNoise(name[i]))
    && (forall i :: 0 <= i < |name| - 1 ==> !(IsWhitespace(name[i]) && IsWhitespace(name[i + 1])))
    && (name != [] ==> !IsWhitespace(name[0]) && !IsWhitespace(name[|name| - 1]))
  }

  function Whitespace(): char -> bool { (c: char) => IsWhitespace(c) }

  /** The name cleaner: noise removed, whitespace runs made one space, then trimmed. */
  function CleanName(s: string): (r: string)
    ensures IsCleanName(r)
  {
    CleanNameClean(s);
    Trim(Collapse(RemoveNoise(s), Whitespace()))
  }

  lemma CleanNameClean(s: string)
    ensures IsCleanName(Trim(Collapse(RemoveNoise(s), Whitespace())))
  {
    var kept := RemoveNoise(s);
    var collapsed := Collapse(kept, Whitespace());
    forall i | 0 <= i < |collapsed|
      ensures !IsNameNoise(collapsed[i])
    {
      if collapsed[i] != ' ' {
        CollapseCharFrom(kept, Whitespace(), collapsed[i]);
        var j :| 0 <= j < |kept| && kept[j] == collapsed[i];
      }
    }
    forall i | 0 <= i < |collapsed| - 1
      ensures !(IsWhitespace(collapsed[i]) && IsWhitespace(collapsed[i + 1]))
    {
      CollapseNoDoubleBlankAt(kept, Whitespace(), i);
    }
    TrimKeepsClean(collapsed);
  }

  lemma TrimKeepsClean(s: string)
    requires forall i :: 0 <= i < |s| ==> !IsNameNoise(s[i])
    requires forall i :: 0 <= i < |s| - 1 ==> !(IsWhitespace(s[i]) && IsWhitespace(s[i + 1]))
    ensures IsCleanName(Trim(s))
  {
    var r := Trim(s);
    var a := TrimIsInfix(s);
    forall i | 0 <= i < |r| - 1
      ensures !(IsWhitespace(r[i]) && IsWhitespace(r[i + 1]))
    {
      assert r[i] == s[a + i] && r[i + 1] == s[a + i + 1];
    }
  }

  /** `determineFundType`'s two outcomes. */
  datatype FundType = Fund | Stock

  /** `determineFundType`: a name with 股份 or 公司 is a stock. The fund-keyword test that
      follows returns `fund`, as does the fallback, so both are one branch here; the code
      argument is unused. */
  function DetermineFundType(name: string, code: string): (r: FundType)
    ensures r == Stock <==> Contains(name, "股份") || Contains(name, "公司")
  {
    IncludesIsContains(name, "股份");
    IncludesIsContains(name, "公司");
    if Includes(name, "股份") || Includes(name, "公司") then Stock else Fund
  }

  // ---------------------------------------------------------------------------
  // Worked cases of the amount pattern

  /** A grouped amount is one token. */
  lemma GroupedAmountIsOneToken()
    ensures NumberTokens("12,345.67") == ["12,345.67"]
  {
    var s := "12,345.67";
    assert DigitRun(s[2..]) == 0;
    assert DigitRun(s) == 2;
    assert CommaGroups(s[2..][4..]) == 0;
    assert CommaGroups(s[2..]) == 4;
    assert CentsSuffix(s[6..]) == 3;
    assert TokenLength(s) == 9;
    assert s[..9] == s && s[9..] == [];
  }

  /** An amount written without separators falls apart into chunks of at most three
      digits, none above 1000. */
  lemma UngroupedAmountSplits()
    ensures NumberTokens("12345.67") == ["123", "45.67"]
  {
    UngroupedLead();
    CentsToken();
    NumberTokensStep("12345.67");
    UngroupedSlices();
  }

  lemma NumberTokensStep(s: string)
    requires s != [] && IsDigit(s[0])
    ensures NumberTokens(s) == [s[..TokenLength(s)]] + NumberTokens(s[TokenLength(s)..])
  {
  }

  lemma UngroupedSlices()
    ensures "12345.67"[..3] == "123" && "12345.67"[3..] == "45.67"
    ensures ["123"] + ["45.67"] == ["123", "45.67"]
  {
  }

  /** The pattern takes at most three leading digits when no comma follows them. */
  lemma UngroupedLead()
    ensures TokenLength("12345.67") == 3
  {
    var s := "12345.67";
    assert DigitRun(s[5..]) == 0;
    assert DigitRun(s[3..]) == 2;
    assert DigitRun(s) == 5;
    assert CommaGroups(s[3..]) == 0;
    assert CentsSuffix(s[3..]) == 0;
  }

  lemma CentsToken()
    ensures NumberTokens("45.67") == ["45.67"]
  {
    var t := "45.67";
    assert DigitRun(t[2..]) == 0;
    assert DigitRun(t) == 2;
    assert CommaGroups(t[2..]) == 0;
    assert CentsSuffix(t[2..]) == 3;
    assert TokenLength(t) == 5;
    assert t[..5] == t && t[5..] == [];
  }
}
