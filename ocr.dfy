/** `parseOCRText` of `src/utils/ocrParser.ts`: a walk over the cleaned lines that keeps
    an insertion-ordered table of holdings keyed by fund code, looks up to two lines ahead
    for an amount, and, for a code seen again, may only fill in the shares. The table (a
    `Map` in the source) is a sequence with distinct codes, in insertion order. */
module Ocr {
  import opened Wrappers
  import opened JsText
  import opened OcrText

  datatype ParsedHolding = ParsedHolding(
    name: string,
    code: string,
    kind: FundType,
    amount: real,
    shares: Option<real>)

  /** The `amount` / `shares` pair the number scans update. */
  datatype Found = Found(amount: real, shares: Option<real>)

  // ---------------------------------------------------------------------------
  // The number scans

  /** One token of the current-line and next-line scans: a positive number above 1000
      becomes the amount, and otherwise fills the shares if they are still empty. */
  function ScanStep(f: Found, token: string): (r: Found)
    ensures r.amount == f.amount || r.amount > 1000.0
    ensures f.shares.Some? ==> r.shares == f.shares
    ensures r.shares != f.shares ==> r.shares.Some? && 0.0 < r.shares.value <= 1000.0
  {
    match TokenValue(token)
    case None => f
    case Some(num) =>
      if num > 0.0 then
        if num > 1000.0 then f.(amount := num)
        else if f.shares.None? then f.(shares := Some(num))
        else f
      else f
  }

  /** The scan over all tokens of a line, left to right. */
  function Scan(f: Found, tokens: seq<string>): (r: Found)
    decreases |tokens|
    ensures r.amount == f.amount || r.amount > 1000.0
    ensures f.shares.Some? ==> r.shares == f.shares
    ensures r.shares.Some? && r.shares != f.shares ==> 0.0 < r.shares.value <= 1000.0
  {
    if tokens == [] then f else Scan(ScanStep(f, tokens[0]), tokens[1..])
  }

  /** The second-next-line scan: the first positive number above 1000, if any. */
  function FirstLarge(tokens: seq<string>): (r: Option<real>)
    ensures r.Some? ==> r.value > 1000.0
  {
    if tokens == [] then None
    else match TokenValue(tokens[0])
      case Some(num) =>
        if num > 0.0 && num > 1000.0 then Some(num) else FirstLarge(tokens[1..])
      case None => FirstLarge(tokens[1..])
  }

  /** The second-next-line amount: the first large number, or the amount as it was. */
  function LargeOr(tokens: seq<string>, amount: real): (r: real)
    ensures r == amount || r > 1000.0
    ensures FirstLarge(tokens).None? ==> r == amount
  {
    match FirstLarge(tokens)
    case Some(v) => v
    case None => amount
  }

  /** The `for (const numStr of ...)` loops of the current and next line. */
  method ScanTokens(tokens: seq<string>, start: Found) returns (f: Found)
    ensures f == Scan(start, tokens)
  {
    f := start;
    for i := 0 to |tokens|
      invariant Scan(f, tokens[i..]) == Scan(start, tokens)
    {
      assert tokens[i..][1..] == tokens[i + 1..];
      var value := TokenValue(tokens[i]);
      if value.Some? {
        var num := value.value;
        if num > 0.0 {
          if num > 1000.0 {
            f := f.(amount := num);
          } else if f.shares.None? {
            f := f.(shares := Some(num));
          }
        }
      }
    }
    assert tokens[|tokens|..] == [];
  }

  /** The loop of the line after next, which stops at the first large number. */
  method ScanLarge(tokens: seq<string>, start: real) returns (amount: real)
    ensures amount == LargeOr(tokens, start)
  {
    amount := start;
    var i := 0;
    while i < |tokens|
      invariant 0 <= i <= |tokens|
      invariant FirstLarge(tokens[i..]) == FirstLarge(tokens) && amount == start
    {
      assert tokens[i..][1..] == tokens[i + 1..];
      var value := TokenValue(tokens[i]);
      if value.Some? && value.value > 0.0 && value.value > 1000.0 {
        amount := value.value;
        break;
      }
      i := i + 1;
    }
  }

  // ---------------------------------------------------------------------------
  // One line

  /** A line that passed the keyword filter and holds a code: the code, and the trimmed
      rest of the line once the code is removed. */
  datatype LineView = LineView(code: string, rest: string)

  function View(line: string, keywords: seq<string>): (r: Option<LineView>)
    ensures r.Some? ==> |r.value.code| == 6 && AllDigits(r.value.code)
    ensures r.Some? ==> !IncludesAny(line, keywords)
  {
    if line == [] || IncludesAny(line, keywords) then None
    else match FindCode(line, 0)
      case None => None
      case Some(p) => Some(LineView(line[p..p + 6], Trim(line[..p] + line[p + 6..])))
  }

  /** The code a line contributes, if any. */
  function CodeOf(line: string, keywords: seq<string>): Option<string> {
    match View(line, keywords)
    case Some(v) => Some(v.code)
    case None => None
  }

  /** `pendingHoldings.has(code)`, with where. */
  function IndexOfCode(pending: seq<ParsedHolding>, code: string): (r: Option<nat>)
    ensures r.None? <==> forall k :: 0 <= k < |pending| ==> pending[k].code != code
    ensures r.Some? ==> r.value < |pending| && pending[r.value].code == code
  {
    if pending == [] then None
    else if pending[0].code == code then Some(0)
    else match IndexOfCode(pending[1..], code)
      case None => None
      case Some(k) => Some(k + 1)
  }

  /** `!existing.shares`: no shares yet, or zero shares. */
  predicate NoShares(shares: Option<real>) {
    shares.None? || shares == Some(0.0)
  }

  /** The line of a code already in the table: its first digits-and-commas number may
      become the shares of that holding, and nothing else changes. */
  function UpdateShares(pending: seq<ParsedHolding>, k: nat, rest: string): (r: seq<ParsedHolding>)
    requires k < |pending|
    ensures |r| == |pending|
    ensures forall j :: 0 <= j < |r| && j != k ==> r[j] == pending[j]
    ensures r[k] == pending[k]
         || (&& r[k].shares.Some?
             && r[k] == pending[k].(shares := r[k].shares)
             && NoShares(pending[k].shares)
             && 0.0 < r[k].shares.value < 100000000.0
             && r[k].shares.value < pending[k].amount)
  {
    match SharesToken(rest)
    case None => pending
    case Some(token) =>
      match TokenValue(token)
      case None => pending
      case Some(v) =>
        if v > 0.0 && v < 100000000.0 && NoShares(pending[k].shares) && v < pending[k].amount
        then pending[k := pending[k].(shares := Some(v))]
        else pending
  }

  /** The amount and shares found for a new code: the amount is looked for on the line,
      then on the next line, then on the one after; shares only on the first two. */
  function ScanAround(lines: seq<string>, i: nat, rest: string): (r: Found)
    requires i < |lines|
    ensures r.shares.Some? ==> 0.0 < r.shares.value <= 1000.0
  {
    var f1 := Scan(Found(0.0, None), NumberTokens(rest));
    var f2 := if f1.amount == 0.0 && i + 1 < |lines| then Scan(f1, NumberTokens(Trim(lines[i + 1]))) else f1;
    var amount := if f2.amount == 0.0 && i + 2 < |lines| then LargeOr(NumberTokens(Trim(lines[i + 2])), f2.amount)
                  else f2.amount;
    Found(amount, f2.shares)
  }

  /** The holding a line with a new code yields: the scanned amount and shares, and the
      cleaned rest of the line as the name. Nothing comes of it when the name is shorter
      than 2 UTF-16 code units or the amount is outside (0, 100000000]. */
  function NewHolding(lines: seq<string>, i: nat, code: string, rest: string): (r: Option<ParsedHolding>)
    requires i < |lines|
    ensures r.Some? ==> r.value.code == code && r.value.kind == Fund
    ensures r.Some? ==> 0.0 < r.value.amount <= 100000000.0
    ensures r.Some? ==> Utf16Length(r.value.name) >= 2 && IsCleanName(r.value.name)
    ensures r.Some? && r.value.shares.Some? ==> r.value.shares.value > 0.0
  {
    var found := ScanAround(lines, i, rest);
    var name := CleanName(rest);
    if name == [] || Utf16Length(name) < 2 then None
    else if found.amount <= 0.0 || found.amount > 100000000.0 then None
    else Some(ParsedHolding(name, code, Fund, found.amount, found.shares))
  }

  /** What line `i` means independently of the table: nothing, or a code, the rest of
      the line, and the holding it would create were the code new. The source only builds
      that holding when the code is new; computing it ahead changes nothing, as it depends
      on the lines alone. */
  datatype Action = Skip | Coded(code: string, rest: string, candidate: Option<ParsedHolding>)

  /** What every action of a line satisfies. */
  predicate WellFormedAction(a: Action) {
    a.Coded? ==>
      && |a.code| == 6 && AllDigits(a.code)
      && (a.candidate.Some? ==> a.candidate.value.code == a.code && WellFormedHolding(a.candidate.value))
  }

  function LineAction(lines: seq<string>, keywords: seq<string>, i: nat): (r: Action)
    requires i < |lines|
    ensures WellFormedAction(r)
    ensures r.Coded? <==> CodeOf(Trim(lines[i]), keywords).Some?
    ensures r.Coded? ==> CodeOf(Trim(lines[i]), keywords) == Some(r.code)
    ensures IncludesAny(Trim(lines[i]), keywords) ==> r == Skip
  {
    match View(Trim(lines[i]), keywords)
    case None => Skip
    case Some(v) => Coded(v.code, v.rest, NewHolding(lines, i, v.code, v.rest))
  }

  /** The loop body: a known code may fill in shares; a new one appends its holding. The
      table never shrinks and grows by at most one. */
  function Apply(pending: seq<ParsedHolding>, a: Action): (r: seq<ParsedHolding>)
    ensures |pending| <= |r| <= |pending| + 1
  {
    match a
    case Skip => pending
    case Coded(code, rest, candidate) =>
      match IndexOfCode(pending, code)
      case Some(k) => UpdateShares(pending, k, rest)
      case None =>
        match candidate
        case None => pending
        case Some(h) => pending + [h]
  }

  /** The actions of all lines, computed from the lines alone. */
  function LineActions(lines: seq<string>, keywords: seq<string>): (r: seq<Action>)
    ensures |r| == |lines|
    ensures forall i :: 0 <= i < |lines| ==> r[i] == LineAction(lines, keywords, i)
  {
    seq(|lines|, i requires 0 <= i < |lines| => LineAction(lines, keywords, i))
  }

  /** The table after the first `n` actions. */
  function Run(actions: seq<Action>, n: nat): seq<ParsedHolding>
    requires n <= |actions|
  {
    if n == 0 then [] else Apply(Run(actions, n - 1), actions[n - 1])
  }

  /** `parseOCRText`'s result: the table's holdings in insertion order. Every one is well
      formed, and no two share a code. */
  function ParseOcr(text: string): (r: seq<ParsedHolding>)
    ensures WellFormedTable(r)
  {
    var lines := Lines(text);
    RunWellFormed(LineActions(lines, EXCLUDE_KEYWORDS), |lines|);
    Run(LineActions(lines, EXCLUDE_KEYWORDS), |lines|)
  }

  /** The three amount scans of the loop body. */
  method ReadAmount(lines: seq<string>, i: nat, rest: string) returns (found: Found)
    requires i < |lines|
    ensures found == ScanAround(lines, i, rest)
  {
    found := ScanTokens(NumberTokens(rest), Found(0.0, None));
    if found.amount == 0.0 && i + 1 < |lines| {
      found := ScanTokens(NumberTokens(Trim(lines[i + 1])), found);
    }
    if found.amount == 0.0 && i + 2 < |lines| {
      var amount := ScanLarge(NumberTokens(Trim(lines[i + 2])), found.amount);
      found := found.(amount := amount);
    }
  }

  /** The end of the loop body for a new code: the scans, the name, and the two checks
      that drop the line. */
  method ReadHolding(lines: seq<string>, i: nat, code: string, rest: string) returns (h: Option<ParsedHolding>)
    requires i < |lines|
    ensures h == NewHolding(lines, i, code, rest)
  {
    var found := ReadAmount(lines, i, rest);
    var name := CleanName(rest);
    if name == [] || Utf16Length(name) < 2 {
      return None;
    }
    if found.amount <= 0.0 || found.amount > 100000000.0 {
      return None;
    }
    h := Some(ParsedHolding(name, code, Fund, found.amount, found.shares));
  }

  /** The loop body for a line with a code: a known code may fill in shares, a new one
      appends its holding when the holding is accepted. */
  method ParseCoded(lines: seq<string>, i: nat, code: string, rest: string, pending: seq<ParsedHolding>)
    returns (next: seq<ParsedHolding>)
    requires i < |lines|
    ensures next == Apply(pending, Coded(code, rest, NewHolding(lines, i, code, rest)))
  {
    var known := IndexOfCode(pending, code);
    if known.Some? {
      return UpdateShares(pending, known.value, rest);
    }
    var holding := ReadHolding(lines, i, code, rest);
    if holding.None? {
      return pending;
    }
    next := pending + [holding.value];
  }

  /** The loop body for line `i`. */
  method ParseLine(lines: seq<string>, keywords: seq<string>, i: nat, pending: seq<ParsedHolding>)
    returns (next: seq<ParsedHolding>)
    requires i < |lines|
    ensures next == Apply(pending, LineAction(lines, keywords, i))
  {
    var view := View(Trim(lines[i]), keywords);
    if view.None? {
      return pending;
    }
    next := ParseCoded(lines, i, view.value.code, view.value.rest, pending);
  }

  /** The loop over the lines, with the keyword list of the filter. */
  method ParseLines(lines: seq<string>, keywords: seq<string>) returns (holdings: seq<ParsedHolding>)
    ensures holdings == Run(LineActions(lines, keywords), |lines|)
  {
    holdings := [];
    for i := 0 to |lines|
      invariant holdings == Run(LineActions(lines, keywords), i)
    {
      holdings := ParseLine(lines, keywords, i, holdings);
    }
  }

  /** `parseOCRText`. */
  method ParseOcrText(text: string) returns (holdings: seq<ParsedHolding>)
    ensures holdings == ParseOcr(text)
  {
    holdings := ParseLines(Lines(text), EXCLUDE_KEYWORDS);
  }

  // ---------------------------------------------------------------------------
  // What every result satisfies

  /** A stored holding: a six-digit code, an amount in (0, 100000000], a clean name at
      least two UTF-16 code units long, the type `fund`, and positive shares when there are any. */
  predicate WellFormedHolding(h: ParsedHolding) {
    && |h.code| == 6 && AllDigits(h.code)
    && 0.0 < h.amount <= 100000000.0
    && Utf16Length(h.name) >= 2 && IsCleanName(h.name)
    && h.kind == Fund
    && (h.shares.Some? ==> h.shares.value > 0.0)
  }

  predicate DistinctCodes(pending: seq<ParsedHolding>) {
    forall j, k :: 0 <= j < k < |pending| ==> pending[j].code != pending[k].code
  }

  predicate WellFormedTable(pending: seq<ParsedHolding>) {
    (forall k :: 0 <= k < |pending| ==> WellFormedHolding(pending[k])) && DistinctCodes(pending)
  }

  lemma ApplyKeepsWellFormed(pending: seq<ParsedHolding>, a: Action)
    requires WellFormedTable(pending) && WellFormedAction(a)
    ensures WellFormedTable(Apply(pending, a))
  {
    if a.Coded? {
      match IndexOfCode(pending, a.code)
      case Some(k) => UpdateKeepsWellFormed(pending, k, a.rest);
      case None =>
        if a.candidate.Some? {
          AppendKeepsWellFormed(pending, a.candidate.value);
        }
    }
  }

  /** Filling in shares changes one holding's shares, to a positive number, and nothing else. */
  lemma UpdateKeepsWellFormed(pending: seq<ParsedHolding>, k: nat, rest: string)
    requires WellFormedTable(pending) && k < |pending|
    ensures WellFormedTable(UpdateShares(pending, k, rest))
  {
    var r := UpdateShares(pending, k, rest);
    assert forall j :: 0 <= j < |r| ==> r[j].code == pending[j].code;
    assert WellFormedHolding(pending[k]);
  }

  /** Appending a well-formed holding with a new code keeps the table well formed. */
  lemma AppendKeepsWellFormed(pending: seq<ParsedHolding>, h: ParsedHolding)
    requires WellFormedTable(pending) && WellFormedHolding(h)
    requires forall k :: 0 <= k < |pending| ==> pending[k].code != h.code
    ensures WellFormedTable(pending + [h])
  {
    var r := pending + [h];
    assert forall k :: 0 <= k < |pending| ==> r[k] == pending[k];
  }

  lemma {:induction false} RunWellFormed(actions: seq<Action>, n: nat)
    requires n <= |actions|
    requires forall i :: 0 <= i < |actions| ==> WellFormedAction(actions[i])
    ensures WellFormedTable(Run(actions, n))
  {
    if n > 0 {
      RunWellFormed(actions, n - 1);
      ApplyKeepsWellFormed(Run(actions, n - 1), actions[n - 1]);
    }
  }

  // ---------------------------------------------------------------------------
  // What one line can do

  /** The table only grows at its end, by the candidate of a coded line; a stored holding
      keeps its name, code and amount, and at most has empty shares filled in. */
  lemma ApplyAppendsOrFillsShares(pending: seq<ParsedHolding>, a: Action)
    ensures var r := Apply(pending, a);
      && |pending| <= |r| <= |pending| + 1
      && (forall k :: 0 <= k < |pending| ==> r[k] == pending[k].(shares := r[k].shares))
      && (forall k :: 0 <= k < |pending| && r[k].shares != pending[k].shares ==> NoShares(pending[k].shares))
      && (|r| > |pending| ==> a.Coded? && a.candidate == Some(r[|pending|]))
  {
    var r := Apply(pending, a);
    match a
    case Skip =>
    case Coded(code, rest, candidate) =>
      match IndexOfCode(pending, code)
      case Some(k) =>
      case None =>
        match candidate
        case None =>
        case Some(h) =>
          assert forall k :: 0 <= k < |pending| ==> r[k] == pending[k];
  }

  /** A line with an excluded keyword changes nothing (it may still be read ahead for
      the amount of an earlier line). */
  lemma ExcludedLineIgnored(lines: seq<string>, keywords: seq<string>, i: nat)
    requires i < |lines| && IncludesAny(Trim(lines[i]), keywords)
    ensures Run(LineActions(lines, keywords), i + 1) == Run(LineActions(lines, keywords), i)
  {
    assert LineActions(lines, keywords)[i] == Skip;
  }

  /** A line whose code is already stored sets only those shares, and only when they were
      empty, the number is in (0, 100000000) and below the stored amount. */
  lemma KnownCodeSetsOnlyShares(pending: seq<ParsedHolding>, a: Action, k: nat)
    requires k < |pending| && DistinctCodes(pending)
    requires a.Coded? && a.code == pending[k].code
    ensures var r := Apply(pending, a);
      && |r| == |pending|
      && (forall j :: 0 <= j < |r| && j != k ==> r[j] == pending[j])
      && (r[k] == pending[k]
          || (&& r[k].shares.Some?
              && r[k] == pending[k].(shares := r[k].shares)
              && NoShares(pending[k].shares)
              && 0.0 < r[k].shares.value < 100000000.0
              && r[k].shares.value < pending[k].amount))
  {
    var found := IndexOfCode(pending, a.code);
    assert found.Some?;
    assert found.value == k;
  }

  /** Each stored code is the code of one of the first `n` actions. */
  predicate CodesFromActions(actions: seq<Action>, n: nat, pending: seq<ParsedHolding>)
    requires n <= |actions|
  {
    forall k :: 0 <= k < |pending| ==>
      exists j :: 0 <= j < n && actions[j].Coded? && actions[j].code == pending[k].code
  }

  lemma {:induction false} RunCodesFromActions(actions: seq<Action>, n: nat)
    requires n <= |actions|
    requires forall i :: 0 <= i < |actions| ==> WellFormedAction(actions[i])
    ensures CodesFromActions(actions, n, Run(actions, n))
  {
    if n > 0 {
      var before := Run(actions, n - 1);
      var a := actions[n - 1];
      var r := Apply(before, a);
      RunCodesFromActions(actions, n - 1);
      ApplyAppendsOrFillsShares(before, a);
      forall k | 0 <= k < |r|
        ensures exists j :: 0 <= j < n && actions[j].Coded? && actions[j].code == r[k].code
      {
        if k < |before| {
          var j :| 0 <= j < n - 1 && actions[j].Coded? && actions[j].code == before[k].code;
          assert r[k].code == before[k].code;
        } else {
          assert a.Coded? && a.candidate == Some(r[k]) && WellFormedAction(a);
          assert actions[n - 1].code == r[k].code;
        }
      }
    }
  }

  /** Each returned code is the first six-digit run of one of the text's lines. */
  lemma ParseCodesFromLines(text: string, k: nat)
    requires k < |ParseOcr(text)|
    ensures exists j :: 0 <= j < |Lines(text)| && CodeOf(Trim(Lines(text)[j]), EXCLUDE_KEYWORDS) == Some(ParseOcr(text)[k].code)
  {
    var lines := Lines(text);
    var actions := LineActions(lines, EXCLUDE_KEYWORDS);
    RunCodesFromActions(actions, |lines|);
    var j :| 0 <= j < |lines| && actions[j].Coded? && actions[j].code == ParseOcr(text)[k].code;
    assert actions[j] == LineAction(lines, EXCLUDE_KEYWORDS, j);
  }

  /** The holdings after each action start with the holdings before it: the output order
      is the order in which codes were first accepted. */
  lemma {:induction false} RunPrefix(actions: seq<Action>, m: nat, n: nat)
    requires m <= n <= |actions|
    ensures |Run(actions, m)| <= |Run(actions, n)|
    ensures forall k :: 0 <= k < |Run(actions, m)| ==>
      Run(actions, n)[k] == Run(actions, m)[k].(shares := Run(actions, n)[k].shares)
    decreases n - m
  {
    if m < n {
      var before := Run(actions, m);
      var next := Run(actions, m + 1);
      var last := Run(actions, n);
      ApplyAppendsOrFillsShares(before, actions[m]);
      RunPrefix(actions, m + 1, n);
      forall k | 0 <= k < |before|
        ensures last[k] == before[k].(shares := last[k].shares)
      {
        assert next[k] == before[k].(shares := next[k].shares);
      }
    }
  }
}
