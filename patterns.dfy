/**
 * Explicit matchers for the regular expressions of `extract_fedex_data`.
 * `\d` is an ASCII digit and `\b` a boundary between a word character
 * (`Text.IsWordChar`) and a non-word character or an end of the line.
 * `re.search` is the leftmost position at which a pattern matches
 * (`FirstMatch`); `re.findall` scans left to right and resumes after
 * each match.
 */
module Patterns {
  import opened Wrappers
  import opened Text

  /** The leftmost position from `from` on at which `at` holds. */
  function FirstMatch(s: string, from: nat, at: (string, nat) -> bool): (r: Option<nat>)
    ensures r.Some? ==> from <= r.value < |s| && at(s, r.value)
                        && forall q :: from <= q < r.value ==> !at(s, q)
    ensures r.None? ==> forall q :: from <= q < |s| ==> !at(s, q)
    decreases |s| - from
  {
    if from >= |s| then None
    else if at(s, from) then Some(from)
    else FirstMatch(s, from + 1, at)
  }

  // ------------------------------------------------ (\d{2}/\d{2}/\d{4})

  predicate IsShipDate(d: string) {
    |d| == 10 && AllDigits(d[0..2]) && d[2] == '/' && AllDigits(d[3..5])
    && d[5] == '/' && AllDigits(d[6..10])
  }

  predicate ShipDateAt(s: string, p: nat) {
    p + 10 <= |s| && IsShipDate(s[p..p + 10])
  }

  /** The first `DD/DD/DDDD` on the line, or empty when there is none. */
  function FirstShipDate(s: string): (d: string)
    ensures d == "" || IsShipDate(d)
  {
    match FirstMatch(s, 0, ShipDateAt)
    case Some(p) => s[p..p + 10]
    case None => ""
  }

  /** The date is the leftmost one, and empty only when there is none. */
  lemma FirstShipDateIsLeftmost(s: string)
    ensures FirstShipDate(s) == "" <==> forall p :: 0 <= p < |s| ==> !ShipDateAt(s, p)
    ensures FirstShipDate(s) != "" ==>
              exists p :: 0 <= p < |s| && ShipDateAt(s, p) && FirstShipDate(s) == s[p..p + 10]
                          && forall q :: 0 <= q < p ==> !ShipDateAt(s, q)
  {
    var m := FirstMatch(s, 0, ShipDateAt);
    if m.Some? {
      assert ShipDateAt(s, m.value) && FirstShipDate(s) == s[m.value..m.value + 10];
    }
  }

  // ------------------------------------------------------------ (\d{12})

  predicate IsWaybill(w: string) { |w| == 12 && AllDigits(w) }

  predicate WaybillAt(s: string, p: nat) {
    p + 12 <= |s| && IsWaybill(s[p..p + 12])
  }

  /** The first twelve consecutive digits on the line (the first twelve
      of a longer run), or empty when there are none. */
  function FirstWaybill(s: string): (w: string)
    ensures w == "" || IsWaybill(w)
  {
    match FirstMatch(s, 0, WaybillAt)
    case Some(p) => s[p..p + 12]
    case None => ""
  }

  /** The waybill number is the leftmost twelve digits, and empty only
      when the line has no twelve digits in a row. */
  lemma FirstWaybillIsLeftmost(s: string)
    ensures FirstWaybill(s) == "" <==> forall p :: 0 <= p < |s| ==> !WaybillAt(s, p)
    ensures FirstWaybill(s) != "" ==>
              exists p :: 0 <= p < |s| && WaybillAt(s, p) && FirstWaybill(s) == s[p..p + 12]
                          && forall q :: 0 <= q < p ==> !WaybillAt(s, q)
  {
    var m := FirstMatch(s, 0, WaybillAt);
    if m.Some? {
      assert WaybillAt(s, m.value) && FirstWaybill(s) == s[m.value..m.value + 12];
    }
  }

  // --------------------------------------------------------------- \d{4}

  predicate IsFourDigits(t: string) { |t| == 4 && AllDigits(t) }

  predicate FourDigitsAt(s: string, p: nat) {
    p + 4 <= |s| && IsFourDigits(s[p..p + 4])
  }

  /** `re.findall(r'\d{4}', s[from..])`: four digits at a time, also
      inside longer runs of digits. */
  function FindAllFourDigits(s: string, from: nat): (found: seq<string>)
    ensures forall k :: 0 <= k < |found| ==> IsFourDigits(found[k])
    decreases |s| - from
  {
    if from + 4 > |s| then []
    else if FourDigitsAt(s, from) then [s[from..from + 4]] + FindAllFourDigits(s, from + 4)
    else FindAllFourDigits(s, from + 1)
  }

  lemma {:induction false} FourDigitsFound(s: string, from: nat)
    ensures FindAllFourDigits(s, from) != [] <==> exists p :: from <= p && FourDigitsAt(s, p)
    decreases |s| - from
  {
    if from + 4 <= |s| && !FourDigitsAt(s, from) {
      FourDigitsFound(s, from + 1);
      assert forall p :: from <= p && FourDigitsAt(s, p) ==> from + 1 <= p;
    }
  }

  lemma FourDigitsAreDigits(s: string, p: nat)
    requires FourDigitsAt(s, p)
    ensures forall k :: p <= k < p + 4 ==> IsDigit(s[k])
  {
    assert forall k :: p <= k < p + 4 ==> s[k] == s[p..p + 4][k - p];
  }

  lemma DigitsAreFour(s: string, p: nat)
    requires p + 4 <= |s| && forall k :: p <= k < p + 4 ==> IsDigit(s[k])
    ensures FourDigitsAt(s, p)
  {
    var w := s[p..p + 4];
    assert forall k :: 0 <= k < 4 ==> w[k] == s[p + k];
  }

  /** Where four digits do not start, but three digits follow, the
      character there is not a digit. */
  lemma NoMatchBeforeDigits(s: string, p: nat)
    requires p + 4 <= |s| && !FourDigitsAt(s, p)
    requires forall k :: p + 1 <= k < p + 4 ==> IsDigit(s[k])
    ensures !IsDigit(s[p])
  {
    var w := s[p..p + 4];
    assert forall k :: 0 <= k < 4 ==> w[k] == s[p + k];
  }

  /** `p` is in step with a scan that enters the digit run holding it at
      `r` (the start of the run, or `from` when the run began earlier):
      the digits from `r` to `p + 4` are split into whole matches. */
  predicate ScanPhase(s: string, from: nat, r: nat, p: nat) {
    from <= r <= p && p + 4 <= |s|
    && (r == from || !IsDigit(s[r - 1]))
    && (forall k :: r <= k < p + 4 ==> IsDigit(s[k]))
    && (p - r) % 4 == 0
  }

  /** The last match found lies in step with the scan, and no `\d{4}`
      starts after it: the scan resumes after that match and finds
      nothing more. This is the match the Tendered rule takes, and
      `LastMatchUnique` shows that these facts fix it. */
  lemma {:induction false} LastFourDigits(s: string, from: nat)
    requires FindAllFourDigits(s, from) != []
    ensures var found := FindAllFourDigits(s, from);
            exists r: nat, p: nat :: ScanPhase(s, from, r, p) && found[|found| - 1] == s[p..p + 4]
                           && forall q :: p + 4 <= q ==> !FourDigitsAt(s, q)
    decreases |s| - from
  {
    var found := FindAllFourDigits(s, from);
    if FourDigitsAt(s, from) {
      var rest := FindAllFourDigits(s, from + 4);
      if rest == [] {
        FourDigitsFound(s, from + 4);
        FourDigitsAreDigits(s, from);
        assert ScanPhase(s, from, from, from);
        assert found[|found| - 1] == s[from..from + 4];
      } else {
        LastFourDigits(s, from + 4);
        var r: nat, p: nat :| ScanPhase(s, from + 4, r, p) && rest[|rest| - 1] == s[p..p + 4]
                    && forall q :: p + 4 <= q ==> !FourDigitsAt(s, q);
        assert found[|found| - 1] == rest[|rest| - 1];
        if r == from + 4 {
          FourDigitsAreDigits(s, from);
          assert ScanPhase(s, from, from, p);
        } else {
          assert ScanPhase(s, from, r, p);
        }
      }
    } else {
      LastFourDigits(s, from + 1);
      var r: nat, p: nat :| ScanPhase(s, from + 1, r, p) && found[|found| - 1] == s[p..p + 4]
                  && forall q :: p + 4 <= q ==> !FourDigitsAt(s, q);
      if r == from + 1 {
        NoMatchBeforeDigits(s, from);
      }
      assert ScanPhase(s, from, r, p);
    }
  }

  /** Only one position meets the facts `LastFourDigits` states. */
  lemma LastMatchUnique(s: string, from: nat, r1: nat, p1: nat, r2: nat, p2: nat)
    requires ScanPhase(s, from, r1, p1) && forall q :: p1 + 4 <= q ==> !FourDigitsAt(s, q)
    requires ScanPhase(s, from, r2, p2) && forall q :: p2 + 4 <= q ==> !FourDigitsAt(s, q)
    ensures p1 == p2
  {
    DigitsAreFour(s, p1);
    DigitsAreFour(s, p2);
    assert p1 < p2 + 4 && p2 < p1 + 4;
    assert r1 == r2;
  }

  // ------------------------------------------------------- \b(\d{4})\b

  predicate FourDigitTokenAt(s: string, p: nat) {
    FourDigitsAt(s, p)
    && (p == 0 || !IsWordChar(s[p - 1]))
    && (p + 4 == |s| || !IsWordChar(s[p + 4]))
  }

  /** `re.findall(r'\b(\d{4})\b', s[from..])`. */
  function FourDigitTokens(s: string, from: nat): (found: seq<string>)
    ensures forall k :: 0 <= k < |found| ==> IsFourDigits(found[k])
    decreases |s| - from
  {
    if from + 4 > |s| then []
    else if FourDigitTokenAt(s, from) then [s[from..from + 4]] + FourDigitTokens(s, from + 4)
    else FourDigitTokens(s, from + 1)
  }

  /** Two tokens cannot overlap: the one further right would follow a digit. */
  lemma TokensApart(s: string, p: nat, q: nat)
    requires FourDigitTokenAt(s, p) && p < q < p + 4
    ensures !FourDigitTokenAt(s, q)
  {
    assert s[q - 1] == s[p..p + 4][q - 1 - p];
  }

  /** The first token found is the one at the leftmost token position,
      and none is found exactly when there is no token position. */
  lemma {:induction false} FirstFourDigitToken(s: string, from: nat)
    ensures match FirstMatch(s, from, FourDigitTokenAt)
            case None => FourDigitTokens(s, from) == []
            case Some(p) => FourDigitTokens(s, from) != [] && FourDigitTokens(s, from)[0] == s[p..p + 4]
    decreases |s| - from
  {
    if from + 4 > |s| {
      assert FirstMatch(s, from, FourDigitTokenAt).None?;
    } else if !FourDigitTokenAt(s, from) {
      FirstFourDigitToken(s, from + 1);
    }
  }

  /** The last token found is at the rightmost token position. */
  lemma {:induction false} LastFourDigitToken(s: string, from: nat)
    requires FourDigitTokens(s, from) != []
    ensures var found := FourDigitTokens(s, from);
            exists p :: from <= p && FourDigitTokenAt(s, p) && found[|found| - 1] == s[p..p + 4]
                        && forall q :: p < q ==> !FourDigitTokenAt(s, q)
    decreases |s| - from
  {
    var found := FourDigitTokens(s, from);
    if FourDigitTokenAt(s, from) {
      var rest := FourDigitTokens(s, from + 4);
      if rest == [] {
        FirstFourDigitToken(s, from + 4);
        forall q | from < q
          ensures !FourDigitTokenAt(s, q)
        {
          if q < from + 4 { TokensApart(s, from, q); }
        }
        assert found[|found| - 1] == s[from..from + 4];
      } else {
        LastFourDigitToken(s, from + 4);
        assert found[|found| - 1] == rest[|rest| - 1];
      }
    } else {
      LastFourDigitToken(s, from + 1);
    }
  }

  // ---------------------------------------------- \d{5,}|/\d{4}|\d{4}/

  predicate RejectAt(s: string, p: nat) {
    (p + 5 <= |s| && AllDigits(s[p..p + 5]))
    || (p < |s| && s[p] == '/' && FourDigitsAt(s, p + 1))
    || (FourDigitsAt(s, p) && p + 4 < |s| && s[p + 4] == '/')
  }

  /** The line holds a run of five or more digits, or four digits right
      after or right before a slash. */
  predicate HasRejectedRun(s: string) {
    exists p :: 0 <= p < |s| && RejectAt(s, p)
  }

  // ------------------------------------- \bTotal\b.*\d+\.?\d{2}, ignoring case

  function LowerAscii(c: char): char {
    if 'A' <= c <= 'Z' then (c as int + 32) as char else c
  }

  predicate IsTotalWordAt(s: string, p: nat) {
    p + 5 <= |s|
    && LowerAscii(s[p]) == 't' && LowerAscii(s[p + 1]) == 'o' && LowerAscii(s[p + 2]) == 't'
    && LowerAscii(s[p + 3]) == 'a' && LowerAscii(s[p + 4]) == 'l'
    && (p == 0 || !IsWordChar(s[p - 1]))
    && (p + 5 == |s| || !IsWordChar(s[p + 5]))
  }

  /** The last digit of `\d+` at `r`, then `\.?\d{2}`. */
  predicate NumberTailAt(s: string, r: nat) {
    r + 3 <= |s| && IsDigit(s[r])
    && ((IsDigit(s[r + 1]) && IsDigit(s[r + 2]))
        || (r + 4 <= |s| && s[r + 1] == '.' && IsDigit(s[r + 2]) && IsDigit(s[r + 3])))
  }

  /** `re.search(r'\bTotal\b.*\d+\.?\d{2}', s, re.IGNORECASE)` succeeds.
      A match of `\d+\.?\d{2}` exists from some position after the word
      exactly when some digit there is followed by `\.?\d{2}`; `.` does
      not cross a line feed. */
  predicate IsTotalLine(s: string) {
    exists p, r :: 0 <= p && p + 5 <= r < |s| && IsTotalWordAt(s, p) && NumberTailAt(s, r)
                   && '\n' !in s[p + 5..r]
  }

  // ------------------------------------------------------ ([\d,]+\.?\d{2})

  predicate IsDigitOrComma(c: char) { IsDigit(c) || c == ',' }

  predicate IsAmountChar(c: char) { IsDigitOrComma(c) || c == '.' }

  /** The end of the run of digits and commas starting at `q`. */
  function DigitCommaRunEnd(s: string, q: nat): (e: nat)
    requires q <= |s|
    ensures q <= e <= |s|
    ensures forall k :: q <= k < e ==> IsDigitOrComma(s[k])
    ensures e == |s| || !IsDigitOrComma(s[e])
    decreases |s| - q
  {
    if q == |s| || !IsDigitOrComma(s[q]) then q else DigitCommaRunEnd(s, q + 1)
  }

  predicate DigitPairAt(s: string, k: int) {
    0 <= k && k + 2 <= |s| && IsDigit(s[k]) && IsDigit(s[k + 1])
  }

  /** The end of the rightmost pair of digits starting in `lo..hi`. */
  function LastDigitPair(s: string, lo: nat, hi: int): (e: Option<nat>)
    ensures e.Some? ==> lo + 2 <= e.value <= hi + 2 && DigitPairAt(s, e.value - 2)
                        && forall k :: e.value - 2 < k <= hi ==> !DigitPairAt(s, k)
    ensures e.None? ==> forall k :: lo <= k <= hi ==> !DigitPairAt(s, k)
    decreases hi + 1 - lo
  {
    if hi < lo then None
    else if DigitPairAt(s, hi) then Some(hi + 2)
    else LastDigitPair(s, lo, hi - 1)
  }

  /** Where the match of `[\d,]+\.?\d{2}` starting at `q` ends, with the
      backtracking of the regular-expression engine: `[\d,]+` takes the
      whole run and `\.?` prefers the dot; failing that, the run gives
      back characters until two digits end the match. */
  function AmountEnd(s: string, q: nat): (e: Option<nat>)
    ensures e.Some? ==> q + 3 <= e.value <= |s| && EndsInTwoDigits(s[q..e.value])
                        && forall k :: q <= k < e.value ==> IsAmountChar(s[k])
  {
    if q >= |s| then None
    else
      var run := DigitCommaRunEnd(s, q);
      if run == q then None
      else if run + 3 <= |s| && s[run] == '.' && IsDigit(s[run + 1]) && IsDigit(s[run + 2]) then
        Some(run + 3)
      else LastDigitPair(s, q + 1, run - 2)
  }

  predicate AmountAt(s: string, q: nat) { AmountEnd(s, q).Some? }

  /** A match of `[\d,]+\.?\d{2}` read off the pattern: `[\d,]+` covers
      `q..m-1`, then either a dot and two digits end the match at `m + 3`,
      or two digits end it at `m + 2`. */
  predicate AmountMatch(s: string, q: nat, m: nat, e: nat) {
    q < m <= |s| && (forall k :: q <= k < m ==> IsDigitOrComma(s[k]))
    && ((e == m + 3 && e <= |s| && s[m] == '.' && IsDigit(s[m + 1]) && IsDigit(s[m + 2]))
        || (e == m + 2 && DigitPairAt(s, m)))
  }

  /** Every match at `q` stays within the run of digits and commas from
      `q`: either `[\d,]+` is that whole run and a dot follows, or it
      stops at least two characters short, on a pair of digits. */
  lemma MatchWithinRun(s: string, q: nat, m: nat, e: nat)
    requires q < |s| && AmountMatch(s, q, m, e)
    ensures var run := DigitCommaRunEnd(s, q);
            q < run && m <= run
            && (m == run ==> e == run + 3 && e <= |s| && s[run] == '.' && IsDigit(s[run + 1]) && IsDigit(s[run + 2]))
            && (m < run ==> q + 1 <= m <= run - 2 && DigitPairAt(s, m) && e == m + 2)
  {
  }

  /** `AmountEnd` is the match the engine picks: the pattern matches at
      `q` exactly when some `AmountMatch` starts there, and the chosen one
      has the longest `[\d,]+` part; no other match shares that part. */
  lemma AmountEndIsLongestMatch(s: string, q: nat)
    ensures AmountAt(s, q) <==> exists m: nat, e: nat :: AmountMatch(s, q, m, e)
    ensures AmountAt(s, q) ==>
              exists m: nat :: AmountMatch(s, q, m, AmountEnd(s, q).value)
                          && forall m': nat, e': nat :: AmountMatch(s, q, m', e') ==> m' < m || e' == AmountEnd(s, q).value
  {
    if q < |s| {
      var run := DigitCommaRunEnd(s, q);
      if run == q {
        forall m': nat, e': nat | AmountMatch(s, q, m', e')
          ensures false
        {
          MatchWithinRun(s, q, m', e');
        }
      } else if run + 3 <= |s| && s[run] == '.' && IsDigit(s[run + 1]) && IsDigit(s[run + 2]) {
        assert AmountEnd(s, q) == Some(run + 3);
        assert AmountMatch(s, q, run, run + 3);
        forall m': nat, e': nat | AmountMatch(s, q, m', e')
          ensures m' < run || e' == run + 3
        {
          MatchWithinRun(s, q, m', e');
        }
      } else {
        var last := LastDigitPair(s, q + 1, run - 2);
        assert AmountEnd(s, q) == last;
        forall m': nat, e': nat | AmountMatch(s, q, m', e')
          ensures last.Some? && (m' < last.value - 2 || e' == last.value)
        {
          MatchWithinRun(s, q, m', e');
        }
        if last.Some? {
          assert AmountMatch(s, q, last.value - 2, last.value);
        }
      }
    }
  }

  /** `re.search(r'([\d,]+\.?\d{2})', s).group(1)`, or empty when there
      is no match. */
  function FirstAmount(s: string): (a: string)
    ensures a != "" ==> EndsInTwoDigits(a) && forall k :: 0 <= k < |a| ==> IsAmountChar(a[k])
  {
    match FirstMatch(s, 0, AmountAt)
    case Some(q) => s[q..AmountEnd(s, q).value]
    case None => ""
  }

  /** The amount is the match at the leftmost position where the amount
      pattern matches, and empty only when it matches nowhere. */
  lemma FirstAmountIsLeftmost(s: string)
    ensures FirstAmount(s) == "" <==> forall q :: 0 <= q < |s| ==> !AmountAt(s, q)
    ensures FirstAmount(s) != "" ==>
              exists q :: 0 <= q < |s| && AmountAt(s, q) && FirstAmount(s) == s[q..AmountEnd(s, q).value]
                          && forall q' :: 0 <= q' < q ==> !AmountAt(s, q')
  {
    var m := FirstMatch(s, 0, AmountAt);
    if m.Some? {
      var q := m.value;
      assert AmountAt(s, q) && FirstAmount(s) == s[q..AmountEnd(s, q).value];
    }
  }

  /** The amount in the pattern's own terms: it is empty exactly when
      `[\d,]+\.?\d{2}` matches nowhere; otherwise it is a match at the
      leftmost position where one starts, and has the longest `[\d,]+`
      part of the matches there. */
  lemma FirstAmountIsPatternMatch(s: string)
    ensures FirstAmount(s) == "" <==> forall q: nat, m: nat, e: nat :: !AmountMatch(s, q, m, e)
    ensures FirstAmount(s) != "" ==>
              exists q: nat, m: nat, e: nat :: AmountMatch(s, q, m, e) && FirstAmount(s) == s[q..e]
                && (forall q': nat, m': nat, e': nat :: q' < q ==> !AmountMatch(s, q', m', e'))
                && (forall m': nat, e': nat :: AmountMatch(s, q, m', e') ==> m' < m || e' == e)
  {
    match FirstMatch(s, 0, AmountAt)
    case Some(q) =>
      AmountEndIsLongestMatch(s, q);
      var e := AmountEnd(s, q).value;
      var m: nat :| AmountMatch(s, q, m, e)
                    && forall m': nat, e': nat :: AmountMatch(s, q, m', e') ==> m' < m || e' == e;
      forall q': nat, m': nat, e': nat | q' < q && AmountMatch(s, q', m', e')
        ensures false
      {
        AmountEndIsLongestMatch(s, q');
      }
    case None =>
      forall q: nat, m: nat, e: nat | AmountMatch(s, q, m, e)
        ensures false
      {
        AmountEndIsLongestMatch(s, q);
      }
  }

  /** A line that matches the Total pattern always yields an amount: the
      digits after the word are themselves a match of the amount pattern. */
  lemma TotalLineHasAmount(s: string)
    requires IsTotalLine(s)
    ensures FirstAmount(s) != ""
  {
    var p, r :| 0 <= p && p + 5 <= r < |s| && IsTotalWordAt(s, p) && NumberTailAt(s, r)
                && '\n' !in s[p + 5..r];
    if s[r + 1] == '.' {
      assert AmountMatch(s, r, r + 1, r + 4);
    } else {
      assert AmountMatch(s, r, r + 1, r + 3);
    }
    FirstAmountIsPatternMatch(s);
  }
}
