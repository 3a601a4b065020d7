/**
 * The string operations of Python that the extractor relies on:
 * character classes, `str.strip`, `str.split('\n')`, `str.split()`,
 * `str.startswith`, the `in` substring operator and `str.replace(',', '')`.
 * Whitespace and word characters are restricted to ASCII.
 */
module Text {

  predicate IsDigit(c: char) { '0' <= c <= '9' }

  predicate IsLetter(c: char) { 'a' <= c <= 'z' || 'A' <= c <= 'Z' }

  /** The characters `\w` matches: letters, digits and the underscore. */
  predicate IsWordChar(c: char) { IsDigit(c) || IsLetter(c) || c == '_' }

  /** Python's ASCII whitespace: tab, line feed, vertical tab, form feed,
      carriage return, the separators 0x1C-0x1F and the space. */
  predicate IsSpace(c: char) { '\t' <= c <= '\r' || '\U{1C}' <= c <= ' ' }

  predicate AllDigits(s: string) { forall k :: 0 <= k < |s| ==> IsDigit(s[k]) }

  predicate StartsWith(s: string, prefix: string) {
    |prefix| <= |s| && s[..|prefix|] == prefix
  }

  predicate SubstringAt(s: string, sub: string, p: nat) {
    p + |sub| <= |s| && s[p..p + |sub|] == sub
  }

  /** Python's `sub in s`. */
  predicate Contains(s: string, sub: string) {
    exists p :: 0 <= p <= |s| && SubstringAt(s, sub, p)
  }

  // ---------------------------------------------------------------- strip

  /** Drops the leading whitespace. */
  function TrimStart(s: string): (r: string)
    ensures |r| <= |s| && r == s[|s| - |r|..]
    ensures forall k :: 0 <= k < |s| - |r| ==> IsSpace(s[k])
    ensures r == [] || !IsSpace(r[0])
  {
    if s != [] && IsSpace(s[0]) then TrimStart(s[1..]) else s
  }

  /** Drops the trailing whitespace. */
  function TrimEnd(s: string): (r: string)
    ensures |r| <= |s| && r == s[..|r|]
    ensures forall k :: |r| <= k < |s| ==> IsSpace(s[k])
    ensures r == [] || !IsSpace(r[|r| - 1])
  {
    if s != [] && IsSpace(s[|s| - 1]) then TrimEnd(s[..|s| - 1]) else s
  }

  /** `r` is `s` with the whitespace before position `a` and after
      position `a + |r|` cut off. */
  predicate PaddedBy(s: string, r: string, a: nat) {
    a + |r| <= |s| && r == s[a..a + |r|]
    && (forall k :: 0 <= k < a ==> IsSpace(s[k]))
    && (forall k :: a + |r| <= k < |s| ==> IsSpace(s[k]))
  }

  /** Python's `s.strip()`: the result is the middle of `s` once all
      whitespace at either end is removed; it is empty exactly when `s`
      is all whitespace. */
  function Strip(s: string): (r: string)
    ensures r == [] || (!IsSpace(r[0]) && !IsSpace(r[|r| - 1]))
    ensures r == [] <==> forall k :: 0 <= k < |s| ==> IsSpace(s[k])
  {
    TrimEnd(TrimStart(s))
  }

  /** What `Strip` removes is whitespace at the two ends, nothing else. */
  lemma StripPadded(s: string)
    ensures exists a: nat :: PaddedBy(s, Strip(s), a)
  {
    var t := TrimStart(s);
    var r := TrimEnd(t);
    TrimsPad(s, t, r);
    assert Strip(s) == r;
  }

  /** Cutting whitespace from the front and then from the back pads. */
  lemma TrimsPad(s: string, t: string, r: string)
    requires |t| <= |s| && t == s[|s| - |t|..] && forall k :: 0 <= k < |s| - |t| ==> IsSpace(s[k])
    requires |r| <= |t| && r == t[..|r|] && forall k :: |r| <= k < |t| ==> IsSpace(t[k])
    ensures PaddedBy(s, r, |s| - |t|)
  {
    var a := |s| - |t|;
    forall k | a + |r| <= k < |s|
      ensures IsSpace(s[k])
    {
      assert s[k] == t[k - a];
    }
  }

  /** A string with no whitespace at either end is its own strip. */
  lemma StripOfStripped(s: string)
    requires s == [] || (!IsSpace(s[0]) && !IsSpace(s[|s| - 1]))
    ensures Strip(s) == s
  {
    var r := Strip(s);
    StripPadded(s);
    var a: nat :| PaddedBy(s, r, a);
    if s != [] {
      assert !IsSpace(s[0]) && !IsSpace(s[|s| - 1]);
      assert a == 0 && |r| == |s|;
    }
  }

  /** Stripping twice is stripping once. */
  lemma StripIdempotent(s: string)
    ensures Strip(Strip(s)) == Strip(s)
  {
    StripOfStripped(Strip(s));
  }

  // ------------------------------------------------- sequence facts

  lemma ConsParts<T>(x: T, rest: seq<T>)
    ensures ([x] + rest)[0] == x && ([x] + rest)[1..] == rest && [x] + [] == [x]
  {
  }

  lemma SplitHead<T>(p: seq<T>, q: seq<T>)
    requires p != []
    ensures p == [p[0]] + p[1..] && p + q == [p[0]] + (p[1..] + q)
  {
  }

  lemma AppendAssoc<T>(a: seq<T>, b: seq<T>, c: seq<T>)
    ensures a + (b + c) == (a + b) + c
  {
  }

  lemma LastTwo<T>(xs: seq<T>)
    requires |xs| >= 2
    ensures xs[|xs| - 2..] == [xs[|xs| - 2]] + [xs[|xs| - 1]]
  {
  }

  // ------------------------------------------------------- split on '\n'

  /** Python's `s.split('\n')`: always at least one piece, and no piece
      holds a line feed. */
  function SplitLines(s: string): (pieces: seq<string>)
    ensures |pieces| >= 1
    ensures forall k :: 0 <= k < |pieces| ==> '\n' !in pieces[k]
  {
    if s == [] then [""]
    else
      var rest := SplitLines(s[1..]);
      if s[0] == '\n' then [""] + rest
      else [[s[0]] + rest[0]] + rest[1..]
  }

  /** Text made only of whitespace splits into whitespace-only pieces. */
  lemma {:induction false} SplitLinesOfBlank(s: string)
    requires forall k :: 0 <= k < |s| ==> IsSpace(s[k])
    ensures forall j, k :: 0 <= j < |SplitLines(s)| && 0 <= k < |SplitLines(s)[j]| ==> IsSpace(SplitLines(s)[j][k])
  {
    if s != [] {
      SplitLinesOfBlank(s[1..]);
      var rest := SplitLines(s[1..]);
      if s[0] != '\n' {
        var first := [s[0]] + rest[0];
        assert forall k :: 0 <= k < |first| ==> IsSpace(first[k]);
      }
    }
  }

  /** Python's `'\n'.join(pieces)`, the inverse of `SplitLines`. */
  function JoinLines(pieces: seq<string>): string
    requires |pieces| >= 1
  {
    if |pieces| == 1 then pieces[0] else pieces[0] + "\n" + JoinLines(pieces[1..])
  }

  lemma {:induction false} JoinSplitLines(s: string)
    ensures JoinLines(SplitLines(s)) == s
  {
    if s != [] {
      JoinSplitLines(s[1..]);
      var rest := SplitLines(s[1..]);
      if s[0] == '\n' {
        assert SplitLines(s)[1..] == rest;
      } else {
        if |rest| == 1 {
          assert JoinLines(SplitLines(s)) == [s[0]] + rest[0];
        } else {
          assert SplitLines(s)[1..] == rest[1..];
          assert JoinLines(rest) == rest[0] + "\n" + JoinLines(rest[1..]);
          assert JoinLines(SplitLines(s)) == ([s[0]] + rest[0]) + "\n" + JoinLines(rest[1..]);
        }
      }
    }
  }

  /** Splitting a text that starts with a piece free of line feeds keeps
      that piece at the front of the first line. */
  lemma {:induction false} SplitLinesPrefix(p: string, t: string)
    requires '\n' !in p
    ensures SplitLines(p + t) == [p + SplitLines(t)[0]] + SplitLines(t)[1..]
  {
    if p != [] {
      assert (p + t)[1..] == p[1..] + t;
      SplitLinesPrefix(p[1..], t);
      assert [p[0]] + (p[1..] + SplitLines(t)[0]) == p + SplitLines(t)[0];
    } else {
      var st := SplitLines(t);
      assert p + t == t;
      assert p + st[0] == st[0];
      assert st == [st[0]] + st[1..];
    }
  }

  lemma {:induction false} SplitJoinLines(pieces: seq<string>)
    requires |pieces| >= 1
    requires forall k :: 0 <= k < |pieces| ==> '\n' !in pieces[k]
    ensures SplitLines(JoinLines(pieces)) == pieces
  {
    if |pieces| == 1 {
      SplitLinesPrefix(pieces[0], "");
      assert pieces[0] + "" == pieces[0];
    } else {
      var rest := JoinLines(pieces[1..]);
      SplitJoinLines(pieces[1..]);
      assert pieces[0] + "\n" + rest == pieces[0] + ("\n" + rest);
      SplitLinesPrefix(pieces[0], "\n" + rest);
      assert ("\n" + rest)[1..] == rest;
      assert SplitLines("\n" + rest) == [""] + pieces[1..];
      assert pieces[0] + "" == pieces[0];
    }
  }

  // ---------------------------------------------------- split on blanks

  /** The end of the run of non-whitespace characters starting at `p`. */
  function WordEnd(s: string, p: nat): (e: nat)
    requires p <= |s|
    ensures p <= e <= |s|
    ensures forall k :: p <= k < e ==> !IsSpace(s[k])
    ensures e == |s| || IsSpace(s[e])
    decreases |s| - p
  {
    if p == |s| || IsSpace(s[p]) then p else WordEnd(s, p + 1)
  }

  predicate IsWord(w: string) {
    w != [] && forall k :: 0 <= k < |w| ==> !IsSpace(w[k])
  }

  /** Python's `s.split()`: the maximal runs of non-whitespace, in order. */
  function Words(s: string): (ws: seq<string>)
    decreases |s|
  {
    var t := TrimStart(s);
    if t == [] then []
    else
      var e := WordEnd(t, 0);
      [t[..e]] + Words(t[e..])
  }

  lemma FirstWordIsWord(t: string)
    requires t != [] && !IsSpace(t[0])
    ensures IsWord(t[..WordEnd(t, 0)])
  {
  }

  lemma ConsWords(w: string, rest: seq<string>)
    requires IsWord(w) && forall k :: 0 <= k < |rest| ==> IsWord(rest[k])
    ensures forall k :: 0 <= k < |[w] + rest| ==> IsWord(([w] + rest)[k])
  {
  }

  /** Every piece `Words` returns is a non-empty run of non-whitespace. */
  lemma {:induction false} WordsAreWords(s: string)
    ensures forall k :: 0 <= k < |Words(s)| ==> IsWord(Words(s)[k])
    decreases |s|
  {
    var t := TrimStart(s);
    if t != [] {
      var e := WordEnd(t, 0);
      FirstWordIsWord(t);
      WordsAreWords(t[e..]);
      ConsWords(t[..e], Words(t[e..]));
    }
  }

  /** A leading whitespace character does not change the words. */
  lemma WordsSkipSpace(s: string)
    requires s != [] && IsSpace(s[0])
    ensures Words(s) == Words(s[1..])
  {
    assert TrimStart(s) == TrimStart(s[1..]);
  }

  /** Any whitespace character separates: the words on either side of it
      are the words of the two sides, in order. With `WordsOfWord` and
      `Words([]) == []` this fixes `Words` on every string. */
  lemma {:induction false} WordsAtSpace(t: string, c: char, u: string)
    requires IsSpace(c)
    ensures Words(t + [c] + u) == Words(t) + Words(u)
    decreases |t|
  {
    var s := t + [c] + u;
    if t == [] {
      assert s == [c] + u && s[1..] == u;
      WordsSkipSpace(s);
      assert Words(t) == [];
    } else if IsSpace(t[0]) {
      assert s[0] == t[0] && s[1..] == t[1..] + [c] + u;
      WordsSkipSpace(s);
      WordsSkipSpace(t);
      WordsAtSpace(t[1..], c, u);
    } else {
      assert s[0] == t[0];
      assert TrimStart(s) == s && TrimStart(t) == t;
      var e := WordEnd(t, 0);
      assert forall k :: 0 <= k < |t| ==> s[k] == t[k];
      assert s[|t|] == c;
      assert WordEnd(s, 0) == e;
      assert s[..e] == t[..e];
      assert s[e..] == t[e..] + [c] + u;
      WordsAtSpace(t[e..], c, u);
      AppendAssoc([t[..e]], Words(t[e..]), Words(u));
    }
  }

  /** Python's `' '.join(ws)`. */
  function JoinWords(ws: seq<string>): string
    requires |ws| >= 1
  {
    if |ws| == 1 then ws[0] else ws[0] + " " + JoinWords(ws[1..])
  }

  lemma WordsOfWord(w: string)
    requires IsWord(w)
    ensures Words(w) == [w]
  {
    assert TrimStart(w) == w;
    var e := WordEnd(w, 0);
    assert e == |w|;
    assert w[..e] == w;
    assert w[e..] == [];
    assert TrimStart([]) == [];
  }

  /** A word, a space and a text starting with a word split into that
      word followed by the words of the text. */
  lemma WordsCons(w: string, rest: string)
    requires IsWord(w)
    requires rest != [] && !IsSpace(rest[0])
    ensures Words(w + " " + rest) == [w] + Words(rest)
  {
    var s := w + " " + rest;
    assert s[0] == w[0];
    assert TrimStart(s) == s;
    var e := WordEnd(s, 0);
    assert s[|w|] == ' ';
    assert e == |w|;
    assert s[..e] == w;
    assert s[e..] == " " + rest;
    assert (" " + rest)[1..] == rest;
    assert TrimStart(" " + rest) == TrimStart(rest);
    assert TrimStart(rest) == rest;
  }

  lemma {:induction false} JoinWordsHead(ws: seq<string>)
    requires |ws| >= 1 && ws[0] != []
    ensures JoinWords(ws) != [] && JoinWords(ws)[0] == ws[0][0]
  {
    if |ws| > 1 {
      assert JoinWords(ws) == ws[0] + (" " + JoinWords(ws[1..]));
    }
  }

  /** Splitting words joined by single spaces gives the words back. */
  lemma {:induction false} WordsOfJoin(ws: seq<string>)
    requires |ws| >= 1
    requires forall k :: 0 <= k < |ws| ==> IsWord(ws[k])
    ensures Words(JoinWords(ws)) == ws
  {
    if |ws| == 1 {
      WordsOfWord(ws[0]);
    } else {
      WordsOfJoin(ws[1..]);
      JoinWordsHead(ws[1..]);
      WordsCons(ws[0], JoinWords(ws[1..]));
      SplitHead(ws, []);
    }
  }

  /** Two words joined by a space split back into the two words. */
  lemma WordsOfPair(a: string, b: string)
    requires IsWord(a) && IsWord(b)
    ensures Words(a + " " + b) == [a] + [b]
  {
    WordsOfWord(b);
    WordsCons(a, b);
  }

  /** The customer name rule: the last two words of `s` joined by a
      single space, or empty when `s` has fewer than two words. */
  function LastTwoWords(s: string): string {
    var ws := Words(s);
    if |ws| >= 2 then ws[|ws| - 2] + " " + ws[|ws| - 1] else ""
  }

  /** The name splits back into exactly the last two words of `s`. */
  lemma LastTwoWordsResplit(s: string)
    ensures var ws := Words(s);
            if |ws| >= 2 then Words(LastTwoWords(s)) == ws[|ws| - 2..] else LastTwoWords(s) == ""
  {
    var ws := Words(s);
    if |ws| >= 2 {
      WordsAreWords(s);
      WordsOfPair(ws[|ws| - 2], ws[|ws| - 1]);
      LastTwo(ws);
    }
  }

  // ------------------------------------------------------ replace commas

  /** Python's `s.replace(',', '')`. */
  function RemoveCommas(s: string): (r: string)
    ensures ',' !in r
    ensures |r| <= |s|
    ensures ',' !in s ==> r == s
  {
    if s == [] then []
    else RemoveCommas(s[..|s| - 1]) + (if s[|s| - 1] == ',' then [] else [s[|s| - 1]])
  }

  /** Removing commas works piece by piece, so it keeps every other
      character, in order. */
  lemma {:induction false} RemoveCommasConcat(a: string, b: string)
    ensures RemoveCommas(a + b) == RemoveCommas(a) + RemoveCommas(b)
    decreases |b|
  {
    if b != [] {
      var n := |b| - 1;
      assert (a + b)[..|a + b| - 1] == a + b[..n];
      RemoveCommasConcat(a, b[..n]);
    } else {
      assert a + b == a;
    }
  }

  lemma RemoveCommasOfChar(c: char)
    ensures RemoveCommas([c]) == if c == ',' then [] else [c]
  {
    assert [c][..0] == [];
  }

  /** The same operation read from the left: a leading comma is dropped
      and any other leading character kept. */
  lemma RemoveCommasCons(c: char, s: string)
    ensures RemoveCommas([c] + s) == (if c == ',' then [] else [c]) + RemoveCommas(s)
  {
    RemoveCommasConcat([c], s);
    RemoveCommasOfChar(c);
  }

  predicate EndsInTwoDigits(s: string) {
    |s| >= 2 && IsDigit(s[|s| - 2]) && IsDigit(s[|s| - 1])
  }

  lemma RemoveCommasKeepsEnd(s: string)
    requires EndsInTwoDigits(s)
    ensures EndsInTwoDigits(RemoveCommas(s))
  {
    var n := |s|;
    var init := s[..n - 1];
    assert init[..n - 2] == s[..n - 2];
    var front := RemoveCommas(s[..n - 2]);
    assert RemoveCommas(init) == front + [s[n - 2]];
    assert RemoveCommas(s) == (front + [s[n - 2]]) + [s[n - 1]];
  }
}
