/**
 * Properties of `extract_fedex_data` that relate several calls or the
 * whole document: normalisation, which lines yield records, what each
 * record is made of, and the order of the output.
 */
module Properties {
  import opened Wrappers
  import opened Text
  import opened Patterns
  import opened Extractor

  // ------------------------------------------------------ normalisation

  /** The first piece is normalised on its own. */
  lemma NormaliseCons(piece: string, rest: seq<string>)
    ensures NormalisePieces([piece] + rest) == NormalisePieces([piece]) + NormalisePieces(rest)
  {
    ConsParts(piece, rest);
    ConsParts(piece, []);
  }

  /** Normalisation works piece by piece. */
  lemma {:induction false} NormaliseConcat(p: seq<string>, q: seq<string>)
    ensures NormalisePieces(p + q) == NormalisePieces(p) + NormalisePieces(q)
  {
    if p == [] {
      assert p + q == q;
    } else {
      NormaliseConcat(p[1..], q);
      SplitHead(p, q);
      NormaliseCons(p[0], p[1..] + q);
      NormaliseCons(p[0], p[1..]);
      AppendAssoc(NormalisePieces([p[0]]), NormalisePieces(p[1..]), NormalisePieces(q));
    }
  }

  /** A single piece becomes its strip, or nothing when it is blank. */
  lemma NormaliseOne(piece: string)
    ensures NormalisePieces([piece]) == if Strip(piece) == "" then [] else [Strip(piece)]
  {
    assert [piece][1..] == [];
  }

  /** Lines that are already normalised are kept as they are. */
  lemma {:induction false} NormaliseOfNormalised(lines: seq<string>)
    requires forall k :: 0 <= k < |lines| ==> IsNormalised(lines[k])
    ensures NormalisePieces(lines) == lines
  {
    if lines != [] {
      var tail := lines[1..];
      NormaliseOfNormalised(tail);
      SplitHead(lines, []);
      StripOfStripped(lines[0]);
      NormaliseOne(lines[0]);
      NormaliseCons(lines[0], tail);
    }
  }

  /** Normalising twice is normalising once. */
  lemma NormaliseIdempotent(pieces: seq<string>)
    ensures NormalisePieces(NormalisePieces(pieces)) == NormalisePieces(pieces)
  {
    NormalisedLines(pieces);
    NormaliseOfNormalised(NormalisePieces(pieces));
  }

  /** Whitespace-only pieces leave no line. */
  lemma {:induction false} NormaliseBlankPieces(pieces: seq<string>)
    requires forall j, k :: 0 <= j < |pieces| && 0 <= k < |pieces[j]| ==> IsSpace(pieces[j][k])
    ensures NormalisePieces(pieces) == []
  {
    if pieces != [] {
      assert forall k :: 0 <= k < |pieces[0]| ==> IsSpace(pieces[0][k]);
      NormaliseBlankPieces(pieces[1..]);
    }
  }

  /** Joining normalised lines with line feeds and normalising the
      result gives the same lines back. */
  lemma NormaliseJoinLines(lines: seq<string>)
    requires |lines| >= 1
    requires forall k :: 0 <= k < |lines| ==> IsNormalised(lines[k]) && '\n' !in lines[k]
    ensures NormaliseLines(JoinLines(lines)) == lines
  {
    SplitJoinLines(lines);
    NormaliseOfNormalised(lines);
  }

  // ------------------------------------------------- which lines emit

  /** `a` is the nearest of the four lines after the anchor at `i` to
      mention the air waybill number. */
  ghost predicate NearestAwbLine(lines: seq<string>, i: nat, a: nat) {
    i < a <= i + 4 && a < |lines| && IsAwbLine(lines[a])
    && forall k :: i < k < a ==> !IsAwbLine(lines[k])
  }

  /** Some line `a+2 .. a+19` matches the Total pattern. */
  ghost predicate HasTotalLine(lines: seq<string>, a: nat) {
    exists j :: a + 2 <= j < |lines| && j < a + 20 && IsTotalLine(lines[j])
  }

  /** The air waybill search finds exactly the nearest such line, and
      finds nothing only when there is none. */
  lemma AwbLineIsNearest(lines: seq<string>, i: nat, a: nat)
    requires i < |lines|
    ensures AwbLine(lines, i) == Some(a) <==> NearestAwbLine(lines, i, a)
  {
  }

  /** An anchor's block gives a record exactly when it has an air
      waybill line with a twelve-digit run. */
  lemma RecordNeedsAwbAndTotal(lines: seq<string>, i: nat)
    requires i < |lines|
    ensures RecordAt(lines, i).Some? <==>
              IsAnchor(lines[i]) && AwbLine(lines, i).Some?
              && FirstWaybill(lines[AwbLine(lines, i).value]) != ""
              && TotalAmount(lines, AwbLine(lines, i).value) != ""
  {
  }

  /** Line `i` yields a record exactly when it starts with "Ship Date",
      the nearest line of the four after it naming the air waybill
      number holds a twelve-digit run, and one of the lines from two to
      nineteen after that one matches the Total pattern. */
  lemma RecordEmittedIff(lines: seq<string>, i: nat)
    requires i < |lines|
    ensures RecordAt(lines, i).Some? <==>
              IsAnchor(lines[i])
              && exists a: nat :: NearestAwbLine(lines, i, a) && FirstWaybill(lines[a]) != "" && HasTotalLine(lines, a)
  {
    RecordNeedsAwbAndTotal(lines, i);
    var found := AwbLine(lines, i);
    if found.Some? {
      var a := found.value;
      AwbLineIsNearest(lines, i, a);
      TotalFromFirstTotalLine(lines, a);
      forall b | NearestAwbLine(lines, i, b)
        ensures b == a
      {
        AwbLineIsNearest(lines, i, b);
      }
    } else {
      forall b | NearestAwbLine(lines, i, b)
        ensures false
      {
        AwbLineIsNearest(lines, i, b);
      }
    }
  }

  // ------------------------------------------------ what a record holds

  /** A record's fields all come from its anchor line and the nearest
      air waybill line `a` after it: the date from the anchor, the air
      waybill number from line `a`, the customer name from line `a` or
      the line before it, and the total from the lines after it. */
  lemma RecordFields(lines: seq<string>, i: nat, a: nat, r: ShipmentRecord)
    requires i < |lines| && RecordAt(lines, i) == Some(r) && NearestAwbLine(lines, i, a)
    ensures r.date == FirstShipDate(lines[i])
    ensures r.airWaybillNumber == FirstWaybill(lines[a])
    ensures r.customerName == CustomerName(Classify(lines[a - 1]), lines[a - 1], lines[a])
    ensures r.orderNumber == ApplyOverride(r.customerName, OrderNumber(Classify(lines[a - 1]), lines, a))
    ensures r.totalAmount == TotalAmount(lines, a)
  {
    AwbLineIsNearest(lines, i, a);
    var customerLine := lines[a - 1];
    var fmt := Classify(customerLine);
    var n := CustomerName(fmt, customerLine, lines[a]);
    var o := ApplyOverride(n, OrderNumber(fmt, lines, a));
    assert RecordAt(lines, i)
        == Some(ShipmentRecord(FirstShipDate(lines[i]), FirstWaybill(lines[a]), n, o, TotalAmount(lines, a)));
  }

  /** The total of a record is the first amount, commas removed, of the
      first line two to nineteen lines after its air waybill line that
      matches the Total pattern. */
  lemma RecordTotalFromFirstTotalLine(lines: seq<string>, i: nat, a: nat, r: ShipmentRecord)
    requires i < |lines| && RecordAt(lines, i) == Some(r) && NearestAwbLine(lines, i, a)
    ensures exists j :: a + 2 <= j < Min(|lines|, a + 20) && IsTotalLine(lines[j])
              && (forall k :: a + 2 <= k < j ==> !IsTotalLine(lines[k]))
              && r.totalAmount == RemoveCommas(FirstAmount(lines[j]))
  {
    RecordFields(lines, i, a, r);
    TotalFromFirstTotalLine(lines, a);
  }

  /** The customer name is the last two words of its line, rejoined by
      one space: the line before the air waybill line when that line
      carries a Tendered Date or Customs Entry Date, the air waybill line
      itself otherwise. It is empty exactly when that line has fewer than
      two words. */
  lemma RecordCustomerName(lines: seq<string>, i: nat, a: nat, r: ShipmentRecord)
    requires i < |lines| && RecordAt(lines, i) == Some(r) && NearestAwbLine(lines, i, a)
    ensures var source := if Classify(lines[a - 1]) == Standard then lines[a] else lines[a - 1];
            var ws := Words(source);
            (|ws| >= 2 ==> Words(r.customerName) == ws[|ws| - 2..])
            && (|ws| < 2 ==> r.customerName == "")
  {
    RecordFields(lines, i, a, r);
    var source := if Classify(lines[a - 1]) == Standard then lines[a] else lines[a - 1];
    assert r.customerName == LastTwoWords(source);
    LastTwoWordsResplit(source);
  }

  /** Whatever the format, the override customer's record has an empty
      order number, and any other customer keeps the order number its
      format's rule finds. */
  lemma RecordOrderNumber(lines: seq<string>, i: nat, a: nat, r: ShipmentRecord)
    requires i < |lines| && RecordAt(lines, i) == Some(r) && NearestAwbLine(lines, i, a)
    ensures r.customerName == NoOrderCustomer ==> r.orderNumber == ""
    ensures r.customerName != NoOrderCustomer ==> r.orderNumber == OrderNumber(Classify(lines[a - 1]), lines, a)
  {
    RecordFields(lines, i, a, r);
  }

  // ------------------------------------------------------ the whole output

  /** The lines that yield a record, in increasing order. */
  function EmittingLines(lines: seq<string>): seq<nat> {
    SomeIndices(RecordsOf(lines))
  }

  /** Every record sits at an anchor line, one record per anchor at most,
      in increasing order of the anchors, and no anchor that yields a
      record is missing. */
  lemma ExtractFollowsAnchors(text: string)
    ensures var lines, rs, ks := NormaliseLines(text), Extract(text), EmittingLines(NormaliseLines(text));
            |ks| == |rs|
            && (forall k :: 0 <= k < |ks| ==>
                  ks[k] < |lines| && IsAnchor(lines[ks[k]]) && RecordAt(lines, ks[k]) == Some(rs[k]))
            && (forall k, m :: 0 <= k < m < |ks| ==> ks[k] < ks[m])
            && (forall j :: 0 <= j < |lines| && RecordAt(lines, j).Some? ==> j in ks)
  {
    var lines := NormaliseLines(text);
    var recs := RecordsOf(lines);
    SomesAtIndices(recs);
    forall j | 0 <= j < |lines| && RecordAt(lines, j).Some?
      ensures IsAnchor(lines[j])
    {
      RecordNeedsAwbAndTotal(lines, j);
    }
  }

  /** Text without a line that starts with "Ship Date" yields no record. */
  lemma NoAnchorNoRecords(text: string)
    requires forall k :: 0 <= k < |NormaliseLines(text)| ==> !IsAnchor(NormaliseLines(text)[k])
    ensures Extract(text) == []
  {
    var lines := NormaliseLines(text);
    var recs := RecordsOf(lines);
    SomesAtIndices(recs);
    if Extract(text) != [] {
      var j := SomeIndices(recs)[0];
      RecordNeedsAwbAndTotal(lines, j);
    }
  }

  /** Text made only of whitespace, the empty text included, has no
      lines and yields no record. */
  lemma BlankTextNoRecords(text: string)
    requires forall k :: 0 <= k < |text| ==> IsSpace(text[k])
    ensures NormaliseLines(text) == [] && Extract(text) == []
  {
    SplitLinesOfBlank(text);
    NormaliseBlankPieces(SplitLines(text));
    assert RecordsOf([]) == [];
  }
}
