/**
 * `extract_fedex_data`: turns the text of a carrier document into the
 * ordered list of shipment records it holds. `Extract` is the
 * specification, built from one `RecordAt` per line; `ExtractFedexData`
 * is the step-by-step procedure of the source, proved to compute it.
 */
module Extractor {
  import opened Wrappers
  import opened Text
  import opened Patterns

  /** One shipment, all fields as strings; an unresolved field is empty. */
  datatype ShipmentRecord = ShipmentRecord(
    date: string,
    airWaybillNumber: string,
    customerName: string,
    orderNumber: string,
    totalAmount: string)

  /** The three layouts of a shipment block, told apart by the line
      just before the air waybill line. */
  datatype Format = TenderedDate | CustomsEntryDate | Standard

  const ShipDateMarker := "Ship Date"
  const AwbMarker := "Air Waybill Number"
  const TenderedMarker := "Tendered Date"
  const CustomsMarker := "Customs Entry Date"
  /** The customer whose records never carry an order number. */
  const NoOrderCustomer := "BENJAMIN ATTARD"

  function Min(a: int, b: int): int { if a <= b then a else b }

  // ------------------------------------------------------ normalisation

  predicate IsNormalised(l: string) {
    l != [] && !IsSpace(l[0]) && !IsSpace(l[|l| - 1])
  }

  /** Strips every piece and drops the blank ones, keeping their order. */
  function NormalisePieces(pieces: seq<string>): (lines: seq<string>)
    ensures |lines| <= |pieces|
  {
    if pieces == [] then []
    else
      var l := Strip(pieces[0]);
      (if l == "" then [] else [l]) + NormalisePieces(pieces[1..])
  }

  /** Every normalised line is non-empty, with no whitespace at either end. */
  lemma {:induction false} NormalisedLines(pieces: seq<string>)
    ensures forall k :: 0 <= k < |NormalisePieces(pieces)| ==> IsNormalised(NormalisePieces(pieces)[k])
  {
    if pieces != [] {
      NormalisedLines(pieces[1..]);
      var l, rest := Strip(pieces[0]), NormalisePieces(pieces[1..]);
      if l != "" {
        assert NormalisePieces(pieces) == [l] + rest;
        assert forall k :: 0 < k <= |rest| ==> ([l] + rest)[k] == rest[k - 1];
      }
    }
  }

  /** `[line.strip() for line in text.split('\n') if line.strip()]`. */
  function NormaliseLines(text: string): seq<string> {
    NormalisePieces(SplitLines(text))
  }

  // ----------------------------------------------------------- searches

  /** The first index in `from..stop-1` whose line satisfies `P`. */
  function FirstLine(lines: seq<string>, from: nat, stop: nat, P: string -> bool): (r: Option<nat>)
    requires stop <= |lines|
    ensures r.Some? ==> from <= r.value < stop && P(lines[r.value])
                        && forall k :: from <= k < r.value ==> !P(lines[k])
    ensures r.None? ==> forall k :: from <= k < stop ==> !P(lines[k])
    decreases stop - from
  {
    if from >= stop then None
    else if P(lines[from]) then Some(from)
    else FirstLine(lines, from + 1, stop, P)
  }

  /** Skipping a line that fails `P` does not change the search. */
  lemma FirstLineSkip(lines: seq<string>, from: nat, stop: nat, P: string -> bool)
    requires from < stop <= |lines| && !P(lines[from])
    ensures FirstLine(lines, from, stop, P) == FirstLine(lines, from + 1, stop, P)
  {
  }

  predicate IsAnchor(l: string) { StartsWith(l, ShipDateMarker) }

  predicate IsAwbLine(l: string) { Contains(l, AwbMarker) }

  /** A Standard-format order line: it has a `\b\d{4}\b` token and none
      of the digit patterns that mark an identifier or a date. */
  predicate IsOrderLine(l: string) { FourDigitTokens(l, 0) != [] && !HasRejectedRun(l) }

  /** A line ending the Total scan: it matches the Total pattern and the
      amount pattern matches on it. */
  predicate IsTotalAmountLine(l: string) { IsTotalLine(l) && FirstAmount(l) != "" }

  /** The air waybill line of the anchor at `i`: the nearest of the four
      lines after it that mentions the air waybill number. */
  function AwbLine(lines: seq<string>, i: nat): (a: Option<nat>)
    requires i < |lines|
    ensures a.Some? ==> i < a.value <= i + 4 && a.value < |lines| && IsAwbLine(lines[a.value])
                        && forall k :: i < k < a.value ==> !IsAwbLine(lines[k])
    ensures a.None? ==> forall k :: i < k <= i + 4 && k < |lines| ==> !IsAwbLine(lines[k])
  {
    FirstLine(lines, i + 1, Min(i + 5, |lines|), IsAwbLine)
  }

  function Classify(customerLine: string): Format {
    if Contains(customerLine, TenderedMarker) then TenderedDate
    else if Contains(customerLine, CustomsMarker) then CustomsEntryDate
    else Standard
  }

  /** The last two words of the customer line in the dated formats, of
      the air waybill line in the Standard format. */
  function CustomerName(fmt: Format, customerLine: string, awbLine: string): string {
    if fmt == Standard then LastTwoWords(awbLine) else LastTwoWords(customerLine)
  }

  /** The Standard-format order number: the first `\b\d{4}\b` token of
      the first order line among the five lines after the air waybill
      line. */
  function StandardOrder(lines: seq<string>, a: nat): (order: string)
    requires a < |lines|
    ensures order == "" || IsFourDigits(order)
  {
    match FirstLine(lines, a + 1, Min(a + 6, |lines|), IsOrderLine)
    case Some(j) => FourDigitTokens(lines[j], 0)[0]
    case None => ""
  }

  /** The Standard order number is empty exactly when none of the lines
      `a+1 .. min(a+5, last)` is an order line; otherwise it is the first
      token of the first of them, whatever the later lines hold. */
  lemma StandardOrderFromFirstOrderLine(lines: seq<string>, a: nat)
    requires a < |lines|
    ensures var order := StandardOrder(lines, a);
            (order == "" <==> forall j :: a < j < Min(a + 6, |lines|) ==> !IsOrderLine(lines[j]))
            && (order != "" ==>
                  exists j :: a < j < Min(a + 6, |lines|) && IsOrderLine(lines[j])
                              && (forall k :: a < k < j ==> !IsOrderLine(lines[k]))
                              && order == FourDigitTokens(lines[j], 0)[0])
  {
    var m := FirstLine(lines, a + 1, Min(a + 6, |lines|), IsOrderLine);
    if m.Some? {
      assert IsOrderLine(lines[m.value]);
    }
  }

  /** The order number before the override: the last `\d{4}` of the air
      waybill line (Tendered Date), its last `\b\d{4}\b` token (Customs
      Entry Date), or the Standard search. */
  function OrderNumber(fmt: Format, lines: seq<string>, a: nat): (order: string)
    requires a < |lines|
    ensures order == "" || IsFourDigits(order)
  {
    match fmt
    case TenderedDate =>
      var found := FindAllFourDigits(lines[a], 0);
      if |found| > 0 then found[|found| - 1] else ""
    case CustomsEntryDate =>
      var found := FourDigitTokens(lines[a], 0);
      if |found| > 0 then found[|found| - 1] else ""
    case Standard => StandardOrder(lines, a)
  }

  /** The business rule: one customer's records never carry an order number. */
  function ApplyOverride(name: string, order: string): string {
    if name == NoOrderCustomer then "" else order
  }

  predicate IsTotal(t: string) { ',' !in t && EndsInTwoDigits(t) }

  /** The total: the amount on the first line among indices
      `a+2 .. a+19` that matches the Total pattern, commas removed. */
  function TotalAmount(lines: seq<string>, a: nat): (total: string)
    requires a < |lines|
    ensures total == "" || IsTotal(total)
  {
    match FirstLine(lines, a + 2, Min(|lines|, a + 20), IsTotalAmountLine)
    case Some(j) =>
      RemoveCommasKeepsEnd(FirstAmount(lines[j]));
      RemoveCommas(FirstAmount(lines[j]))
    case None => ""
  }

  /** The total is empty exactly when no line among `a+2 .. a+19` passes
      the Total pattern; otherwise it is the amount of the first that does,
      with its commas removed. */
  lemma TotalFromFirstTotalLine(lines: seq<string>, a: nat)
    requires a < |lines|
    ensures var total := TotalAmount(lines, a);
            (total == "" <==> forall j :: a + 2 <= j < Min(|lines|, a + 20) ==> !IsTotalLine(lines[j]))
            && (total != "" ==>
                  exists j :: a + 2 <= j < Min(|lines|, a + 20) && IsTotalLine(lines[j])
                              && (forall k :: a + 2 <= k < j ==> !IsTotalLine(lines[k]))
                              && total == RemoveCommas(FirstAmount(lines[j])))
  {
    var stop := Min(|lines|, a + 20);
    TotalLinesHaveAmounts(lines, a + 2, stop);
    var m := FirstLine(lines, a + 2, stop, IsTotalAmountLine);
    if m.Some? {
      assert IsTotalLine(lines[m.value]);
      assert FirstAmount(lines[m.value]) != "";
    }
  }

  lemma TotalLinesHaveAmounts(lines: seq<string>, from: nat, stop: nat)
    requires stop <= |lines|
    ensures forall j :: from <= j < stop ==> (IsTotalAmountLine(lines[j]) <==> IsTotalLine(lines[j]))
  {
    forall j | from <= j < stop && IsTotalLine(lines[j]) {
      TotalLineHasAmount(lines[j]);
    }
  }

  // ------------------------------------------------------------ records

  /** What every emitted record satisfies. */
  predicate WellFormed(r: ShipmentRecord) {
    IsWaybill(r.airWaybillNumber)
    && IsTotal(r.totalAmount)
    && (r.customerName == NoOrderCustomer ==> r.orderNumber == "")
    && (r.orderNumber == "" || IsFourDigits(r.orderNumber))
    && (r.date == "" || IsShipDate(r.date))
  }

  /** The record contributed by line `i`, if any. */
  function RecordAt(lines: seq<string>, i: nat): Option<ShipmentRecord>
    requires i < |lines|
  {
    if !IsAnchor(lines[i]) then None
    else
      match AwbLine(lines, i)
      case None => None
      case Some(a) =>
        var awb := FirstWaybill(lines[a]);
        var customerLine := lines[a - 1];
        var fmt := Classify(customerLine);
        var name := CustomerName(fmt, customerLine, lines[a]);
        var order := ApplyOverride(name, OrderNumber(fmt, lines, a));
        var total := TotalAmount(lines, a);
        if awb == "" || total == "" then None
        else Some(ShipmentRecord(FirstShipDate(lines[i]), awb, name, order, total))
  }

  /** Every record satisfies `WellFormed`: a twelve-digit air waybill
      number, a comma-free total ending in two digits, no order number
      for the override customer, and an order number and a date that are
      empty or of their fixed forms. */
  lemma {:induction false} RecordWellFormed(lines: seq<string>, i: nat)
    requires i < |lines| && RecordAt(lines, i).Some?
    ensures WellFormed(RecordAt(lines, i).value)
  {
    var a := AwbLine(lines, i).value;
    var customerLine := lines[a - 1];
    var fmt := Classify(customerLine);
    var n := CustomerName(fmt, customerLine, lines[a]);
    var o := ApplyOverride(n, OrderNumber(fmt, lines, a));
    assert RecordAt(lines, i)
        == Some(ShipmentRecord(FirstShipDate(lines[i]), FirstWaybill(lines[a]), n, o, TotalAmount(lines, a)));
  }

  /** What each line contributes, line by line. */
  function RecordsOf(lines: seq<string>): (recs: seq<Option<ShipmentRecord>>)
    ensures |recs| == |lines|
  {
    seq(|lines|, i requires 0 <= i < |lines| => RecordAt(lines, i))
  }

  /** The specification of `extract_fedex_data`: the records of the
      normalised lines, in line order. */
  function Extract(text: string): seq<ShipmentRecord> {
    Somes(RecordsOf(NormaliseLines(text)))
  }

  lemma ExtractWellFormed(text: string)
    ensures forall k :: 0 <= k < |Extract(text)| ==> WellFormed(Extract(text)[k])
  {
    var recs := RecordsOf(NormaliseLines(text));
    forall k | 0 <= k < |recs| && recs[k].Some?
      ensures WellFormed(recs[k].value)
    {
      RecordWellFormed(NormaliseLines(text), k);
    }
    SomesAll(recs, WellFormed);
  }

  // ------------------------------------------------- the procedure itself

  /** The air waybill search after the anchor at `i`: the index of the
      air waybill line (-1 when there is none) and its first twelve
      digits. */
  method FindAwbLine(lines: seq<string>, i: nat) returns (airWaybill: string, awbLineIdx: int)
    requires i < |lines|
    ensures awbLineIdx == match AwbLine(lines, i) case Some(a) => a case None => -1
    ensures airWaybill == if awbLineIdx >= 0 then FirstWaybill(lines[awbLineIdx]) else ""
  {
    airWaybill := "";
    awbLineIdx := -1;
    for offset := 1 to 5
      invariant airWaybill == "" && awbLineIdx == -1
      invariant forall k :: i < k < i + offset && k < |lines| ==> !IsAwbLine(lines[k])
    {
      if i + offset < |lines| {
        var candidate := lines[i + offset];
        if Contains(candidate, AwbMarker) {
          awbLineIdx := i + offset;
          airWaybill := FirstWaybill(candidate);
          break;
        }
      }
    }
  }

  /** The Standard-format order number search. */
  method SearchStandardOrder(lines: seq<string>, awbLineIdx: nat) returns (orderNumber: string)
    requires awbLineIdx < |lines|
    ensures orderNumber == StandardOrder(lines, awbLineIdx)
  {
    orderNumber := "";
    for j := awbLineIdx + 1 to Min(awbLineIdx + 6, |lines|)
      invariant orderNumber == ""
      invariant forall k :: awbLineIdx < k < j ==> !IsOrderLine(lines[k])
    {
      var searchLine := lines[j];
      var digits := FourDigitTokens(searchLine, 0);
      for d := 0 to |digits|
        invariant orderNumber == ""
        invariant d > 0 ==> HasRejectedRun(searchLine)
      {
        if !HasRejectedRun(searchLine) {
          orderNumber := digits[d];
          break;
        }
      }
      if orderNumber != "" {
        break;
      }
    }
  }

  /** The scan for the Total line. */
  method FindTotal(lines: seq<string>, awbLineIdx: nat) returns (totalAmount: string)
    requires awbLineIdx < |lines|
    ensures totalAmount == TotalAmount(lines, awbLineIdx)
  {
    totalAmount := "";
    ghost var stop := Min(|lines|, awbLineIdx + 20);
    ghost var found := FirstLine(lines, awbLineIdx + 2, stop, IsTotalAmountLine);
    var j := awbLineIdx + 2;
    while j < Min(|lines|, awbLineIdx + 20)
      invariant awbLineIdx + 2 <= j
      invariant totalAmount == ""
      invariant found == FirstLine(lines, j, stop, IsTotalAmountLine)
    {
      if IsTotalLine(lines[j]) {
        var amount := FirstAmount(lines[j]);
        if amount != "" {
          totalAmount := RemoveCommas(amount);
          break;
        }
      }
      FirstLineSkip(lines, j, stop, IsTotalAmountLine);
      j := j + 1;
    }
  }

  /** The customer name and order number of the block whose air waybill
      line is `awbLineIdx`, after the override. */
  method ResolveCustomerAndOrder(lines: seq<string>, awbLineIdx: nat)
    returns (customerName: string, orderNumber: string)
    requires 0 < awbLineIdx < |lines|
    ensures var customerLine := lines[awbLineIdx - 1];
            var fmt := Classify(customerLine);
            customerName == CustomerName(fmt, customerLine, lines[awbLineIdx])
            && orderNumber == ApplyOverride(customerName, OrderNumber(fmt, lines, awbLineIdx))
  {
    customerName := "";
    orderNumber := "";
    var customerLineIdx := awbLineIdx - 1;
    if customerLineIdx >= 0 {
      var customerLine := lines[customerLineIdx];
      if Contains(customerLine, TenderedMarker) {
        customerName := LastTwoWords(customerLine);
      } else if Contains(customerLine, CustomsMarker) {
        customerName := LastTwoWords(customerLine);
      } else {
        customerName := LastTwoWords(lines[awbLineIdx]);
      }
    }
    if Contains(lines[customerLineIdx], TenderedMarker) {
      var digits := FindAllFourDigits(lines[awbLineIdx], 0);
      if |digits| > 0 {
        orderNumber := digits[|digits| - 1];
      }
    } else if Contains(lines[customerLineIdx], CustomsMarker) {
      var digits := FourDigitTokens(lines[awbLineIdx], 0);
      if |digits| > 0 {
        orderNumber := digits[|digits| - 1];
      }
    } else {
      orderNumber := SearchStandardOrder(lines, awbLineIdx);
    }
    if customerName == NoOrderCustomer {
      orderNumber := "";
    }
  }

  /** An anchor whose block resolves both an air waybill number and a
      total adds the record of the fields resolved for it. */
  lemma {:induction false} RecordOfBlock(lines: seq<string>, i: nat, a: nat, date: string, awb: string,
                                         name: string, order: string, total: string)
    requires i < |lines| && IsAnchor(lines[i]) && AwbLine(lines, i) == Some(a)
    requires date == FirstShipDate(lines[i]) && awb == FirstWaybill(lines[a]) && awb != ""
    requires name == CustomerName(Classify(lines[a - 1]), lines[a - 1], lines[a])
    requires order == ApplyOverride(name, OrderNumber(Classify(lines[a - 1]), lines, a))
    requires total == TotalAmount(lines, a) && total != ""
    ensures RecordAt(lines, i) == Some(ShipmentRecord(date, awb, name, order, total))
    ensures Somes(RecordsOf(lines)[..i + 1]) == Somes(RecordsOf(lines)[..i]) + [ShipmentRecord(date, awb, name, order, total)]
  {
    var customerLine := lines[a - 1];
    var fmt := Classify(customerLine);
    var n := CustomerName(fmt, customerLine, lines[a]);
    var o := ApplyOverride(n, OrderNumber(fmt, lines, a));
    assert RecordAt(lines, i)
        == Some(ShipmentRecord(FirstShipDate(lines[i]), FirstWaybill(lines[a]), n, o, TotalAmount(lines, a)));
    SomesStep(RecordsOf(lines), i);
  }

  /** A line that is not an anchor, or whose block lacks an air waybill
      number or a total, adds no record. */
  lemma {:induction false} NoRecordAt(lines: seq<string>, i: nat)
    requires i < |lines|
    requires !IsAnchor(lines[i]) || AwbLine(lines, i).None?
             || FirstWaybill(lines[AwbLine(lines, i).value]) == ""
             || TotalAmount(lines, AwbLine(lines, i).value) == ""
    ensures RecordAt(lines, i) == None
    ensures Somes(RecordsOf(lines)[..i + 1]) == Somes(RecordsOf(lines)[..i])
  {
    assert RecordAt(lines, i) == None;
    SomesStep(RecordsOf(lines), i);
  }

  /** `extract_fedex_data(pdf_text)`. */
  method ExtractFedexData(pdfText: string) returns (results: seq<ShipmentRecord>)
    ensures results == Extract(pdfText)
    ensures forall k :: 0 <= k < |results| ==> WellFormed(results[k])
  {
    results := [];
    var lines := NormaliseLines(pdfText);
    for i := 0 to |lines|
      invariant results == Somes(RecordsOf(lines)[..i])
    {
      var line := lines[i];
      if StartsWith(line, ShipDateMarker) {
        var shipDate := FirstShipDate(line);
        var airWaybill, awbLineIdx := FindAwbLine(lines, i);
        if airWaybill != "" && awbLineIdx >= 0 {
          // the air waybill line follows the anchor, so it has a line before it
          var customerName, orderNumber := ResolveCustomerAndOrder(lines, awbLineIdx);
          var totalAmount := FindTotal(lines, awbLineIdx);
          if airWaybill != "" && totalAmount != "" {
            results := results + [ShipmentRecord(shipDate, airWaybill, customerName, orderNumber, totalAmount)];
            RecordOfBlock(lines, i, awbLineIdx, shipDate, airWaybill, customerName, orderNumber, totalAmount);
          } else {
            NoRecordAt(lines, i);
          }
        } else {
          NoRecordAt(lines, i);
        }
      } else {
        NoRecordAt(lines, i);
      }
    }
    assert RecordsOf(lines)[..|lines|] == RecordsOf(lines);
    ExtractWellFormed(pdfText);
  }
}
