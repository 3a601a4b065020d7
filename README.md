# fedex-parser, modelled in Dafny

The fedex-parser service turns the text dump of a carrier invoice into an
ordered list of shipment records. It does this with `extract_fedex_data`
(`app.py`), and that function is what this project models. Each record has
five string fields:

- the ship date;
- the twelve-digit air waybill number;
- the customer name;
- a four-digit order number;
- the total amount.

The function works in line order:

1. It strips every line of the text and drops the blank ones.
2. It treats every line that starts with `Ship Date` as an anchor.
3. It finds the air waybill line among the four lines after the anchor.
4. It decides the block's layout from the line just before the air waybill
   line: Tendered Date, Customs Entry Date or Standard.
5. It takes the customer name and the order number by that layout's rule.
6. It forces the order number to empty for one named customer.
7. It scans for the first line that matches the Total pattern.
8. It emits a record only when both an air waybill number and a total were
   found.

The project has five modules:

- `Wrappers` (`wrappers.dfy`): the `Option` type, and `Somes`, the present
  values of a sequence of options in order.
- `Text` (`text.dfy`): the Python string operations the function uses:
  `strip`, `split('\n')`, `split()`, `' '.join` and `replace(',', '')`.
  Each has its round trip or characterising lemma.
- `Patterns` (`patterns.dfy`): an explicit matcher for each regular
  expression. `re.search` is `FirstMatch`, the leftmost matching position.
  `re.findall` scans left to right and resumes after each match. The amount
  pattern `[\d,]+\.?\d{2}` is modelled with the engine's backtracking: the
  `[\d,]` run is taken whole, a dot and two digits are tried after it, and
  only then does the run give characters back.
- `Extractor` (`extractor.dfy`): the record type, and the specification
  `Extract(text)`. `Extract` is the present values of `RecordsOf(lines)`,
  where `RecordAt(lines, i)` is the record that line `i` contributes.
  `ExtractFedexData` is the procedure itself, with its three search loops as
  the methods `FindAwbLine`, `SearchStandardOrder` and `FindTotal`. It is
  proved to return exactly `Extract(text)`.
- `Properties` (`properties.dfy`): lemmas about the whole output. They cover
  normalisation, which lines emit a record, what each field is made of, and
  the order of the records.

Where the code and a plain reading of it differ, the model follows the code:

- The total scan covers the lines from two to nineteen after the air waybill
  line. Line twenty is not looked at.
- The decimal point in both total patterns is optional, so `Total 1234`
  matches the pattern and yields `1234`.
- The air waybill number is the first twelve digits of a digit run. The run
  may be longer than twelve.
- Only the amount pattern `[\d,]+\.?\d{2}` allows commas anywhere in its
  digit run. The Total pattern's `\d+` takes no comma, so `Total 1,23` is
  not a Total line and yields no total, although the amount pattern
  matches `1,23` on it.
- The customer line is the line just before the air waybill line. It is
  never before the anchor, so when the air waybill line directly follows
  the anchor, the anchor itself is the customer line.
- The amount is searched from the start of the Total line, not from the word
  `Total`. On `100 items Total 25.00` the total is therefore `100`. The
  lemmas `Patterns.TotalLineHasAmount` and
  `Extractor.TotalFromFirstTotalLine` state what this gives: every line that
  matches the Total pattern has an amount, and the record takes the first amount
  on the first such line.

## Model

| member | source | states |
|---|---|---|
| `Text.Strip` | app.py:32 | The result is empty exactly when the line is all whitespace; otherwise it starts and ends with non-whitespace |
| `Text.StripPadded` | app.py:32 | Stripping removes only whitespace, and only at the two ends: the result is a contiguous middle of the line |
| `Text.StripOfStripped` | app.py:32 | A line with no whitespace at either end is unchanged by stripping |
| `Text.StripIdempotent` | app.py:32 | Stripping twice is the same as stripping once |
| `Text.SplitLines` | app.py:32 | Splitting on line feeds gives at least one piece, and no piece holds a line feed |
| `Text.SplitLinesOfBlank` | app.py:32 | Whitespace-only text splits into whitespace-only pieces |
| `Text.JoinSplitLines` | app.py:32 | Joining the pieces with line feeds gives the text back |
| `Text.SplitJoinLines` | app.py:32 | Splitting pieces that were joined with line feeds (none holding one) gives the pieces back |
| `Text.Words` | app.py:68 | Python's `split()`: the maximal runs of non-whitespace, in order. Its own definition carries no contract; `Text.WordsAreWords` says every piece is a word, `Text.WordsOfWord` fixes it on one word, and `Text.WordsAtSpace` on any text split at a whitespace character, which together determine it on every string |
| `Text.WordsAreWords` | app.py:68-81 | Every word of `split()` is a non-empty run of non-whitespace |
| `Text.WordsOfJoin` | app.py:70 | Splitting words that were joined by single spaces gives the words back |
| `Text.WordsAtSpace` | app.py:68 | Any whitespace character, a run of several, a tab or padding at either end included, separates words: the words of `t`, a whitespace character and `u` are the words of `t` followed by those of `u` |
| `Text.LastTwoWords` | app.py:69-70 | The name rule: the last two words joined by one space, or empty when there are fewer than two words. What the name is made of is stated by `Text.LastTwoWordsResplit` |
| `Text.LastTwoWordsResplit` | app.py:68-81 | The customer name splits into exactly the last two words of its line; it is empty when the line has fewer than two words |
| `Text.RemoveCommas` | app.py:117 | The result holds no comma, is no longer than the input, and equals the input when that has no comma |
| `Text.RemoveCommasConcat` | app.py:117 | Removing commas works piece by piece, so every other character is kept in order |
| `Text.RemoveCommasCons` | app.py:117 | Read from the left, a leading comma is dropped and any other leading character is kept in front of the rest |
| `Text.RemoveCommasKeepsEnd` | app.py:117 | An amount that ends in two digits still does after its commas are removed |
| `Patterns.FirstMatch` | app.py:38 | The search returns the leftmost position at which the pattern matches, and finds nothing only when it matches nowhere |
| `Patterns.FirstShipDate` | app.py:38-40 | The ship date is empty or of the form DD/DD/DDDD |
| `Patterns.FirstShipDateIsLeftmost` | app.py:38-40 | The date is the leftmost DD/DD/DDDD of the anchor line; it is empty exactly when the line has none |
| `Patterns.FirstWaybill` | app.py:53-55 | The air waybill number is empty or exactly twelve digits |
| `Patterns.FirstWaybillIsLeftmost` | app.py:53-55 | The number is the leftmost twelve consecutive digits; it is empty exactly when the line has none |
| `Patterns.FindAllFourDigits` | app.py:86 | Every match of `\d{4}` is four digits; where the last one lies is `Patterns.LastFourDigits` |
| `Patterns.FourDigitsFound` | app.py:86-88 | There is a match of `\d{4}` exactly when four digits stand together somewhere on the line |
| `Patterns.LastFourDigits` | app.py:86-88 | The last match of `\d{4}` is in step with the scan: the digits from the start of its run (or from the scan's start) up to the match's end split into whole four-digit matches, and no `\d{4}` starts after the match. So on `12345` it is `1234`, not `2345`. This is the match the Tendered rule takes |
| `Patterns.LastMatchUnique` | app.py:86-88 | At most one position meets the facts `Patterns.LastFourDigits` states, so they determine the Tendered order number |
| `Patterns.FourDigitTokens` | app.py:92 | Every match of `\b(\d{4})\b` is four digits |
| `Patterns.TokensApart` | app.py:92 | Two word-bounded four-digit tokens never overlap |
| `Patterns.FirstFourDigitToken` | app.py:99-103 | The first token found is the one at the leftmost token position; none is found exactly when there is no token position |
| `Patterns.LastFourDigitToken` | app.py:92-94 | The last token found is at the rightmost token position of the line |
| `Patterns.HasRejectedRun` | app.py:101 | Definition of the rejection pattern of app.py:101 as some position holding five digits, a slash and four digits, or four digits and a slash. It has no contract of its own; `Extractor.StandardOrderFromFirstOrderLine` is what states its effect on the order number |
| `Patterns.IsTotalLine` | app.py:114 | Definition of the Total pattern: a case-insensitive word `Total`, then on the same line a digit followed by two digits or by a dot and two digits. It has no contract of its own; `Patterns.TotalLineHasAmount` and `Extractor.TotalFromFirstTotalLine` state its role |
| `Patterns.AmountEnd` | app.py:115 | A match of the amount pattern covers at least three characters, all digits, commas or dots, and ends in two digits; that it is exactly the engine's match is `Patterns.AmountEndIsLongestMatch` |
| `Patterns.AmountEndIsLongestMatch` | app.py:115 | The amount pattern matches at a position exactly when a run of digits and commas starting there is followed by a dot and two digits or by two digits; the end chosen is the one with the longest run, and no other match shares that run |
| `Patterns.FirstAmount` | app.py:115-117 | A found amount ends in two digits and consists of digits, commas and dots only |
| `Patterns.FirstAmountIsLeftmost` | app.py:115-117 | The amount is the match at the leftmost position where the pattern matches; it is empty exactly when it matches nowhere |
| `Patterns.FirstAmountIsPatternMatch` | app.py:115-117 | In the pattern's own terms: the amount is empty exactly when the pattern matches nowhere; otherwise it is a match at the leftmost position where one starts, with the longest digit-and-comma run there |
| `Patterns.TotalLineHasAmount` | app.py:114-116 | Every line that matches the Total pattern also matches the amount pattern |
| `Extractor.NormalisedLines` | app.py:32 | Every normalised line is non-empty and has no whitespace at either end |
| `Extractor.NormalisePieces` | app.py:32 | Strips every piece, drops the blank ones and keeps the order; its contract says only that no line is added, and the `Properties.Normalise*` lemmas and `Extractor.NormalisedLines` state the rest |
| `Extractor.NormaliseLines` | app.py:32 | The list comprehension over `split('\n')`: `NormalisePieces` applied to the line-feed pieces of the text. It has no contract of its own; `Properties.NormaliseJoinLines`, `Properties.NormaliseIdempotent` and `Properties.BlankTextNoRecords` are about it |
| `Extractor.FirstLine` | app.py:97-105 | The search returns the first line of the range that satisfies the predicate, and finds nothing only when none does |
| `Extractor.AwbLine` | app.py:48-56 | The air waybill line is the nearest of the four lines after the anchor that contains `Air Waybill Number`; none of the earlier lines contains it |
| `Extractor.Classify` | app.py:66-89 | The layout test on the customer line: Tendered Date when it contains `Tendered Date`, else Customs Entry Date when it contains `Customs Entry Date`, else Standard. It has no contract of its own; `Properties.RecordCustomerName` and `Properties.RecordOrderNumber` state its effect |
| `Extractor.CustomerName` | app.py:66-81 | The name rule per layout: the last two words of the customer line in the dated layouts, of the air waybill line in the Standard layout. It has no contract of its own; `Properties.RecordCustomerName` states it for records |
| `Extractor.StandardOrder` | app.py:97-105 | The Standard order number is empty or four digits |
| `Extractor.StandardOrderFromFirstOrderLine` | app.py:97-105 | The Standard order number is empty exactly when no line among the five after the air waybill line has a `\b\d{4}\b` token and no rejected run; otherwise it is the first token of the first such line |
| `Extractor.OrderNumber` | app.py:84-105 | Under every layout, the order number is empty or four digits |
| `Extractor.ApplyOverride` | app.py:108-109 | The override: the order number becomes empty for `BENJAMIN ATTARD` and is kept otherwise. It has no contract of its own; `Properties.RecordOrderNumber` and `Extractor.RecordWellFormed` state it for records |
| `Extractor.TotalAmount` | app.py:112-118 | The total is empty or comma-free and ends in two digits |
| `Extractor.TotalFromFirstTotalLine` | app.py:113-118 | The total is empty exactly when no line two to nineteen after the air waybill line matches the Total pattern; otherwise it is the first amount of the first such line, commas removed |
| `Extractor.TotalLinesHaveAmounts` | app.py:114-116 | Inside the scan, a line ends it exactly when it matches the Total pattern |
| `Extractor.RecordAt` | app.py:35-129 | The body of the line loop for line `i`: the record it appends, or none. It has no contract of its own; `Properties.RecordEmittedIff` and the `Properties.Record*` lemmas state what it yields |
| `Extractor.RecordWellFormed` | app.py:37-129 | Every record has a twelve-digit air waybill number and a comma-free total ending in two digits; its order number is empty for `BENJAMIN ATTARD`, and otherwise empty or four digits; its date is empty or DD/DD/DDDD |
| `Extractor.ExtractWellFormed` | app.py:24-131 | Every record of the output satisfies all of the above |
| `Extractor.Extract` | app.py:24-131 | The specification of the whole function: the records of the normalised lines, in line order. It has no contract of its own; `Extractor.ExtractFedexData` is proved to compute it, and `Properties.ExtractFollowsAnchors` and `Extractor.ExtractWellFormed` are about it |
| `Extractor.FindAwbLine` | app.py:42-56 | The loop over offsets 1..4 stops at the air waybill line of the anchor (index -1 when there is none) and takes its first twelve digits |
| `Extractor.SearchStandardOrder` | app.py:96-105 | The nested loops with breaks compute the Standard order number |
| `Extractor.FindTotal` | app.py:111-118 | The loop with a break computes the total of the block |
| `Extractor.ResolveCustomerAndOrder` | app.py:59-109 | The layout markers, the name rule and the order-number rule, followed by the override, give the customer name and the order number of the block |
| `Extractor.RecordOfBlock` | app.py:120-129 | An anchor whose block resolves both an air waybill number and a total appends exactly the record of those fields |
| `Extractor.NoRecordAt` | app.py:58-121 | A line that is not an anchor, or whose block lacks the air waybill line, the number or the total, appends nothing |
| `Extractor.ExtractFedexData` | app.py:24-131 | The procedure returns exactly `Extract(text)`, and every record it returns is well formed |
| `Wrappers.SomesAtIndices` | app.py:129 | The k-th output is the entry at the k-th emitting position; those positions increase, and every emitting position is among them |
| `Wrappers.SomesStep` | app.py:129 | Each step of the line loop appends the line's record, if it has one, to the end of the output |
| `Properties.NormaliseCons` | app.py:32 | The first piece is normalised on its own |
| `Properties.NormaliseConcat` | app.py:32 | Normalisation works piece by piece, so the lines keep their source order |
| `Properties.NormaliseOne` | app.py:32 | A single piece becomes its stripped form, or nothing when it is blank |
| `Properties.NormaliseOfNormalised` | app.py:32 | Lines that are already normalised are kept unchanged |
| `Properties.NormaliseIdempotent` | app.py:32 | Normalising twice is the same as normalising once |
| `Properties.NormaliseBlankPieces` | app.py:32 | Whitespace-only pieces leave no line |
| `Properties.NormaliseJoinLines` | app.py:32 | Joining normalised lines with line feeds and normalising the result gives the same lines back |
| `Properties.AwbLineIsNearest` | app.py:48-56 | The air waybill search finds line `a` exactly when `a` is the nearest line at offset 1..4 that contains the marker |
| `Properties.RecordNeedsAwbAndTotal` | app.py:58-121 | A line yields a record exactly when it is an anchor, its air waybill line exists and has twelve digits, and its total is non-empty. This unfolds `RecordAt` and is a stepping stone; the statement in independent terms is `Properties.RecordEmittedIff` |
| `Properties.RecordEmittedIff` | app.py:34-121 | A line yields a record exactly when it starts with `Ship Date`, its nearest air waybill line holds twelve digits, and a line two to nineteen after that line matches the Total pattern |
| `Properties.RecordFields` | app.py:37-129 | Each field comes from the anchor or from the nearest air waybill line `a`: the date from the anchor, the number from line `a`, the name and the layout from line `a` or the line before it, and the total from the lines after `a`. This unfolds `RecordAt` and is a stepping stone; the field-by-field statements are `Properties.RecordTotalFromFirstTotalLine`, `Properties.RecordCustomerName` and `Properties.RecordOrderNumber` |
| `Properties.RecordTotalFromFirstTotalLine` | app.py:112-118 | A record's total is the first amount, commas removed, of the first line two to nineteen after its air waybill line that matches the Total pattern |
| `Properties.RecordCustomerName` | app.py:59-81 | A record's customer name is the last two words of its line, rejoined: the customer line in the dated layouts, the air waybill line in the Standard layout. It is empty when that line has fewer than two words |
| `Properties.RecordOrderNumber` | app.py:83-109 | `BENJAMIN ATTARD` never has an order number; every other customer keeps the number its layout's rule finds |
| `Properties.ExtractFollowsAnchors` | app.py:34-129 | Every record belongs to an anchor line, with at most one record per anchor. Records appear in increasing anchor order, and no anchor that yields a record is missing |
| `Properties.NoAnchorNoRecords` | app.py:34-35 | Text without a line starting with `Ship Date` yields no record |
| `Properties.BlankTextNoRecords` | app.py:32-35 | Whitespace-only text, the empty text included, has no lines and yields no record |

## Left out

- The HTTP routes, request validation and the JSON response (`app.py:133-204`) are outside the function.
- PDF text extraction with `pdfplumber` is left out. Its output is the function's input string.
- Temporary files, `secure_filename` and `os.unlink` are file-system I/O.
- Logging, CORS and the upload size limit are process configuration.
- The Python regular-expression engine is left out. Each pattern is an explicit matcher with the same leftmost, greedy and backtracking behaviour on the inputs it is given.
- Unicode is left out. `\d` is an ASCII digit, `\w` is an ASCII letter, a digit or `_`, and whitespace for `strip` and `split` is the ASCII whitespace Python uses (tab to carriage return, the file, group, record and unit separators, and space). The case-insensitive `Total` pattern folds ASCII letters only.
- The result dictionaries become a `ShipmentRecord` datatype with one field per key.
- The one loop body of the source is split into the helper methods `FindAwbLine`, `ResolveCustomerAndOrder`, `SearchStandardOrder` and `FindTotal`. The three search methods `FindAwbLine`, `SearchStandardOrder` and `FindTotal` each keep the source's loop and its breaks; `ResolveCustomerAndOrder` holds the branches of the layout and name rules, which have no loop.
- `Extractor.NormalisePieces`: its own contract states only that no lines are added. That every line is normalised, that order is kept, and that blank pieces vanish are separate lemmas (`Extractor.NormalisedLines` and the `Properties.Normalise*` lemmas), which keeps the proofs that use it small.
