/** Spreadsheet cell references in A1 notation (WorkAI/ingest/a1.py). */
module A1Notation {
  import opened Common
  import opened Text

  // ---- Column labels: bijective base 26 --------------------------------------------

  predicate IsUpper(c: char) { 'A' <= c <= 'Z' }
  predicate IsLower(c: char) { 'a' <= c <= 'z' }

  /** What Python's Unicode tables say about one character; on ASCII they are fixed. */
  datatype CharTable = CharTable(upper: char -> string, isAlpha: char -> bool)

  ghost predicate AsciiCase(table: CharTable, c: char) {
    && table.isAlpha(c) == (IsUpper(c) || IsLower(c))
    && table.upper(c) == if IsLower(c) then [(c as int - 32) as char] else [c]
  }

  ghost predicate AgreesOnAscii(table: CharTable) {
    forall c: char :: c as int < 128 ==> AsciiCase(table, c)
  }

  function Upper(table: CharTable, s: string): string {
    if s == "" then "" else table.upper(s[0]) + Upper(table, s[1..])
  }

  /** The value of a label read as base-26 digits with A = 1; arbitrary characters count by code point. */
  function LabelValue(s: string): int {
    if s == "" then 0
    else LabelValue(s[..|s| - 1]) * 26 + (s[|s| - 1] as int - 'A' as int + 1)
  }

  ghost predicate IsLabel(s: string) {
    s != "" && forall k :: 0 <= k < |s| ==> IsUpper(s[k])
  }

  ghost function ColIndex(table: CharTable, col: string): Result<int> {
    var normalized := Upper(table, Strip(col));
    if normalized == "" || exists k :: 0 <= k < |normalized| && !table.isAlpha(normalized[k])
    then Err("Invalid column label")
    else Ok(LabelValue(normalized))
  }

  method ColToIndex(table: CharTable, col: string) returns (r: Result<int>)
    ensures r == ColIndex(table, col)
  {
    var normalized := Upper(table, Strip(col));
    if normalized == "" || exists k :: 0 <= k < |normalized| && !table.isAlpha(normalized[k]) {
      return Err("Invalid column label");
    }
    var result := 0;
    for i := 0 to |normalized|
      invariant result == LabelValue(normalized[..i])
    {
      assert normalized[..i + 1][..i] == normalized[..i];
      result := result * 26 + (normalized[i] as int - 'A' as int + 1);
    }
    assert normalized[..|normalized|] == normalized;
    return Ok(result);
  }

  /** The label of a column index. */
  function Label(index: nat): (s: string)
    ensures forall k :: 0 <= k < |s| ==> IsUpper(s[k])
    ensures index > 0 ==> s != ""
  {
    if index == 0 then ""
    else Label((index - 1) / 26) + [('A' as int + (index - 1) % 26) as char]
  }

  method IndexToCol(index: int) returns (r: Result<string>)
    ensures r == if index <= 0 then Err("Column index must be positive") else Ok(Label(index))
  {
    if index <= 0 { return Err("Column index must be positive"); }
    var current: nat := index;
    var result: string := [];
    while current > 0
      invariant Label(index) == Label(current) + Reverse(result)
    {
      current := current - 1;
      var letter := ('A' as int + current % 26) as char;
      assert Reverse(result + [letter]) == [letter] + Reverse(result);
      assert Label(current + 1) == Label(current / 26) + [letter];
      result := result + [letter];
      current := current / 26;
    }
    assert Label(index) == Reverse(result);
    return Ok(Reverse(result));
  }

  lemma {:induction false} LabelReadsBack(index: nat)
    ensures LabelValue(Label(index)) == index
  {
    if index > 0 {
      LabelReadsBack((index - 1) / 26);
      var s := Label(index);
      assert s[..|s| - 1] == Label((index - 1) / 26);
    }
  }

  lemma DivideBack(q: nat, digit: nat)
    requires digit < 26
    ensures (q * 26 + digit) / 26 == q && (q * 26 + digit) % 26 == digit
  {
  }

  lemma LabelSnoc(value: nat, q: nat, digit: nat)
    requires digit < 26 && value == q * 26 + digit + 1
    ensures Label(value) == Label(q) + [('A' as int + digit) as char]
  {
    DivideBack(q, digit);
    assert value - 1 == q * 26 + digit;
  }

  lemma {:induction false} LabelOfValue(s: string)
    requires forall k :: 0 <= k < |s| ==> IsUpper(s[k])
    ensures LabelValue(s) >= 0 && Label(LabelValue(s)) == s
  {
    if s != "" {
      var front, digit := s[..|s| - 1], s[|s| - 1] as int - 'A' as int;
      LabelOfValue(front);
      LabelSnoc(LabelValue(s), LabelValue(front), digit);
      assert s == front + [s[|s| - 1]];
    }
  }

  lemma {:induction false} UpperOfLabel(table: CharTable, s: string)
    requires AgreesOnAscii(table) && forall k :: 0 <= k < |s| ==> IsUpper(s[k])
    ensures Upper(table, s) == s
  {
    if s != "" {
      UpperOfLabel(table, s[1..]);
      assert IsUpper(s[0]) && AsciiCase(table, s[0]);
      assert [s[0]] + s[1..] == s;
    }
  }

  /** `index_to_col` and `col_to_index` are mutual inverses on positive indexes and non-empty A-Z labels. */
  lemma ColumnsRoundTrip(table: CharTable)
    requires AgreesOnAscii(table)
    ensures forall index: nat :: index > 0 ==> IsLabel(Label(index)) && ColIndex(table, Label(index)) == Ok(index)
    ensures forall s :: IsLabel(s) ==>
              ColIndex(table, s).Ok? && ColIndex(table, s).value > 0 && Label(ColIndex(table, s).value) == s
  {
    forall c: char | IsUpper(c)
      ensures table.isAlpha(c)
    {
      assert AsciiCase(table, c);
    }
    forall s | IsLabel(s)
      ensures ColIndex(table, s) == Ok(LabelValue(s)) && LabelValue(s) > 0 && Label(LabelValue(s)) == s
    {
      StripIdentity(s);
      UpperOfLabel(table, s);
      LabelOfValue(s);
    }
    forall index: nat | index > 0
      ensures IsLabel(Label(index)) && ColIndex(table, Label(index)) == Ok(index)
    {
      LabelReadsBack(index);
    }
  }

  // ---- Single cells -------------------------------------------------------------------

  function CellToA1(row: int, col: int): Result<string> {
    if row <= 0 then Err("Row index must be positive")
    else if col <= 0 then Err("Column index must be positive")
    else Ok(Label(col) + NatToString(row))
  }

  /** The length of the leading run of ASCII letters. */
  function Letters(s: string, i: nat): (r: nat)
    requires i <= |s|
    ensures i <= r <= |s|
    ensures forall k :: i <= k < r ==> IsUpper(s[k]) || IsLower(s[k])
    ensures r < |s| ==> !IsUpper(s[r]) && !IsLower(s[r])
    decreases |s| - i
  {
    if i < |s| && (IsUpper(s[i]) || IsLower(s[i])) then Letters(s, i + 1) else i
  }

  predicate AllDigits(s: string) { forall k :: 0 <= k < |s| ==> IsDigit(s[k]) }

  /** `_CELL_RE.match`: letters, then digits without a leading zero; `$` lets one final newline pass. */
  ghost function ParseCell(table: CharTable, cell: string): Result<(int, int)> {
    var body := if cell != "" && cell[|cell| - 1] == '\n' then cell[..|cell| - 1] else cell;
    var n := Letters(body, 0);
    var digits := body[n..];
    if n == 0 || digits == "" || digits[0] == '0' || !AllDigits(digits)
    then Err("Invalid A1 range")
    else match ColIndex(table, body[..n]) {
      case Err(e) => Err(e)
      case Ok(col) => Ok((StringToNat(digits), col))
    }
  }

  /** `_parse_cell` undoes `cell_to_a1`. */
  lemma CellReadsBack(table: CharTable, row: int, col: int)
    requires AgreesOnAscii(table) && row > 0 && col > 0
    ensures ParseCell(table, CellToA1(row, col).value) == Ok((row, col))
  {
    var letters, digits := Label(col), NatToString(row);
    var cell := letters + digits;
    assert IsDigit(cell[|cell| - 1]);
    assert !IsUpper(cell[|letters|]) && !IsLower(cell[|letters|]);
    assert forall k :: 0 <= k < |letters| ==> IsUpper(cell[k]);
    assert Letters(cell, 0) == |letters|;
    assert cell[..|letters|] == letters && cell[|letters|..] == digits;
    PrintedNatReadsBack(row);
    ColumnsRoundTrip(table);
  }

  lemma PrintedCellShape(row: int, col: int)
    requires row > 0 && col > 0
    ensures IsCompact(CellToA1(row, col).value)
  {
  }

  lemma CellAlphabet(table: CharTable, cell: string)
    requires ParseCell(table, cell).Ok?
    ensures forall k :: 0 <= k < |cell| ==>
              IsUpper(cell[k]) || IsLower(cell[k]) || IsDigit(cell[k]) || cell[k] == '\n'
  {
    var body := if cell != "" && cell[|cell| - 1] == '\n' then cell[..|cell| - 1] else cell;
    var n := Letters(body, 0);
    forall k | 0 <= k < |cell|
      ensures IsUpper(cell[k]) || IsLower(cell[k]) || IsDigit(cell[k]) || cell[k] == '\n'
    {
      if n <= k < |body| {
        assert AllDigits(body[n..]);
        assert cell[k] == body[n..][k - n];
      }
    }
  }

  // ---- Bounded ranges with a sheet title ------------------------------------------------

  datatype RangeSpec = RangeSpec(title: string, startRow: int, startCol: int, endRow: int, endCol: int)

  /** `s.replace("''", "'")` */
  function Undouble(s: string): string {
    if |s| >= 2 && s[0] == '\'' && s[1] == '\'' then "'" + Undouble(s[2..])
    else if s == "" then ""
    else [s[0]] + Undouble(s[1..])
  }

  /** The spreadsheet convention for a quoted title: apostrophes are doubled. */
  function Double(s: string): (r: string)
    ensures '!' in r <==> '!' in s
    ensures r == "" <==> s == ""
  {
    if s == "" then ""
    else (if s[0] == '\'' then "''" else [s[0]]) + Double(s[1..])
  }

  lemma {:induction false} UndoubleOfDouble(s: string)
    ensures Undouble(Double(s)) == s
  {
    if s != "" {
      UndoubleOfDouble(s[1..]);
      if s[0] == '\'' {
        assert Double(s)[2..] == Double(s[1..]);
      } else {
        assert Double(s)[1..] == Double(s[1..]);
      }
    }
  }

  function UnquoteTitle(raw: string): string {
    var title := Strip(raw);
    if |title| >= 2 && title[0] == '\'' && title[|title| - 1] == '\''
    then Undouble(title[1..|title| - 1])
    else title
  }

  function SpecOf(title: string, first: Result<(int, int)>, last: Result<(int, int)>): Result<RangeSpec> {
    if first.Err? then Err(first.message)
    else if last.Err? then Err(last.message)
    else if last.value.0 < first.value.0 || last.value.1 < first.value.1
    then Err("A1 range end must be greater than or equal to start")
    else Ok(RangeSpec(title, first.value.0, first.value.1, last.value.0, last.value.1))
  }

  ghost function ParseBounds(table: CharTable, title: string, bounds: string): Result<RangeSpec> {
    var at := Find(bounds, ':', 0);
    if at == |bounds| then Err("Unbounded or invalid A1 range")
    else
      var startCell, endCell := Strip(bounds[..at]), Strip(bounds[at + 1..]);
      if startCell == "" || endCell == "" then Err("Invalid A1 range bounds")
      else SpecOf(title, ParseCell(table, startCell), ParseCell(table, endCell))
  }

  ghost function ParseRange(table: CharTable, a1: string): Result<RangeSpec> {
    var at := Find(a1, '!', 0);
    if at == |a1| then Err("A1 range must include sheet title")
    else
      var title := UnquoteTitle(a1[..at]);
      if title == "" then Err("Sheet title in A1 range cannot be empty")
      else ParseBounds(table, title, a1[at + 1..])
  }

  function Quote(title: string): string { "'" + Double(title) + "'" }

  function PrintedBounds(spec: RangeSpec): string
    requires spec.startRow > 0 && spec.startCol > 0 && spec.endRow > 0 && spec.endCol > 0
  {
    CellToA1(spec.startRow, spec.startCol).value + ":" + CellToA1(spec.endRow, spec.endCol).value
  }

  lemma {:induction false} UpperIsLabel(table: CharTable, s: string)
    requires AgreesOnAscii(table) && forall k :: 0 <= k < |s| ==> IsUpper(s[k]) || IsLower(s[k])
    ensures |Upper(table, s)| == |s| && forall k :: 0 <= k < |s| ==> IsUpper(Upper(table, s)[k])
  {
    if s != "" {
      UpperIsLabel(table, s[1..]);
      assert AsciiCase(table, s[0]);
    }
  }

  lemma ParsedCellIsPositive(table: CharTable, cell: string)
    requires AgreesOnAscii(table) && ParseCell(table, cell).Ok?
    ensures ParseCell(table, cell).value.0 > 0 && ParseCell(table, cell).value.1 > 0
  {
    var body := if cell != "" && cell[|cell| - 1] == '\n' then cell[..|cell| - 1] else cell;
    var n := Letters(body, 0);
    var letters, digits := body[..n], body[n..];
    StripIdentity(letters);
    UpperIsLabel(table, letters);
    LabelOfValue(Upper(table, letters));
    PositiveNumber(digits);
  }

  lemma ParsedBoundsArePositive(table: CharTable, title: string, bounds: string)
    requires AgreesOnAscii(table) && ParseBounds(table, title, bounds).Ok?
    ensures var r := ParseBounds(table, title, bounds).value;
            r.title == title && 0 < r.startRow <= r.endRow && 0 < r.startCol <= r.endCol
  {
    var colon := Find(bounds, ':', 0);
    ParsedCellIsPositive(table, Strip(bounds[..colon]));
    ParsedCellIsPositive(table, Strip(bounds[colon + 1..]));
  }

  /** Whatever range parses has a title and positive, ordered bounds. */
  lemma ParsedRangeIsPositive(table: CharTable, a1: string)
    requires AgreesOnAscii(table) && ParseRange(table, a1).Ok?
    ensures var r := ParseRange(table, a1).value;
            r.title != "" && 0 < r.startRow <= r.endRow && 0 < r.startCol <= r.endCol
  {
    var at := Find(a1, '!', 0);
    ParsedBoundsArePositive(table, UnquoteTitle(a1[..at]), a1[at + 1..]);
  }

  lemma UnquoteOfQuote(title: string)
    ensures UnquoteTitle(Quote(title)) == title
  {
    var quoted := Quote(title);
    StripIdentity(quoted);
    assert quoted[1..|quoted| - 1] == Double(title);
    UndoubleOfDouble(title);
  }

  /** Upper-case letters and digits only: nothing to strip, no separator. */
  ghost predicate IsCompact(s: string) {
    s != "" && forall k :: 0 <= k < |s| ==> IsUpper(s[k]) || IsDigit(s[k])
  }

  lemma CompactStays(s: string)
    requires IsCompact(s)
    ensures Strip(s) == s && ':' !in s
  {
    StripIdentity(s);
  }

  lemma TwoCellsParse(table: CharTable, title: string, left: string, right: string)
    requires ParseCell(table, left).Ok? && ParseCell(table, right).Ok?
    requires left != "" && right != "" && ':' !in left && Strip(left) == left && Strip(right) == right
    ensures ParseBounds(table, title, left + ":" + right) ==
            SpecOf(title, ParseCell(table, left), ParseCell(table, right))
  {
    FindSeparator(left, right, ':');
    SeparatedParts(left, right, ':');
    assert left + ":" + right == left + [':'] + right;
  }

  lemma PrintedBoundsParse(table: CharTable, title: string, spec: RangeSpec)
    requires AgreesOnAscii(table)
    requires spec.startRow > 0 && spec.startCol > 0 && spec.endRow > 0 && spec.endCol > 0
    ensures var parsed := ParseBounds(table, title, PrintedBounds(spec));
            if spec.startRow <= spec.endRow && spec.startCol <= spec.endCol
            then parsed == Ok(spec.(title := title)) else parsed.Err?
  {
    PrintedCellShape(spec.startRow, spec.startCol);
    PrintedCellShape(spec.endRow, spec.endCol);
    CellReadsBack(table, spec.startRow, spec.startCol);
    CellReadsBack(table, spec.endRow, spec.endCol);
    var left, right := CellToA1(spec.startRow, spec.startCol).value, CellToA1(spec.endRow, spec.endCol).value;
    CompactStays(left);
    CompactStays(right);
    TwoCellsParse(table, title, left, right);
  }

  lemma BadCellsRejected(table: CharTable, title: string, bounds: string, left: string, right: string)
    requires var at := Find(bounds, ':', 0);
             at < |bounds| && left == bounds[..at] && right == bounds[at + 1..]
    requires ParseCell(table, Strip(left)).Err? || ParseCell(table, Strip(right)).Err?
    ensures ParseBounds(table, title, bounds).Err?
  {
  }

  /** A stray exclamation mark behind the separator makes the bounds unreadable. */
  lemma StrayMarkRejected(table: CharTable, title: string, bounds: string, k: nat)
    requires k < |bounds| && bounds[k] == '!'
    ensures ParseBounds(table, title, bounds).Err?
  {
    var at := Find(bounds, ':', 0);
    if at < |bounds| {
      var left, right := bounds[..at], bounds[at + 1..];
      if k < at {
        assert left[k] == '!';
        MarkedCellRejected(table, left, k);
      } else {
        assert right[k - at - 1] == '!';
        MarkedCellRejected(table, right, k - at - 1);
      }
      BadCellsRejected(table, title, bounds, left, right);
    }
  }

  lemma MarkedCellRejected(table: CharTable, part: string, k: nat)
    requires k < |part| && part[k] == '!'
    ensures ParseCell(table, Strip(part)).Err?
  {
    StripKeeps(part, k);
    var cell := Strip(part);
    var j :| 0 <= j < |cell| && cell[j] == '!';
    if ParseCell(table, cell).Ok? {
      CellAlphabet(table, cell);
    }
  }

  lemma StripKeeps(s: string, i: nat)
    requires i < |s| && !IsSpace(s[i])
    ensures s[i] in Strip(s)
  {
    var lo := SkipSpaces(s, 0);
    var hi := TrimSpaces(s, lo, |s|);
    assert lo <= i < hi;
    assert s[lo..hi][i - lo] == s[i];
  }

  /** A title with a mark of its own is cut at that mark, and the second mark makes the bounds unreadable. */
  lemma TwoMarksRejected(table: CharTable, quoted: string, bounds: string)
    requires AgreesOnAscii(table) && '!' in quoted
    ensures ParseRange(table, quoted + "!" + bounds).Err?
  {
    var a1 := quoted + "!" + bounds;
    var at := Find(a1, '!', 0);
    var k :| 0 <= k < |quoted| && quoted[k] == '!';
    assert a1[k] == '!' && a1[|quoted|] == '!';
    assert at <= k;
    var rest := a1[at + 1..];
    assert rest[|quoted| - at - 1] == '!';
    StrayMarkRejected(table, UnquoteTitle(a1[..at]), rest, |quoted| - at - 1);
  }

  /**
   * Printing a quoted title and two cells and parsing the result gives back title and bounds exactly when
   * the title is non-empty and has no '!' and the bounds are in order; otherwise it is an error.
   */
  lemma QuotedRangeRoundTrip(table: CharTable, spec: RangeSpec)
    requires AgreesOnAscii(table)
    requires spec.startRow > 0 && spec.startCol > 0 && spec.endRow > 0 && spec.endCol > 0
    ensures var parsed := ParseRange(table, Quote(spec.title) + "!" + PrintedBounds(spec));
            var wellFormed := && spec.title != "" && '!' !in spec.title
                              && spec.startRow <= spec.endRow && spec.startCol <= spec.endCol;
            if wellFormed then parsed == Ok(spec) else parsed.Err?
  {
    var quoted, bounds := Quote(spec.title), PrintedBounds(spec);
    var a1 := quoted + "!" + bounds;
    assert '!' in quoted <==> '!' in spec.title;
    if '!' in spec.title {
      TwoMarksRejected(table, quoted, bounds);
    } else {
      assert a1 == quoted + ['!'] + bounds;
      FindSeparator(quoted, bounds, '!');
      SeparatedParts(quoted, bounds, '!');
      UnquoteOfQuote(spec.title);
      PrintedBoundsParse(table, spec.title, spec);
    }
  }
}
