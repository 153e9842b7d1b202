/** When the anchors and key payloads of two tasks are equal (WorkAI/assess/aggregation.py). */
module CycleKeys {
  import opened Common
  import opened Text
  import opened Aggregation

  /** Sheet and place of a task that was read from a range: nothing is empty, and counting starts at 1. */
  predicate IsPlace(t: Task) {
    t.spreadsheet != "" && t.title != "" && t.row > 0 && t.col > 0 && t.line > 0
  }

  function SheetRef(t: Task): string { t.spreadsheet + ":" + t.title }

  ghost predicate SameNumbers(s: Task, t: Task) {
    s.row == t.row && s.col == t.col && s.line == t.line
  }

  // ---- Anchors ----------------------------------------------------------------------------------

  function Numbers(t: Task): string {
    ":" + IntToString(t.row) + ":" + IntToString(t.col) + ":" + IntToString(t.line)
  }

  /** Numbers behind colons can be read off from the end, whatever stands before them. */
  lemma NumbersSplit(p: string, s: Task, q: string, t: Task)
    requires p + Numbers(s) == q + Numbers(t)
    ensures p == q && SameNumbers(s, t)
  {
    var p1, q1 := p + ":" + IntToString(s.row), q + ":" + IntToString(t.row);
    var p2, q2 := p1 + ":" + IntToString(s.col), q1 + ":" + IntToString(t.col);
    assert p + Numbers(s) == p2 + ":" + IntToString(s.line);
    assert q + Numbers(t) == q2 + ":" + IntToString(t.line);
    SplitLast(p2, IntToString(s.line), q2, IntToString(t.line), ':');
    SplitLast(p1, IntToString(s.col), q1, IntToString(t.col), ':');
    SplitLast(p, IntToString(s.row), q, IntToString(t.row), ':');
    PrintedIntsDiffer(s.line, t.line);
    PrintedIntsDiffer(s.col, t.col);
    PrintedIntsDiffer(s.row, t.row);
  }

  lemma AnchorOf(t: Task)
    ensures AnchorRef(t) == SheetRef(t) + Numbers(t)
  {
  }

  lemma AnchorParts(s: Task, t: Task)
    requires AnchorRef(s) == AnchorRef(t)
    ensures SheetRef(s) == SheetRef(t) && SameNumbers(s, t)
  {
    AnchorOf(s);
    AnchorOf(t);
    NumbersSplit(SheetRef(s), s, SheetRef(t), t);
  }

  /** Tasks of spreadsheets `x` and `y` at different places with one anchor. */
  ghost predicate Clash(s: Task, t: Task, x: string, y: string) {
    && IsPlace(s) && IsPlace(t) && s.spreadsheet == x && t.spreadsheet == y
    && !SamePlace(s, t) && AnchorRef(s) == AnchorRef(t)
  }

  /** Anchors of two spreadsheets can clash exactly when one id continues the other behind a colon. */
  lemma AnchorsClashIff(x: string, y: string)
    ensures (exists s, t :: Clash(s, t, x, y)) <==> x != "" && y != "" && (x + ":" <= y || y + ":" <= x)
  {
    if s, t :| Clash(s, t, x, y) {
      AnchorParts(s, t);
      if |x| <= |y| {
        OneContinuesTheOther(x, s.title, y, t.title);
      } else {
        OneContinuesTheOther(y, t.title, x, s.title);
      }
    }
    if x != "" && x + ":" <= y {
      var s, t := AmbiguousAnchor(x, y);
    }
    if y != "" && y + ":" <= x {
      var t, s := AmbiguousAnchor(y, x);
      assert Clash(s, t, x, y);
    }
  }

  lemma OneContinuesTheOther(x: string, p: string, y: string, q: string)
    requires x + ":" + p == y + ":" + q && |x| <= |y|
    ensures (x == y && p == q) || x + ":" <= y
  {
    SeparatedParts(x, p, ':');
    SeparatedParts(y, q, ':');
    var whole := y + ":" + q;
    assert y == whole[..|y|] && x == whole[..|x|];
    if |x| < |y| {
      assert y[|x|] == whole[|x|] == ':';
    }
  }

  lemma AmbiguousAnchor(x: string, y: string) returns (s: Task, t: Task)
    requires x != "" && x + ":" <= y
    ensures Clash(s, t, x, y)
  {
    var rest := y[|x| + 1..];
    s := Task(1, 1, 0, x, rest + ":A", 1, 1, 1, "", None, None, false, false, None, None);
    t := s.(spreadsheet := y, title := "A");
    assert y == x + ":" + rest;
    assert SheetRef(s) == SheetRef(t);
    AnchorOf(s);
    AnchorOf(t);
  }

  // ---- Payloads ---------------------------------------------------------------------------------

  /** Employee, date and category, as they stand before the text. */
  function Head(lib: Lib, t: Task): string {
    IntToString(t.employee) + "|" + lib.iso(t.date) + "|" + lib.fold(Category(t))
  }

  function BeforeAnchor(lib: Lib, t: Task): string { Head(lib, t) + "|" + lib.fold(t.text) }

  lemma PayloadOf(lib: Lib, t: Task)
    ensures Payload(lib, t) == BeforeAnchor(lib, t) + "|" + SheetRef(t) + Numbers(t)
  {
    AnchorOf(t);
    assert BeforeAnchor(lib, t) + "|" + SheetRef(t) + Numbers(t) == BeforeAnchor(lib, t) + "|" + (SheetRef(t) + Numbers(t));
  }

  /** `whole` ends in `end`. */
  predicate EndsIn(whole: string, end: string) {
    |end| <= |whole| && whole[|whole| - |end|..] == end
  }

  /** One of two joined texts takes over what stands before the separator in the other. */
  lemma BarParts(p: string, r: string, p': string, r': string)
    requires p + "|" + r == p' + "|" + r' && |p| < |p'|
    ensures var m := p'[|p| + 1..];
            p' == p + "|" + m && r == m + "|" + r'
    ensures EndsIn(r, "|" + r')
  {
    var whole, m := p + "|" + r, p'[|p| + 1..];
    assert whole == p' + "|" + r';
    assert p'[..|p|] == whole[..|p|] == p && p'[|p|] == whole[|p|] == '|';
    assert p' == p + "|" + m;
    assert r == whole[|p| + 1..] == m + "|" + r';
    assert r[|m|..] == "|" + r';
  }

  /**
   * The sheets of two tasks can be mistaken for each other: id and title read alike, or one of them ends in a bar and
   * the other, so that the rest can pass for text.
   */
  ghost predicate NamesClash(s: Task, t: Task) {
    || (SheetRef(s) == SheetRef(t) && s.spreadsheet != t.spreadsheet)
    || EndsIn(SheetRef(s), "|" + SheetRef(t))
    || EndsIn(SheetRef(t), "|" + SheetRef(s))
  }

  lemma PayloadParts(lib: Lib, s: Task, t: Task)
    requires Payload(lib, s) == Payload(lib, t)
    ensures SameNumbers(s, t) && BeforeAnchor(lib, s) + "|" + SheetRef(s) == BeforeAnchor(lib, t) + "|" + SheetRef(t)
  {
    PayloadOf(lib, s);
    PayloadOf(lib, t);
    NumbersSplit(BeforeAnchor(lib, s) + "|" + SheetRef(s), s, BeforeAnchor(lib, t) + "|" + SheetRef(t), t);
  }

  lemma SameSheet(s: Task, t: Task)
    requires SheetRef(s) == SheetRef(t) && s.spreadsheet == t.spreadsheet
    ensures s.title == t.title
  {
    SeparatedParts(s.spreadsheet, s.title, ':');
    SeparatedParts(t.spreadsheet, t.title, ':');
  }

  lemma SameLengthParts(p: string, r: string, p': string, r': string)
    requires p + "|" + r == p' + "|" + r' && |p| == |p'|
    ensures p == p' && r == r'
  {
    SeparatedParts(p, r, '|');
    SeparatedParts(p', r', '|');
  }

  /** Tasks at different places have different payloads unless the names of their sheets clash. */
  lemma PayloadsDiffer(lib: Lib, s: Task, t: Task)
    requires !NamesClash(s, t) && Payload(lib, s) == Payload(lib, t)
    ensures SamePlace(s, t)
  {
    PayloadParts(lib, s, t);
    var p, q := BeforeAnchor(lib, s), BeforeAnchor(lib, t);
    if |p| < |q| {
      BarParts(p, SheetRef(s), q, SheetRef(t));
    } else if |q| < |p| {
      BarParts(q, SheetRef(t), p, SheetRef(s));
    } else {
      SameLengthParts(p, SheetRef(s), q, SheetRef(t));
      SameSheet(s, t);
    }
  }

  /** The text of `t` takes over the start of the sheet of `s`. */
  ghost predicate Absorbs(lib: Lib, s: Task, t: Task) {
    exists m :: SheetRef(s) == m + "|" + SheetRef(t) && lib.fold(t.text) == lib.fold(s.text) + "|" + m
  }

  ghost predicate SameHead(lib: Lib, s: Task, t: Task) {
    s.employee == t.employee && lib.iso(s.date) == lib.iso(t.date) && lib.fold(Category(s)) == lib.fold(Category(t))
  }

  ghost predicate SameTail(lib: Lib, s: Task, t: Task) {
    (SheetRef(s) == SheetRef(t) && lib.fold(s.text) == lib.fold(t.text)) || Absorbs(lib, s, t) || Absorbs(lib, t, s)
  }

  /** Date and category have no bar of their own. */
  ghost predicate PlainHead(lib: Lib, t: Task) {
    '|' !in lib.iso(t.date) && '|' !in lib.fold(Category(t))
  }

  /** The exact condition for equal payloads, when dates and categories have no bar. */
  lemma PayloadsEqualIff(lib: Lib, s: Task, t: Task)
    requires PlainHead(lib, s) && PlainHead(lib, t)
    ensures Payload(lib, s) == Payload(lib, t) <==> SameHead(lib, s, t) && SameNumbers(s, t) && SameTail(lib, s, t)
  {
    if Payload(lib, s) == Payload(lib, t) {
      PayloadParts(lib, s, t);
      var p, q := BeforeAnchor(lib, s), BeforeAnchor(lib, t);
      if |p| < |q| {
        BarParts(p, SheetRef(s), q, SheetRef(t));
        TextAbsorbs(lib, s, t, q[|p| + 1..]);
      } else if |q| < |p| {
        BarParts(q, SheetRef(t), p, SheetRef(s));
        TextAbsorbs(lib, t, s, p[|q| + 1..]);
      } else {
        SameLengthParts(p, SheetRef(s), q, SheetRef(t));
        HeadsSplit(lib, s, lib.fold(s.text), t, lib.fold(t.text));
      }
    }
    if SameHead(lib, s, t) && SameNumbers(s, t) {
      EqualTails(lib, s, t);
      EqualTails(lib, t, s);
    }
  }

  /** Employee, date and category can be read off from the start. */
  lemma HeadsSplit(lib: Lib, s: Task, a: string, t: Task, b: string)
    requires PlainHead(lib, s) && PlainHead(lib, t) && Head(lib, s) + "|" + a == Head(lib, t) + "|" + b
    ensures SameHead(lib, s, t) && a == b
  {
    var s1, t1 := lib.fold(Category(s)) + "|" + a, lib.fold(Category(t)) + "|" + b;
    var s2, t2 := lib.iso(s.date) + "|" + s1, lib.iso(t.date) + "|" + t1;
    assert Head(lib, s) + "|" + a == IntToString(s.employee) + "|" + s2;
    assert Head(lib, t) + "|" + b == IntToString(t.employee) + "|" + t2;
    SplitFirst(IntToString(s.employee), s2, IntToString(t.employee), t2, '|');
    SplitFirst(lib.iso(s.date), s1, lib.iso(t.date), t1, '|');
    SplitFirst(lib.fold(Category(s)), a, lib.fold(Category(t)), b, '|');
    PrintedIntsDiffer(s.employee, t.employee);
  }

  lemma TextAbsorbs(lib: Lib, s: Task, t: Task, m: string)
    requires PlainHead(lib, s) && PlainHead(lib, t)
    requires BeforeAnchor(lib, t) == BeforeAnchor(lib, s) + "|" + m && SheetRef(s) == m + "|" + SheetRef(t)
    ensures SameHead(lib, s, t) && Absorbs(lib, s, t)
  {
    var text := lib.fold(s.text) + "|" + m;
    assert BeforeAnchor(lib, s) + "|" + m == Head(lib, s) + "|" + text;
    HeadsSplit(lib, s, text, t, lib.fold(t.text));
  }

  lemma EqualTails(lib: Lib, s: Task, t: Task)
    requires SameHead(lib, s, t) && SameNumbers(s, t)
    ensures SheetRef(s) == SheetRef(t) && lib.fold(s.text) == lib.fold(t.text) ==> Payload(lib, s) == Payload(lib, t)
    ensures Absorbs(lib, s, t) ==> Payload(lib, s) == Payload(lib, t)
  {
    PayloadOf(lib, s);
    PayloadOf(lib, t);
    assert Head(lib, s) == Head(lib, t);
    if m :| SheetRef(s) == m + "|" + SheetRef(t) && lib.fold(t.text) == lib.fold(s.text) + "|" + m {
      MovedBar(Head(lib, s), lib.fold(s.text), m, SheetRef(t));
    }
  }

  lemma MovedBar(head: string, text: string, m: string, ref: string)
    ensures head + "|" + text + "|" + (m + "|" + ref) == head + "|" + (text + "|" + m) + "|" + ref
  {
  }

  // ---- Titles -----------------------------------------------------------------------------------

  /** A configured spreadsheet id, stripped and not empty, without the two separators. */
  predicate IsPlainId(x: string) {
    x != "" && Strip(x) == x && ':' !in x && '|' !in x
  }

  /** `title` contains a bar, then a plain id, then a colon, then more. */
  predicate HidesSheetAt(title: string, i: int, j: int) {
    0 <= i < j < |title| - 1 && title[i] == '|' && title[j] == ':' && IsPlainId(title[i + 1..j])
  }

  ghost predicate HidesSheet(title: string) {
    exists i, j :: HidesSheetAt(title, i, j)
  }

  ghost predicate CanBeMistaken(x: string, title: string, y: string, q: string) {
    IsPlainId(y) && q != "" && EndsIn(x + ":" + title, "|" + y + ":" + q)
  }

  /** In a spreadsheet with a plain id a title is harmful exactly when it hides the name of a sheet. */
  lemma TitleIsHarmfulIff(x: string, title: string)
    requires IsPlainId(x)
    ensures (exists y, q :: CanBeMistaken(x, title, y, q)) <==> HidesSheet(title)
  {
    if y, q :| CanBeMistaken(x, title, y, q) {
      HiddenAt(x, title, y, q);
    }
    if i, j :| HidesSheetAt(title, i, j) {
      var p, y, q := HiddenParts(title, i, j);
      EndOfRef(x, title, i);
      assert CanBeMistaken(x, title, y, q);
    }
  }

  lemma EndOfRef(x: string, title: string, i: nat)
    requires i <= |title|
    ensures EndsIn(x + ":" + title, title[i..])
  {
    var whole := x + ":" + title;
    assert whole[|whole| - |title[i..]|..] == title[i..];
  }

  lemma HiddenParts(title: string, i: int, j: int) returns (p: string, y: string, q: string)
    requires HidesSheetAt(title, i, j)
    ensures p == title[..i] && y == title[i + 1..j] && q == title[j + 1..] && title == p + "|" + y + ":" + q
    ensures IsPlainId(y) && q != "" && title[i..] == "|" + y + ":" + q
  {
    p, y, q := title[..i], title[i + 1..j], title[j + 1..];
  }

  lemma HiddenAt(x: string, title: string, y: string, q: string)
    requires IsPlainId(x) && CanBeMistaken(x, title, y, q)
    ensures HidesSheet(title)
  {
    var end := "|" + y + ":" + q;
    BarIsInTitle(x, title, end);
    var i := |title| - |end|;
    assert title[i..] == end;
    SeparatedParts("|" + y, q, ':');
    assert title[i] == end[0] && title[i + 1 + |y|] == end[1 + |y|];
    assert title[i + 1..i + 1 + |y|] == end[1..1 + |y|] == y;
    assert HidesSheetAt(title, i, i + 1 + |y|);
  }

  lemma BarIsInTitle(x: string, title: string, end: string)
    requires IsPlainId(x) && EndsIn(x + ":" + title, end) && end != "" && end[0] == '|'
    ensures EndsIn(title, end)
  {
    var whole := x + ":" + title;
    var at := |whole| - |end|;
    assert whole[at] == whole[at..][0];
    assert forall k :: 0 <= k < |x| ==> whole[k] == x[k] && x[k] in x;
    assert whole[|x|] == ':';
    assert title[at - |x| - 1..] == whole[at..];
  }

  lemma NotMistaken(s: Task, t: Task)
    requires IsPlainId(s.spreadsheet) && IsPlainId(t.spreadsheet) && t.title != "" && !HidesSheet(s.title)
    ensures !EndsIn(SheetRef(s), "|" + SheetRef(t))
  {
    TitleIsHarmfulIff(s.spreadsheet, s.title);
    assert "|" + SheetRef(t) == "|" + t.spreadsheet + ":" + t.title;
    assert !CanBeMistaken(s.spreadsheet, s.title, t.spreadsheet, t.title);
  }

  /** Plain ids and titles that hide no sheet never clash. */
  lemma PlainNamesDoNotClash(s: Task, t: Task)
    requires IsPlainId(s.spreadsheet) && IsPlainId(t.spreadsheet) && s.title != "" && t.title != ""
    requires !HidesSheet(s.title) && !HidesSheet(t.title)
    ensures !NamesClash(s, t)
  {
    NotMistaken(s, t);
    NotMistaken(t, s);
    if SheetRef(s) == SheetRef(t) {
      SplitFirst(s.spreadsheet, s.title, t.spreadsheet, t.title, ':');
    }
  }

  /**
   * A task whose title hides a sheet shares its payload with a task of that sheet, as soon as some text casefolds to
   * its own text, a bar, and the beginning of its sheet name.
   */
  lemma HiddenSheetClashes(lib: Lib, s: Task, text: string, i: int, j: int) returns (t: Task)
    requires IsPlace(s) && HidesSheetAt(s.title, i, j)
    requires lib.fold(text) == lib.fold(s.text) + "|" + (s.spreadsheet + ":" + s.title[..i])
    ensures IsPlace(t) && IsPlainId(t.spreadsheet) && t.text == text && !SamePlace(s, t)
    ensures Payload(lib, s) == Payload(lib, t)
  {
    var p, y, q := HiddenParts(s.title, i, j);
    t := s.(text := text, spreadsheet := y, title := q);
    var m := s.spreadsheet + ":" + p;
    assert SheetRef(s) == m + "|" + SheetRef(t);
    EqualTails(lib, s, t);
  }
}
