/** Overlapping text windows for full-text indexing (WorkAI/knowledge_base/chunking.py). */
module Chunking {
  import opened Common
  import opened Text

  // ---- Whitespace normalization -------------------------------------------------

  /** `re.sub(r"\s+", " ", s)`: every maximal whitespace run becomes one blank. */
  function Squeeze(s: string): (r: string)
    ensures r == "" <==> s == ""
    ensures s != "" ==> r[0] == (if IsSpace(s[0]) then ' ' else s[0])
  {
    if s == "" then ""
    else if IsSpace(s[0]) then " " + Squeeze(s[SkipSpaces(s, 1)..])
    else [s[0]] + Squeeze(s[1..])
  }

  function Normalize(text: string): string {
    Strip(Squeeze(text))
  }

  /** Blanks are the only whitespace, they are single, and none leads or trails. */
  ghost predicate IsNormalized(t: string) {
    && (forall k :: 0 <= k < |t| && IsSpace(t[k]) ==> t[k] == ' ')
    && (forall k :: 0 <= k < |t| - 1 && t[k] == ' ' ==> t[k + 1] != ' ')
    && (t != "" ==> t[0] != ' ' && t[|t| - 1] != ' ')
  }

  lemma {:induction false} SqueezeLeavesSingleBlanks(s: string)
    ensures forall k :: 0 <= k < |Squeeze(s)| && IsSpace(Squeeze(s)[k]) ==> Squeeze(s)[k] == ' '
    ensures forall k :: 0 <= k < |Squeeze(s)| - 1 && Squeeze(s)[k] == ' ' ==> Squeeze(s)[k + 1] != ' '
    decreases |s|
  {
    if s == "" {
    } else if IsSpace(s[0]) {
      SqueezeLeavesSingleBlanks(s[SkipSpaces(s, 1)..]);
    } else {
      SqueezeLeavesSingleBlanks(s[1..]);
    }
  }

  lemma NormalizeNormalizes(text: string)
    ensures IsNormalized(Normalize(text))
  {
    SqueezeLeavesSingleBlanks(text);
    var s := Squeeze(text);
    var lo := SkipSpaces(s, 0);
    var hi := TrimSpaces(s, lo, |s|);
    assert Normalize(text) == s[lo..hi];
  }

  lemma {:induction false} SqueezeKeepsWords(s: string)
    ensures Words(Squeeze(s)) == Words(s)
    decreases |s|
  {
    if s == "" {
    } else if IsSpace(s[0]) {
      var k := SkipSpaces(s, 1);
      SqueezeKeepsWords(s[k..]);
      LeadingSpaces(s, k);
      LeadingBlank(Squeeze(s[k..]));
    } else {
      SqueezeKeepsWords(s[1..]);
      WordsCons(s[0], s[1..]);
      WordsCons(s[0], Squeeze(s[1..]));
      HeadAndTail(s);
    }
  }

  lemma LeadingBlank(s: string)
    ensures Words(" " + s) == Words(s)
  {
    LeadingSpaces(" " + s, 1);
    assert (" " + s)[1..] == s;
  }

  lemma HeadAndTail(s: string)
    requires s != ""
    ensures [s[0]] + s[1..] == s
  {
  }

  /** `" ".join(words)` */
  function Join(words: seq<string>): string {
    if words == [] then ""
    else if |words| == 1 then words[0]
    else words[0] + " " + Join(words[1..])
  }

  lemma {:induction false} NormalizedIsJoined(t: string)
    requires IsNormalized(t)
    ensures t == Join(Words(t))
    decreases |t|
  {
    if |t| <= 1 {
    } else if t[1] == ' ' {
      RestIsNormalized(t, 2);
      NormalizedIsJoined(t[2..]);
      LeadingSpaces(t[1..], 1);
      assert t[1..][1..] == t[2..];
      assert t == [t[0]] + " " + t[2..];
    } else {
      RestIsNormalized(t, 1);
      NormalizedIsJoined(t[1..]);
      JoinCons(t[0], Words(t[1..]));
    }
  }

  lemma JoinCons(c: char, words: seq<string>)
    requires words != []
    ensures Join([[c] + words[0]] + words[1..]) == [c] + Join(words)
  {
    var first, rest := words[0], words[1..];
    var longer := [[c] + first] + rest;
    assert longer[1..] == rest;
    if rest != [] {
      assert Join(longer) == ([c] + first) + " " + Join(rest);
      assert Join(words) == first + " " + Join(rest);
      FrontJoins([c], first, " " + Join(rest));
      FrontJoins([c] + first, " ", Join(rest));
      FrontJoins(first, " ", Join(rest));
    }
  }

  lemma FrontJoins(a: string, b: string, c: string)
    ensures (a + b) + c == a + (b + c)
  {
  }

  lemma RestIsNormalized(t: string, k: nat)
    requires IsNormalized(t) && 0 < k < |t| && t[k] != ' '
    ensures IsNormalized(t[k..])
  {
    var rest := t[k..];
    assert forall i :: 0 <= i < |rest| ==> rest[i] == t[k + i];
  }

  /** The regular expression and the strip amount to joining the words of the text with single blanks. */
  lemma NormalizeJoinsWords(text: string)
    ensures Normalize(text) == Join(Words(text)) && Words(Normalize(text)) == Words(text)
  {
    NormalizeNormalizes(text);
    SqueezeKeepsWords(text);
    StripKeepsWords(Squeeze(text));
    NormalizedIsJoined(Normalize(text));
  }

  lemma NormalizeKeepsWords(text: string, w: string)
    ensures HasWord(text, w) <==> HasWord(Normalize(text), w)
  {
    NormalizeJoinsWords(text);
    WordsAreRuns(text, w);
    WordsAreRuns(Normalize(text), w);
  }

  // ---- Windows -------------------------------------------------------------------

  /** `t.rfind(" ", lo, hi)`. */
  function RFindBlank(t: string, lo: nat, hi: nat): (r: int)
    requires lo <= hi <= |t|
    ensures r == -1 || (lo <= r < hi && t[r] == ' ')
    ensures forall k :: lo <= k < hi && r < k ==> t[k] != ' '
  {
    if lo == hi then -1 else if t[hi - 1] == ' ' then hi - 1 else RFindBlank(t, lo, hi - 1)
  }

  function Min(a: nat, b: nat): nat { if a <= b then a else b }

  function WindowEnd(t: string, start: nat, maxChars: nat): nat
    requires start < |t| && 0 < maxChars
  {
    var end := Min(start + maxChars, |t|);
    if end < |t| then
      var splitAt := RFindBlank(t, start, end);
      if splitAt > start then splitAt else end
    else end
  }

  function NextStart(start: nat, end: nat, overlap: nat): nat {
    var next := if overlap <= end then end - overlap else 0;
    if next <= start then end else next
  }

  datatype Window = Window(start: nat, end: nat)

  /** The windows that the loop visits from `start` on. */
  function Windows(t: string, start: nat, maxChars: nat, overlap: nat): seq<Window>
    requires overlap < maxChars
    decreases |t| - start
  {
    if start >= |t| then []
    else
      var end := WindowEnd(t, start, maxChars);
      var rest := if end >= |t| then [] else Windows(t, NextStart(start, end, overlap), maxChars, overlap);
      [Window(start, end)] + rest
  }

  /** `t[w.start:w.end]` */
  function TextOf(t: string, w: Window): string {
    if w.start <= w.end <= |t| then t[w.start..w.end] else ""
  }

  /** `parts` extended by the stripped, non-empty texts of the windows from `start` on. */
  function ChunksFrom(t: string, start: nat, maxChars: nat, overlap: nat, parts: seq<string>): seq<string>
    requires overlap < maxChars
    decreases |t| - start
  {
    if start >= |t| then parts
    else
      var end := WindowEnd(t, start, maxChars);
      var parts' := AddPiece(parts, Strip(t[start..end]));
      if end >= |t| then parts' else ChunksFrom(t, NextStart(start, end, overlap), maxChars, overlap, parts')
  }

  function AddPiece(parts: seq<string>, piece: string): seq<string> {
    if piece != "" then parts + [piece] else parts
  }

  /** The chunks of an already normalized text. */
  function ChunksOf(t: string, maxChars: nat, overlap: nat): seq<string>
    requires overlap < maxChars
  {
    ChunksFrom(t, 0, maxChars, overlap, [])
  }

  method ChunkText(text: string, maxChars: int, overlap: int) returns (r: Result<seq<string>>)
    ensures Normalize(text) == "" ==> r == Ok([])
    ensures Normalize(text) != "" ==> (r.Ok? <==> 0 <= overlap < maxChars)
    ensures Normalize(text) != "" && r.Ok? ==> r == Ok(ChunksOf(Normalize(text), maxChars, overlap))
  {
    var normalized := Normalize(text);
    if normalized == "" { return Ok([]); }
    if maxChars <= 0 { return Err("max_chars must be > 0"); }
    if overlap < 0 { return Err("overlap must be >= 0"); }
    if overlap >= maxChars { return Err("overlap must be < max_chars"); }

    var parts: seq<string> := [];
    var start: nat := 0;
    var size := |normalized|;
    while start < size
      invariant ChunksFrom(normalized, start, maxChars, overlap, parts) == ChunksOf(normalized, maxChars, overlap)
      decreases size - start
    {
      var end := if start + maxChars <= size then start + maxChars else size;
      if end < size {
        var splitAt := RFindBlank(normalized, start, end);
        if splitAt > start {
          end := splitAt;
        }
      }
      assert end == WindowEnd(normalized, start, maxChars);
      var piece := Strip(normalized[start..end]);
      if piece != "" {
        parts := parts + [piece];
      }
      if end >= size {
        break;
      }
      var nextStart := if end - overlap > 0 then end - overlap else 0;
      if nextStart <= start {
        nextStart := end;
      }
      assert nextStart == NextStart(start, end, overlap);
      start := nextStart;
    }
    r := Ok(parts);
  }

  /** Every window whose text is not blank yields a chunk, and the chunks already there stay. */
  lemma {:induction false} WindowsYieldChunks(t: string, start: nat, maxChars: nat, overlap: nat, parts: seq<string>)
    requires overlap < maxChars
    ensures var chunks := ChunksFrom(t, start, maxChars, overlap, parts);
            && (forall c :: c in parts ==> c in chunks)
            && (forall w :: w in Windows(t, start, maxChars, overlap) && Strip(TextOf(t, w)) != "" ==>
                  Strip(TextOf(t, w)) in chunks)
    decreases |t| - start
  {
    if start < |t| {
      var end := WindowEnd(t, start, maxChars);
      var piece := Strip(t[start..end]);
      var parts' := AddPiece(parts, piece);
      assert TextOf(t, Window(start, end)) == t[start..end];
      assert piece != "" ==> piece in parts';
      if end < |t| {
        WindowsYieldChunks(t, NextStart(start, end, overlap), maxChars, overlap, parts');
      }
    }
  }

  /** Every new chunk is the stripped text of a window. */
  lemma {:induction false} ChunksHaveWindows(t: string, start: nat, maxChars: nat, overlap: nat, parts: seq<string>)
    requires overlap < maxChars
    ensures forall c :: c in ChunksFrom(t, start, maxChars, overlap, parts) && c !in parts ==>
              c != "" && exists w :: w in Windows(t, start, maxChars, overlap) && c == Strip(TextOf(t, w))
    decreases |t| - start
  {
    if start < |t| {
      var end := WindowEnd(t, start, maxChars);
      assert Window(start, end) in Windows(t, start, maxChars, overlap);
      assert TextOf(t, Window(start, end)) == t[start..end];
      var parts' := AddPiece(parts, Strip(t[start..end]));
      if end < |t| {
        ChunksHaveWindows(t, NextStart(start, end, overlap), maxChars, overlap, parts');
      }
    }
  }

  // ---- Progress and coverage -----------------------------------------------------

  /** What two neighbouring windows satisfy. */
  ghost predicate Adjacent(v: Window, w: Window, overlap: nat) {
    v.start < w.start <= v.end <= w.end && v.end - w.start <= overlap
  }

  /** A cut that is not at a blank leaves no blank behind it in the window, except a leading one. */
  lemma WindowEndShape(t: string, start: nat, maxChars: nat)
    requires start < |t| && 0 < maxChars
    ensures start < WindowEnd(t, start, maxChars) <= Min(start + maxChars, |t|)
    ensures var end := WindowEnd(t, start, maxChars);
            end < |t| && t[end] != ' ' ==>
              end == start + maxChars && forall k :: start < k < end ==> t[k] != ' '
  {
  }

  lemma NextWindowEndsNoEarlier(t: string, start: nat, maxChars: nat, overlap: nat)
    requires start < |t| && overlap < maxChars
    requires WindowEnd(t, start, maxChars) < |t|
    ensures var end := WindowEnd(t, start, maxChars);
            var next := NextStart(start, end, overlap);
            Adjacent(Window(start, end), Window(next, WindowEnd(t, next, maxChars)), overlap)
  {
    WindowEndShape(t, start, maxChars);
    var end := WindowEnd(t, start, maxChars);
    var next := NextStart(start, end, overlap);
    WindowEndShape(t, next, maxChars);
    if next < end && t[end] == ' ' && next + maxChars < |t| {
      assert RFindBlank(t, next, next + maxChars) >= end;
    }
  }

  /**
   * Windows that reach the end of a text of `size` characters: each is non-empty and at most `maxChars`
   * long, starts strictly increase, ends never decrease, neighbours leave no gap and share at most `overlap`.
   */
  ghost predicate Covers(ws: seq<Window>, size: nat, maxChars: nat, overlap: nat) {
    && ws != [] && ws[0].start < ws[0].end <= size && ws[0].end - ws[0].start <= maxChars
    && if |ws| == 1 then ws[0].end == size
       else Adjacent(ws[0], ws[1], overlap) && Covers(ws[1..], size, maxChars, overlap)
  }

  lemma {:induction false} WindowsCover(t: string, start: nat, maxChars: nat, overlap: nat)
    requires start < |t| && overlap < maxChars
    ensures Covers(Windows(t, start, maxChars, overlap), |t|, maxChars, overlap)
    ensures Windows(t, start, maxChars, overlap)[0] == Window(start, WindowEnd(t, start, maxChars))
    decreases |t| - start
  {
    WindowEndShape(t, start, maxChars);
    var end := WindowEnd(t, start, maxChars);
    if end < |t| {
      var next := NextStart(start, end, overlap);
      NextWindowEndsNoEarlier(t, start, maxChars, overlap);
      WindowsCover(t, next, maxChars, overlap);
      assert Windows(t, start, maxChars, overlap)[1..] == Windows(t, next, maxChars, overlap);
    }
  }

  /** Glue the window texts together, dropping from each the part an earlier window already showed. */
  function Stitch(texts: seq<string>, shown: seq<nat>): string
    requires |texts| == |shown|
  {
    if texts == [] then ""
    else (if shown[0] <= |texts[0]| then texts[0][shown[0]..] else "") + Stitch(texts[1..], shown[1..])
  }

  function WindowTexts(t: string, ws: seq<Window>): (texts: seq<string>)
    ensures |texts| == |ws|
  {
    seq(|ws|, i requires 0 <= i < |ws| => TextOf(t, ws[i]))
  }

  /** How much of each window the previous one already showed; `from` is where the first starts afresh. */
  function Overlaps(ws: seq<Window>, from: nat): (shown: seq<nat>)
    ensures |shown| == |ws|
  {
    if ws == [] then []
    else [if ws[0].start <= from then from - ws[0].start else 0] + Overlaps(ws[1..], ws[0].end)
  }

  lemma {:induction false} StitchRestores(t: string, ws: seq<Window>, from: nat, maxChars: nat, overlap: nat)
    requires Covers(ws, |t|, maxChars, overlap)
    requires ws[0].start <= from <= ws[0].end
    ensures Stitch(WindowTexts(t, ws), Overlaps(ws, from)) == t[from..]
    decreases |ws|
  {
    var w := ws[0];
    assert t[w.start..w.end][from - w.start..] == t[from..w.end];
    if |ws| == 1 {
      assert WindowTexts(t, ws)[1..] == [];
    } else {
      StitchRestores(t, ws[1..], w.end, maxChars, overlap);
      assert WindowTexts(t, ws)[1..] == WindowTexts(t, ws[1..]);
      assert t[from..w.end] + t[w.end..] == t[from..];
    }
  }

  /** Dropping the overlaps from the windows gives back the normalized text. */
  lemma WindowsRestoreText(t: string, maxChars: nat, overlap: nat)
    requires t != "" && overlap < maxChars
    ensures var ws := Windows(t, 0, maxChars, overlap);
            Stitch(WindowTexts(t, ws), Overlaps(ws, 0)) == t
  {
    WindowsCover(t, 0, maxChars, overlap);
    StitchRestores(t, Windows(t, 0, maxChars, overlap), 0, maxChars, overlap);
    assert t[0..] == t;
  }

  // ---- Words ---------------------------------------------------------------------

  /** Only a word of at least `maxChars` characters can be cut by the end of a window. */
  lemma EndCutsOnlyLongWords(t: string, start: nat, maxChars: nat, a: nat, b: nat)
    requires IsNormalized(t) && start < |t| && 0 < maxChars
    requires IsWordAt(t, a, b) && a < WindowEnd(t, start, maxChars) < b
    ensures b - a >= maxChars
  {
    var end := WindowEnd(t, start, maxChars);
    WindowEndShape(t, start, maxChars);
    assert !IsSpace(t[end]);
    assert t[end] != ' ';
    if start < a {
      assert t[a - 1] == ' ';
      assert a - 1 == start;
    }
  }

  lemma {:induction false} WordFitsSomeWindow(t: string, start: nat, maxChars: nat, overlap: nat, a: nat, b: nat)
    returns (i: nat)
    requires IsNormalized(t) && start < |t| && overlap < maxChars
    requires IsWordAt(t, a, b) && start <= a && b - a < maxChars
    ensures var ws := Windows(t, start, maxChars, overlap);
            i < |ws| && ws[i].start <= a && b <= ws[i].end <= |t|
    decreases |t| - start
  {
    var end := WindowEnd(t, start, maxChars);
    WindowEndShape(t, start, maxChars);
    if b <= end {
      i := 0;
    } else {
      if a < end {
        EndCutsOnlyLongWords(t, start, maxChars, a, b);
        assert false;
      }
      i := WordFitsSomeWindow(t, NextStart(start, end, overlap), maxChars, overlap, a, b);
      i := i + 1;
    }
  }

  lemma WordSurvivesSlice(t: string, lo: nat, hi: nat, a: nat, b: nat)
    requires IsWordAt(t, a, b) && lo <= a && b <= hi <= |t|
    ensures IsWordAt(t[lo..hi], a - lo, b - lo) && t[lo..hi][a - lo..b - lo] == t[a..b]
  {
    var s := t[lo..hi];
    assert forall k :: 0 <= k < |s| ==> s[k] == t[lo + k];
  }

  /** A word inside a slice is still a word of the stripped slice. */
  lemma WordSurvivesStrip(t: string, lo: nat, hi: nat, a: nat, b: nat)
    requires IsWordAt(t, a, b) && lo <= a && b <= hi <= |t|
    ensures HasWord(Strip(t[lo..hi]), t[a..b])
  {
    var s := t[lo..hi];
    WordSurvivesSlice(t, lo, hi, a, b);
    var p := SkipSpaces(s, 0);
    var q := TrimSpaces(s, p, |s|);
    assert !IsSpace(s[a - lo]) && !IsSpace(s[b - 1 - lo]);
    WordSurvivesSlice(s, p, q, a - lo, b - lo);
  }

  /** Main result: every word of the text that is shorter than `maxChars` is a word of some chunk. */
  lemma ShortWordsSurvive(text: string, maxChars: nat, overlap: nat, w: string)
    requires overlap < maxChars
    requires HasWord(text, w) && |w| < maxChars
    ensures exists c :: c in ChunksOf(Normalize(text), maxChars, overlap) && HasWord(c, w)
  {
    var t := Normalize(text);
    NormalizeNormalizes(text);
    NormalizeKeepsWords(text, w);
    var a, b :| IsWordAt(t, a, b) && t[a..b] == w;
    var i := WordFitsSomeWindow(t, 0, maxChars, overlap, a, b);
    var ws := Windows(t, 0, maxChars, overlap);
    var c := Strip(TextOf(t, ws[i]));
    WordSurvivesStrip(t, ws[i].start, ws[i].end, a, b);
    assert c != "";
    WindowsYieldChunks(t, 0, maxChars, overlap, []);
    assert ws[i] in ws;
  }

  lemma {:induction false} WindowsAreBounded(t: string, start: nat, maxChars: nat, overlap: nat)
    requires overlap < maxChars
    ensures forall w :: w in Windows(t, start, maxChars, overlap) ==> |TextOf(t, w)| <= maxChars
    decreases |t| - start
  {
    if start < |t| {
      WindowEndShape(t, start, maxChars);
      var end := WindowEnd(t, start, maxChars);
      if end < |t| {
        WindowsAreBounded(t, NextStart(start, end, overlap), maxChars, overlap);
      }
    }
  }

  lemma WindowOf(t: string, maxChars: nat, overlap: nat, c: string) returns (w: Window)
    requires overlap < maxChars && c in ChunksOf(t, maxChars, overlap)
    ensures c != "" && w in Windows(t, 0, maxChars, overlap) && c == Strip(TextOf(t, w))
  {
    ChunksHaveWindows(t, 0, maxChars, overlap, []);
    w :| w in Windows(t, 0, maxChars, overlap) && c == Strip(TextOf(t, w));
  }

  /** Chunks are non-empty, at most `maxChars` long, and carry no outer whitespace. */
  lemma ChunksAreBounded(t: string, maxChars: nat, overlap: nat, c: string)
    requires t != "" && overlap < maxChars
    requires c in ChunksOf(t, maxChars, overlap)
    ensures 0 < |c| <= maxChars && !IsSpace(c[0]) && !IsSpace(c[|c| - 1])
  {
    WindowsAreBounded(t, 0, maxChars, overlap);
    var w := WindowOf(t, maxChars, overlap, c);
  }
}
