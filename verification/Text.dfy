/** Python string operations used by several modules: strip, whitespace words, integer printing. */
module Text {

  /** `str.isspace` for one character; also what `\s` matches. */
  predicate IsSpace(c: char) {
    var k := c as int;
    || 9 <= k <= 13 || 28 <= k <= 32 || k == 0x85 || k == 0xA0 || k == 0x1680
    || 0x2000 <= k <= 0x200A || k == 0x2028 || k == 0x2029 || k == 0x202F || k == 0x205F || k == 0x3000
  }

  /** The first position from `i` on that is not whitespace. */
  function SkipSpaces(s: string, i: nat): (r: nat)
    requires i <= |s|
    ensures i <= r <= |s|
    ensures r < |s| ==> !IsSpace(s[r])
    ensures forall k :: i <= k < r ==> IsSpace(s[k])
    decreases |s| - i
  {
    if i < |s| && IsSpace(s[i]) then SkipSpaces(s, i + 1) else i
  }

  /** The last position down from `j` (exclusive end) such that everything behind it is whitespace. */
  function TrimSpaces(s: string, lo: nat, j: nat): (r: nat)
    requires lo <= j <= |s|
    ensures lo <= r <= j
    ensures lo < r ==> !IsSpace(s[r - 1])
    ensures forall k :: r <= k < j ==> IsSpace(s[k])
  {
    if lo < j && IsSpace(s[j - 1]) then TrimSpaces(s, lo, j - 1) else j
  }

  /** `str.strip()`: what is left is a slice, and everything outside it is whitespace. */
  function Strip(s: string): (r: string)
    ensures |r| <= |s|
    ensures r != "" ==> !IsSpace(r[0]) && !IsSpace(r[|r| - 1])
  {
    var lo := SkipSpaces(s, 0);
    s[lo..TrimSpaces(s, lo, |s|)]
  }

  lemma StripIdentity(s: string)
    requires s != "" ==> !IsSpace(s[0]) && !IsSpace(s[|s| - 1])
    ensures Strip(s) == s
  {
  }

  /** The slice [a, b) of `t` is a maximal run of non-whitespace characters. */
  ghost predicate IsWordAt(t: string, a: int, b: int) {
    && 0 <= a < b <= |t|
    && (forall k :: a <= k < b ==> !IsSpace(t[k]))
    && (a == 0 || IsSpace(t[a - 1]))
    && (b == |t| || IsSpace(t[b]))
  }

  /** `w` is one of the words of `t`, that is, an element of `t.split()`. */
  ghost predicate HasWord(t: string, w: string) {
    exists a, b :: IsWordAt(t, a, b) && t[a..b] == w
  }

  predicate StartsWord(s: string) { s != "" && !IsSpace(s[0]) }

  /** `s.split()`, read from the left: a character joins the word it stands in front of. */
  function Words(s: string): (words: seq<string>)
    ensures StartsWord(s) ==> words != []
  {
    if s == "" then []
    else
      var rest := Words(s[1..]);
      if IsSpace(s[0]) then rest
      else if StartsWord(s[1..]) then [[s[0]] + rest[0]] + rest[1..]
      else [[s[0]]] + rest
  }

  lemma WordsCons(c: char, s: string)
    ensures IsSpace(c) ==> Words([c] + s) == Words(s)
    ensures !IsSpace(c) && StartsWord(s) ==> Words([c] + s) == [[c] + Words(s)[0]] + Words(s)[1..]
    ensures !IsSpace(c) && !StartsWord(s) ==> Words([c] + s) == [[c]] + Words(s)
  {
    assert ([c] + s)[1..] == s;
  }

  /** Leading whitespace does not matter. */
  lemma {:induction false} LeadingSpaces(s: string, k: nat)
    requires k <= |s| && forall i :: 0 <= i < k ==> IsSpace(s[i])
    ensures Words(s) == Words(s[k..])
  {
    if k == 0 {
      assert s[0..] == s;
    } else {
      LeadingSpaces(s[1..], k - 1);
      assert s[1..][k - 1..] == s[k..];
    }
  }

  /** Nor does trailing whitespace. */
  lemma {:induction false} TrailingSpaces(s: string, k: nat)
    requires k <= |s| && forall i :: k <= i < |s| ==> IsSpace(s[i])
    ensures Words(s[..k]) == Words(s)
  {
    if k == 0 {
      LeadingSpaces(s, |s|);
      assert s[..0] == s[|s|..] == "";
    } else {
      TrailingSpaces(s[1..], k - 1);
      assert s[..k][1..] == s[1..][..k - 1];
      assert k == 1 < |s| ==> IsSpace(s[1]);
    }
  }

  lemma BehindIsBlank(s: string, lo: nat, hi: nat)
    requires lo <= hi <= |s| && forall i :: hi <= i < |s| ==> IsSpace(s[i])
    ensures forall i :: hi - lo <= i < |s[lo..]| ==> IsSpace(s[lo..][i])
    ensures s[lo..][..hi - lo] == s[lo..hi]
  {
  }

  lemma StripKeepsWords(s: string)
    ensures Words(Strip(s)) == Words(s)
  {
    var lo := SkipSpaces(s, 0);
    var hi := TrimSpaces(s, lo, |s|);
    LeadingSpaces(s, lo);
    BehindIsBlank(s, lo, hi);
    TrailingSpaces(s[lo..], hi - lo);
  }

  ghost predicate HasFirstWord(s: string, w: string) {
    w <= s && IsWordAt(s, 0, |w|)
  }

  lemma FirstWordIsUnique(s: string, v: string, w: string)
    requires HasFirstWord(s, v) && HasFirstWord(s, w)
    ensures v == w
  {
    assert |v| < |s| ==> IsSpace(s[|v|]);
    assert |w| < |s| ==> IsSpace(s[|w|]);
    assert v == s[..|v|] && w == s[..|w|];
  }

  lemma {:induction false} FirstWordIs(s: string)
    requires StartsWord(s)
    ensures HasFirstWord(s, Words(s)[0])
  {
    var rest, w := s[1..], Words(s)[0];
    if StartsWord(rest) {
      FirstWordIs(rest);
      var v := Words(rest)[0];
      assert forall k :: 0 < k < |w| ==> s[k] == rest[k - 1] && w[k] == v[k - 1];
      assert |w| < |s| ==> s[|w|] == rest[|v|];
      assert w == s[..|w|];
    } else {
      assert |s| > 1 ==> s[1] == rest[0];
      assert w == s[..1];
    }
  }

  ghost predicate HasLaterWord(s: string, w: string) {
    exists a: nat, b: nat :: 0 < a && IsWordAt(s, a, b) && s[a..b] == w
  }

  /** The words behind the one that `s` starts with, if it starts with one. */
  function LaterWords(s: string): seq<string> {
    if StartsWord(s) then Words(s)[1..] else Words(s)
  }

  /** Runs move by one when a character is put in front. */
  lemma RunsMove(c: char, s: string, a: nat, b: nat)
    requires 0 < a || IsSpace(c)
    ensures IsWordAt([c] + s, a + 1, b + 1) <==> IsWordAt(s, a, b)
    ensures IsWordAt(s, a, b) ==> ([c] + s)[a + 1..b + 1] == s[a..b]
  {
    var t := [c] + s;
    assert forall k :: 0 <= k < |s| ==> t[k + 1] == s[k];
    if IsWordAt(t, a + 1, b + 1) {
      assert forall k :: a <= k < b ==> s[k] == t[k + 1];
      assert b < |s| ==> s[b] == t[b + 1];
    }
    if IsWordAt(s, a, b) {
      assert forall k :: a + 1 <= k < b + 1 ==> t[k] == s[k - 1];
    }
  }

  lemma LaterWordsMove(c: char, s: string, w: string)
    ensures HasLaterWord([c] + s, w) <==> HasLaterWord(s, w) || (IsSpace(c) && HasFirstWord(s, w))
  {
    var t := [c] + s;
    if a: nat, b: nat :| 0 < a && IsWordAt(t, a, b) && t[a..b] == w {
      assert a == 1 ==> IsSpace(t[0]);
      RunsMove(c, s, a - 1, b - 1);
      assert s[a - 1..b - 1] == w;
    }
    if a: nat, b: nat :| 0 < a && IsWordAt(s, a, b) && s[a..b] == w {
      RunsMove(c, s, a, b);
    }
    if IsSpace(c) && HasFirstWord(s, w) {
      RunsMove(c, s, 0, |w|);
      assert s[0..|w|] == w;
    }
  }

  lemma {:induction false} LaterWordsAreRuns(s: string, w: string)
    ensures w in LaterWords(s) <==> HasLaterWord(s, w)
  {
    if s != "" {
      var rest := s[1..];
      LaterWordsAreRuns(rest, w);
      LaterWordsMove(s[0], rest, w);
      assert [s[0]] + rest == s;
      FirstWordDecides(rest, w);
    }
  }

  lemma FirstWordDecides(s: string, w: string)
    ensures w in Words(s) <==> w in LaterWords(s) || HasFirstWord(s, w)
  {
    if StartsWord(s) {
      FirstWordIs(s);
      if HasFirstWord(s, w) {
        FirstWordIsUnique(s, w, Words(s)[0]);
      }
    }
  }

  /** `split` lists the maximal runs of non-whitespace characters. */
  lemma WordsAreRuns(s: string, w: string)
    ensures w in Words(s) <==> HasWord(s, w)
  {
    FirstWordDecides(s, w);
    LaterWordsAreRuns(s, w);
    if a, b :| IsWordAt(s, a, b) && s[a..b] == w {
      assert a == 0 ==> HasFirstWord(s, w);
      assert a > 0 ==> HasLaterWord(s, w);
    }
    if HasFirstWord(s, w) {
      assert s[0..|w|] == w;
    }
  }

  predicate IsDigit(c: char) { '0' <= c <= '9' }

  function DigitValue(c: char): (d: nat)
    requires IsDigit(c)
    ensures d < 10
  {
    c as int - '0' as int
  }

  function DigitChar(d: nat): (c: char)
    requires d < 10
    ensures IsDigit(c) && DigitValue(c) == d
  {
    (d + '0' as int) as char
  }

  /** `str(n)` for a natural number. */
  function NatToString(n: nat): (s: string)
    ensures s != "" && forall k :: 0 <= k < |s| ==> IsDigit(s[k])
    ensures n > 0 ==> s[0] != '0'
  {
    if n < 10 then [DigitChar(n)] else NatToString(n / 10) + [DigitChar(n % 10)]
  }

  /** `int(s)` for a string of digits. */
  function StringToNat(s: string): nat
    requires forall k :: 0 <= k < |s| ==> IsDigit(s[k])
  {
    if s == "" then 0 else StringToNat(s[..|s| - 1]) * 10 + DigitValue(s[|s| - 1])
  }

  /** A number without leading zero is positive. */
  lemma {:induction false} PositiveNumber(s: string)
    requires s != "" && (forall k :: 0 <= k < |s| ==> IsDigit(s[k])) && s[0] != '0'
    ensures StringToNat(s) > 0
  {
    if |s| == 1 {
      assert s[..0] == "";
    } else {
      PositiveNumber(s[..|s| - 1]);
    }
  }

  lemma {:induction false} PrintedNatReadsBack(n: nat)
    ensures StringToNat(NatToString(n)) == n
  {
    if n < 10 {
      assert NatToString(n)[..0] == "";
    } else {
      PrintedNatReadsBack(n / 10);
      assert NatToString(n)[..|NatToString(n)| - 1] == NatToString(n / 10);
    }
  }

  /** `str(i)` for any integer. */
  function IntToString(i: int): (s: string)
    ensures s != "" && forall k :: 0 <= k < |s| ==> IsDigit(s[k]) || s[k] == '-'
  {
    if i < 0 then "-" + NatToString(-i) else NatToString(i)
  }

  lemma PrintedIntsDiffer(i: int, j: int)
    requires IntToString(i) == IntToString(j)
    ensures i == j
  {
    var first := IntToString(i)[0];
    assert first == '-' <==> i < 0;
    assert first == '-' <==> j < 0;
    if i < 0 {
      assert NatToString(-i) == IntToString(i)[1..] == NatToString(-j);
      PrintedNatReadsBack(-i);
      PrintedNatReadsBack(-j);
    } else {
      PrintedNatReadsBack(i);
      PrintedNatReadsBack(j);
    }
  }

  /** `s.find(c)` from position `i` on; the length of `s` when `c` does not occur. */
  function Find(s: string, c: char, i: nat): (r: nat)
    requires i <= |s|
    ensures i <= r <= |s|
    ensures r < |s| ==> s[r] == c
    ensures forall k :: i <= k < r ==> s[k] != c
    decreases |s| - i
  {
    if i == |s| || s[i] == c then i else Find(s, c, i + 1)
  }

  lemma FindSeparator(p: string, q: string, sep: char)
    requires sep !in p
    ensures Find(p + [sep] + q, sep, 0) == |p|
  {
    var whole := p + [sep] + q;
    var at := Find(whole, sep, 0);
    assert whole[|p|] == sep;
    assert forall k :: 0 <= k < |p| ==> whole[k] == p[k] && p[k] in p;
  }

  lemma SeparatedParts(p: string, q: string, sep: char)
    ensures (p + [sep] + q)[..|p|] == p && (p + [sep] + q)[|p| + 1..] == q
  {
  }

  /** The text before a separator is determined when the separator does not occur in it. */
  lemma SplitFirst(p: string, q: string, r: string, s: string, sep: char)
    requires p + [sep] + q == r + [sep] + s
    requires sep !in p && sep !in r
    ensures p == r && q == s
  {
    FindSeparator(p, q, sep);
    FindSeparator(r, s, sep);
    var whole := p + [sep] + q;
    var again := r + [sep] + s;
    assert p == whole[..|p|] && r == again[..|p|];
    assert q == whole[|p| + 1..] && s == again[|p| + 1..];
  }

  function Reverse(s: string): (r: string)
    ensures |r| == |s| && forall k :: 0 <= k < |s| ==> r[k] == s[|s| - 1 - k]
  {
    if s == "" then "" else Reverse(s[1..]) + [s[0]]
  }

  lemma ReverseJoin(p: string, q: string, sep: char)
    ensures Reverse(p + [sep] + q) == Reverse(q) + [sep] + Reverse(p)
  {
    var whole, parts := p + [sep] + q, Reverse(q) + [sep] + Reverse(p);
    assert forall k :: 0 <= k < |whole| ==> parts[k] == whole[|whole| - 1 - k];
  }

  lemma ReverseKeepsMembers(s: string, c: char)
    requires c in Reverse(s)
    ensures c in s
  {
    var r := Reverse(s);
    var k :| 0 <= k < |r| && r[k] == c;
    assert s[|s| - 1 - k] == c;
  }

  /** The text after a separator is determined when the separator does not occur in it. */
  lemma SplitLast(p: string, q: string, r: string, s: string, sep: char)
    requires p + [sep] + q == r + [sep] + s
    requires sep !in q && sep !in s
    ensures p == r && q == s
  {
    ReverseJoin(p, q, sep);
    ReverseJoin(r, s, sep);
    if sep in Reverse(q) {
      ReverseKeepsMembers(q, sep);
    }
    if sep in Reverse(s) {
      ReverseKeepsMembers(s, sep);
    }
    SplitFirst(Reverse(q), Reverse(p), Reverse(s), Reverse(r), sep);
    var whole := p + [sep] + q;
    var again := r + [sep] + s;
    assert p == whole[..|p|] && r == again[..|p|];
    assert q == whole[|p| + 1..] && s == again[|p| + 1..];
  }
}
