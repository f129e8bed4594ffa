/** The regular expression that `Sentence.search_gloss` builds from one query
    gloss G (cortex.py:85-90, 106) and Python's `re.search` of it against an
    analysis's gloss string, modelled step by step.

    With `N` for the padding `{no_q}` (empty in whole mode, `[^\-\=]*` otherwise)
    and `[B]` for the boundary class (`[\-\=]` in whole mode, `[\.\-\=]`
    otherwise), the interpolated pattern is the four alternatives

        ^NGN$  |  ^NGN(?=[B])  |  (?<=[B])NGN(?=[B])  |  (?<=[B])NGN$

    `re.search` tries start positions from left to right; at each one it tries
    the alternatives in this order, the greedy padding longest first and then one
    character shorter at a time. G is interpolated unescaped: a `.` in it matches
    any character but a newline, every other character stands for itself. */
module GlossRegex {
  import opened PyValues

  /** Characters with a meaning in regular-expression syntax, `.` apart. */
  const Special: set<char> := {'\\', '^', '$', '*', '+', '?', '{', '}', '[', ']', '(', ')', '|'}

  /** A query gloss this model interprets: no regular-expression syntax but the wildcard `.`. */
  predicate PlainQuery(q: string) {
    forall i :: 0 <= i < |q| ==> q[i] !in Special
  }

  /** The boundary class of the lookarounds. */
  predicate IsBoundary(c: char, whole: bool) {
    c == '-' || c == '=' || (!whole && c == '.')
  }

  /** `[^\-\=]`: a character that stays inside one morpheme segment. */
  predicate InSegment(c: char) {
    c != '-' && c != '='
  }

  /** One query character against one gloss character. */
  predicate CharMatches(p: char, c: char) {
    if p == '.' then c != '\n' else p == c
  }

  /** The query G matches the gloss characters from position k on. */
  predicate PatternAt(q: string, s: string, k: nat) {
    k + |q| <= |s| && forall i :: 0 <= i < |q| ==> CharMatches(q[i], s[k + i])
  }

  /** `$`: the end of the string, or just before a newline that ends it. */
  predicate AtEnd(s: string, p: nat) {
    p == |s| || (p + 1 == |s| && s[p] == '\n')
  }

  /** `(?=[B])` at position p. */
  predicate BoundaryAhead(s: string, p: nat, whole: bool) {
    p < |s| && IsBoundary(s[p], whole)
  }

  /** `(?<=[B])` at position p. */
  predicate BoundaryBehind(s: string, p: nat, whole: bool) {
    0 < p <= |s| && IsBoundary(s[p - 1], whole)
  }

  /** The left end of an alternative: `^` or the lookbehind. */
  datatype Anchor = Caret | Behind
  /** The right end of an alternative: `$` or the lookahead. */
  datatype Stop = Dollar | Ahead

  predicate AnchorHolds(s: string, whole: bool, l: Anchor, a: nat) {
    match l
    case Caret => a == 0
    case Behind => BoundaryBehind(s, a, whole)
  }

  predicate StopHolds(s: string, whole: bool, r: Stop, b: nat) {
    match r
    case Dollar => AtEnd(s, b)
    case Ahead => BoundaryAhead(s, b, whole)
  }

  /** How many characters the greedy padding `N` takes at position p: none in
      whole mode, else the whole run of in-segment characters. */
  function Padding(s: string, p: nat, whole: bool): (n: nat)
    requires p <= |s|
    ensures p + n <= |s|
    ensures forall i :: p <= i < p + n ==> InSegment(s[i])
    ensures !whole ==> p + n == |s| || !InSegment(s[p + n])
    ensures whole ==> n == 0
    decreases |s| - p
  {
    if whole || p == |s| || !InSegment(s[p]) then 0 else 1 + Padding(s, p + 1, whole)
  }

  /** The trailing `N` followed by the stop, from position p: the padding gives
      back one character at a time from j characters down to none. */
  function TryStop(s: string, whole: bool, r: Stop, p: nat, j: nat): (e: Option<nat>)
    requires p + j <= |s|
    ensures e.Some? ==> p <= e.value <= p + j && StopHolds(s, whole, r, e.value)
    ensures e.Some? ==> forall e' :: e.value < e' <= p + j ==> !StopHolds(s, whole, r, e')
    ensures e.None? ==> forall e' :: p <= e' <= p + j ==> !StopHolds(s, whole, r, e')
    decreases j
  {
    if StopHolds(s, whole, r, p + j) then Some(p + j)
    else if j == 0 then None
    else TryStop(s, whole, r, p, j - 1)
  }

  /** `N G N` and the stop after the anchor at a, the leading padding taking i
      characters first, then fewer. */
  function TryBody(q: string, s: string, whole: bool, r: Stop, a: nat, i: nat): (b: Option<nat>)
    requires a + i <= |s|
    ensures b.Some? ==> exists k :: a <= k <= a + i && Through(q, s, whole, r, k, b.value)
    ensures b.None? ==> forall k, e :: a <= k <= a + i && PatternAt(q, s, k) && k + |q| <= e <= k + |q| + Padding(s, k + |q|, whole)
                                      ==> !StopHolds(s, whole, r, e)
    decreases i
  {
    var here := if PatternAt(q, s, a + i) then TryStop(s, whole, r, a + i + |q|, Padding(s, a + i + |q|, whole)) else None;
    if here.Some? then
      assert Through(q, s, whole, r, a + i, here.value);
      here
    else if i == 0 then None
    else TryBody(q, s, whole, r, a, i - 1)
  }

  /** G at k, and the stop at e within reach of the trailing padding. */
  ghost predicate Through(q: string, s: string, whole: bool, r: Stop, k: nat, e: nat) {
    PatternAt(q, s, k) && k + |q| <= e <= k + |q| + Padding(s, k + |q|, whole) && StopHolds(s, whole, r, e)
  }

  /** One alternative of the pattern at start position a. */
  function TryAlternative(q: string, s: string, whole: bool, l: Anchor, r: Stop, a: nat): Option<nat>
    requires a <= |s|
  {
    if AnchorHolds(s, whole, l, a) then TryBody(q, s, whole, r, a, Padding(s, a, whole)) else None
  }

  /** The four alternatives in pattern order at start position a; the end of the first match. */
  function TryAt(q: string, s: string, whole: bool, a: nat): (b: Option<nat>)
    requires a <= |s|
    ensures b.Some? ==> a <= b.value <= |s|
    ensures b.Some? ==> exists k :: MatchesAt(q, s, whole, a, k, b.value)
    ensures b.None? ==> forall k, e :: !MatchesAt(q, s, whole, a, k, e)
  {
    var m1 := TryAlternative(q, s, whole, Caret, Dollar, a);
    var m2 := TryAlternative(q, s, whole, Caret, Ahead, a);
    var m3 := TryAlternative(q, s, whole, Behind, Ahead, a);
    var m4 := TryAlternative(q, s, whole, Behind, Dollar, a);
    AlternativeSound(q, s, whole, Caret, Dollar, a);
    AlternativeSound(q, s, whole, Caret, Ahead, a);
    AlternativeSound(q, s, whole, Behind, Ahead, a);
    AlternativeSound(q, s, whole, Behind, Dollar, a);
    if m1.Some? then m1 else if m2.Some? then m2 else if m3.Some? then m3
    else if m4.Some? then m4
    else
      assert forall k, e :: !MatchesAt(q, s, whole, a, k, e) by {
        forall k: nat, e: nat | MatchesAt(q, s, whole, a, k, e) ensures false {
          AlternativeComplete(q, s, whole, a, k, e);
        }
      }
      None
  }

  datatype Span = Span(start: nat, end: nat)

  /** `re.search` from start position a on. */
  function SearchFrom(q: string, s: string, whole: bool, a: nat): (m: Option<Span>)
    requires a <= |s|
    ensures m.Some? ==> a <= m.value.start <= m.value.end <= |s|
    ensures m.Some? ==> exists k :: MatchesAt(q, s, whole, m.value.start, k, m.value.end)
    ensures m.Some? ==> forall a', k, e :: a <= a' < m.value.start ==> !MatchesAt(q, s, whole, a', k, e)
    ensures m.None? ==> forall a', k, e :: a <= a' ==> !MatchesAt(q, s, whole, a', k, e)
    decreases |s| - a
  {
    match TryAt(q, s, whole, a)
    case Some(b) => Some(Span(a, b))
    case None =>
      if a == |s| then
        assert forall a', k, e :: a < a' ==> !MatchesAt(q, s, whole, a', k, e);
        None
      else SearchFrom(q, s, whole, a + 1)
  }

  /** `re.search(pattern, s)` for the pattern built from the query q. */
  function Search(q: string, s: string, whole: bool): (m: Option<Span>)
    requires PlainQuery(q)
    ensures m.Some? ==> m.value.start <= m.value.end <= |s|
  {
    SearchFrom(q, s, whole, 0)
  }

  // ------------------------------------------------------------------
  // What a match is, stated without the backtracking order.

  /** `N` matches s[x..y]. */
  predicate Padded(s: string, x: nat, y: nat, whole: bool) {
    x <= y <= |s| && (if whole then x == y else forall i :: x <= i < y ==> InSegment(s[i]))
  }

  /** Some alternative of the pattern matches s[a..b], with G itself matching at k. */
  ghost predicate MatchesAt(q: string, s: string, whole: bool, a: nat, k: nat, b: nat) {
    && (a == 0 || BoundaryBehind(s, a, whole))
    && Padded(s, a, k, whole)
    && PatternAt(q, s, k)
    && Padded(s, k + |q|, b, whole)
    && (AtEnd(s, b) || BoundaryAhead(s, b, whole))
  }

  /** The padding can match s[x..y] exactly when y is within the greedy run from x. */
  lemma PaddedWithinRun(s: string, x: nat, y: nat, whole: bool)
    requires x <= |s|
    ensures Padded(s, x, y, whole) <==> x <= y <= x + Padding(s, x, whole)
  {
    var n := Padding(s, x, whole);
  }

  /** What one alternative reports is a match: some placement of G between the paddings. */
  lemma AlternativeSound(q: string, s: string, whole: bool, l: Anchor, r: Stop, a: nat)
    requires a <= |s|
    ensures TryAlternative(q, s, whole, l, r, a).Some? ==>
              exists k :: MatchesAt(q, s, whole, a, k, TryAlternative(q, s, whole, l, r, a).value)
  {
    var pad := Padding(s, a, whole);
    if TryAlternative(q, s, whole, l, r, a).Some? {
      var b := TryAlternative(q, s, whole, l, r, a).value;
      var k: nat :| a <= k <= a + pad && Through(q, s, whole, r, k, b);
      PaddedWithinRun(s, a, k, whole);
      PaddedWithinRun(s, k + |q|, b, whole);
      assert MatchesAt(q, s, whole, a, k, b);
    }
  }

  /** Every match at a is found by the alternative whose anchor and stop it uses. */
  lemma AlternativeComplete(q: string, s: string, whole: bool, a: nat, k: nat, e: nat)
    requires a <= |s| && MatchesAt(q, s, whole, a, k, e)
    ensures TryAlternative(q, s, whole, if a == 0 then Caret else Behind, if AtEnd(s, e) then Dollar else Ahead, a).Some?
  {
    PaddedWithinRun(s, a, k, whole);
    PaddedWithinRun(s, k + |q|, e, whole);
    var l := if a == 0 then Caret else Behind;
    var r := if AtEnd(s, e) then Dollar else Ahead;
    assert AnchorHolds(s, whole, l, a);
    assert StopHolds(s, whole, r, e);
  }

  // ------------------------------------------------------------------
  // Whole mode (`whole=True`).

  /** Whole mode at start a: G at a, a boundary `-`/`=` or the start of the
      string before it, a boundary or `$` right after it. */
  predicate WholeAt(q: string, s: string, a: nat) {
    && PatternAt(q, s, a)
    && (a == 0 || BoundaryBehind(s, a, true))
    && (AtEnd(s, a + |q|) || BoundaryAhead(s, a + |q|, true))
  }

  /** In whole mode the padding is empty, so the match is exactly G's characters. */
  lemma WholeMatchesAt(q: string, s: string, a: nat, k: nat, b: nat)
    ensures MatchesAt(q, s, true, a, k, b) <==> k == a && b == a + |q| && WholeAt(q, s, a)
  {
  }

  /** Whole mode finds the leftmost delimited occurrence of the query, and the
      reported span is exactly the query's length. */
  lemma WholeSearch(q: string, s: string)
    requires PlainQuery(q)
    ensures match Search(q, s, true)
            case Some(m) => m.end == m.start + |q| && WholeAt(q, s, m.start)
                            && forall a: nat :: a < m.start ==> !WholeAt(q, s, a)
            case None => forall a: nat :: !WholeAt(q, s, a)
  {
    var m := Search(q, s, true);
    forall a: nat, k: nat, b: nat
      ensures MatchesAt(q, s, true, a, k, b) <==> k == a && b == a + |q| && WholeAt(q, s, a)
    {
      WholeMatchesAt(q, s, a, k, b);
    }
    if m.None? {
      forall a: nat ensures !WholeAt(q, s, a) {
        assert !MatchesAt(q, s, true, a, a, a + |q|);
      }
    } else {
      forall a: nat | a < m.value.start ensures !WholeAt(q, s, a) {
        assert !MatchesAt(q, s, true, a, a, a + |q|);
      }
    }
  }

  /** The leftmost delimited occurrence is the whole-mode match. */
  lemma LeftmostWhole(q: string, s: string, a: nat)
    requires PlainQuery(q) && WholeAt(q, s, a)
    requires forall a': nat :: a' < a ==> !WholeAt(q, s, a')
    ensures Search(q, s, true) == Some(Span(a, a + |q|))
  {
    WholeSearch(q, s);
  }

  /** No wildcard and no morpheme delimiter: the query stands for itself. */
  predicate Literal(q: string) {
    forall i :: 0 <= i < |q| ==> q[i] != '.' && InSegment(q[i])
  }

  /** s[a..b] is one morpheme's gloss: a maximal run between `-`/`=` delimiters. */
  predicate IsSegment(s: string, a: nat, b: nat) {
    && a <= b <= |s|
    && (a == 0 || !InSegment(s[a - 1]))
    && (b == |s| || !InSegment(s[b]))
    && forall i :: a <= i < b ==> InSegment(s[i])
  }

  lemma LiteralPatternAt(q: string, s: string, k: nat)
    requires Literal(q)
    ensures PatternAt(q, s, k) <==> k + |q| <= |s| && s[k..k + |q|] == q
  {
    if k + |q| <= |s| && s[k..k + |q|] == q {
      forall i | 0 <= i < |q| ensures CharMatches(q[i], s[k + i]) {
        assert s[k..k + |q|][i] == s[k + i];
      }
    }
  }

  /** Whole mode with a literal query, on a gloss that does not end in a newline:
      an analysis matches exactly when the query equals one of the gloss's
      `-`/`=`-delimited segments, and the reported match is the query. */
  lemma WholeMeansSegment(q: string, s: string)
    requires PlainQuery(q) && Literal(q)
    requires |s| == 0 || s[|s| - 1] != '\n'
    ensures Search(q, s, true).Some? <==> exists a: nat, b: nat :: IsSegment(s, a, b) && s[a..b] == q
    ensures Search(q, s, true).Some? ==> s[Search(q, s, true).value.start..Search(q, s, true).value.end] == q
  {
    WholeSearch(q, s);
    var m := Search(q, s, true);
    if m.Some? {
      WholeAtSegment(q, s, m.value.start);
    }
    if exists a: nat, b: nat :: IsSegment(s, a, b) && s[a..b] == q {
      var a: nat, b: nat :| IsSegment(s, a, b) && s[a..b] == q;
      SegmentWholeAt(q, s, a, b);
    }
  }

  lemma WholeAtSegment(q: string, s: string, a: nat)
    requires Literal(q) && WholeAt(q, s, a)
    requires |s| == 0 || s[|s| - 1] != '\n'
    ensures IsSegment(s, a, a + |q|) && s[a..a + |q|] == q
  {
    LiteralPatternAt(q, s, a);
    forall i | a <= i < a + |q| ensures InSegment(s[i]) {
      assert s[a..a + |q|][i - a] == s[i];
    }
  }

  lemma SegmentWholeAt(q: string, s: string, a: nat, b: nat)
    requires Literal(q) && IsSegment(s, a, b) && s[a..b] == q
    ensures WholeAt(q, s, a)
  {
    LiteralPatternAt(q, s, a);
  }

  // ------------------------------------------------------------------
  // Non-whole mode (`whole=False`).

  /** The run of in-segment characters just before position k. */
  ghost function RunBefore(s: string, k: nat): (n: nat)
    requires k <= |s|
    ensures n <= k
    ensures forall i :: k - n <= i < k ==> InSegment(s[i])
    ensures n == k || !InSegment(s[k - n - 1])
    decreases k
  {
    if k == 0 || !InSegment(s[k - 1]) then 0 else 1 + RunBefore(s, k - 1)
  }

  /** Non-whole mode matches exactly when the query pattern occurs anywhere in the
      gloss: the padding can always grow to the delimiters around the occurrence. */
  lemma PartialMeansOccurs(q: string, s: string)
    requires PlainQuery(q)
    ensures Search(q, s, false).Some? <==> exists k: nat :: PatternAt(q, s, k)
  {
    if exists k: nat :: PatternAt(q, s, k) {
      var k: nat :| PatternAt(q, s, k);
      var a := k - RunBefore(s, k);
      var b := k + |q| + Padding(s, k + |q|, false);
      assert MatchesAt(q, s, false, a, k, b);
    }
  }

  /** The reported non-whole match holds the query, is delimited like a segment
      (or a `.`-separated part of one), and every character of it outside the
      query's own is in-segment; for a literal query the match has no `-` or `=`. */
  lemma PartialMatchText(q: string, s: string)
    requires PlainQuery(q) && Search(q, s, false).Some?
    ensures var m := Search(q, s, false).value;
            exists k: nat :: m.start <= k && k + |q| <= m.end && PatternAt(q, s, k)
                             && forall i :: m.start <= i < m.end && !(k <= i < k + |q|) ==> InSegment(s[i])
    ensures var m := Search(q, s, false).value;
            (m.start == 0 || BoundaryBehind(s, m.start, false)) && (AtEnd(s, m.end) || BoundaryAhead(s, m.end, false))
    ensures var m := Search(q, s, false).value;
            Literal(q) ==> forall i :: m.start <= i < m.end ==> InSegment(s[i])
  {
    var m := Search(q, s, false).value;
    var k: nat :| MatchesAt(q, s, false, m.start, k, m.end);
    if Literal(q) {
      forall i | m.start <= i < m.end ensures InSegment(s[i]) {
        if k <= i < k + |q| {
          assert CharMatches(q[i - k], s[i]);
        }
      }
    }
  }

  /** Whatever whole mode matches, non-whole mode matches too. */
  lemma WholeImpliesPartial(q: string, s: string)
    requires PlainQuery(q)
    ensures Search(q, s, true).Some? ==> Search(q, s, false).Some?
  {
    WholeSearch(q, s);
    PartialMeansOccurs(q, s);
  }

  /** `PST` in whole mode matches `PST` itself and the segment after `-` in `do-PST`. */
  lemma ExampleWholeMatches(q: string, s: string)
    requires q == "PST" && (s == "PST" || s == "do-PST")
    ensures Search(q, s, true) == Some(Span(|s| - 3, |s|))
  {
    var a := |s| - 3;
    assert s[a..] == q;
    forall a': nat | a' < a ensures !WholeAt(q, s, a') {
      assert s[a'] == 'd' || s[a'] == 'o' || s[a'] == '-';
    }
    LeftmostWhole(q, s, a);
  }

  /** `PST` in whole mode matches no part of a segment: not `do-PST2`, not `PST.SG`. */
  lemma ExampleWholeRejects(q: string, s: string)
    requires q == "PST" && (s == "do-PST2" || s == "PST.SG")
    ensures Search(q, s, true).None?
  {
    WholeSearch(q, s);
    forall a: nat ensures !WholeAt(q, s, a) {
      if a + 3 <= |s| && (s == "do-PST2" ==> a != 3) && (s == "PST.SG" ==> a != 0) {
        assert !CharMatches(q[0], s[a]);
      }
    }
  }

  /** `1` in whole mode does not match `1SG`: the segment is longer than the query. */
  lemma ExampleWholeRejectsPrefix(q: string, s: string)
    requires q == "1" && s == "1SG"
    ensures Search(q, s, true).None?
  {
    WholeSearch(q, s);
    forall a: nat ensures !WholeAt(q, s, a) {
      if 0 < a < |s| {
        assert !CharMatches(q[0], s[a]);
      }
    }
  }

  /** `PST` in non-whole mode matches `PST.SG`, `1.PST` and also `PST2`. */
  lemma ExamplePartialMatches(q: string, s: string)
    requires q == "PST" && (s == "PST.SG" || s == "1.PST" || s == "PST2")
    ensures Search(q, s, false).Some?
  {
    PartialMeansOccurs(q, s);
    assert PatternAt(q, s, if s == "1.PST" then 2 else 0);
  }
}
