/** The coordinate-part scanner: the global pattern
    `([\-a-z]?)(\d+\.?\d*)([a-z]?)` applied left to right over the cleaned
    query, as `RegExp.exec` in a loop (index.js) and `re.finditer`
    (coparse.py) both do. */
module Lexer {
  import opened Cleaning

  datatype Option<T> = None | Some(value: T)

  /** One match of the pattern, as the strings of its three groups. The value
      group `\d+\.?\d*` is kept split at its optional point: `whole` holds the
      digits before it, `frac` the digits after it. */
  datatype Token = Token(prefix: string, whole: string, point: bool, frac: string, suffix: string)

  /** Where a match lies in the query: the prefix is `[start, valueStart)`,
      the integer digits `[valueStart, wholeEnd)`, the point (if any)
      `[wholeEnd, fracStart)`, the fraction digits `[fracStart, valueEnd)` and
      the suffix `[valueEnd, end)`. */
  datatype Match = Match(start: nat, valueStart: nat, wholeEnd: nat, fracStart: nat, valueEnd: nat, end: nat)

  /** Characters the optional first group `[\-a-z]` accepts. */
  predicate IsHint(c: char) { c == '-' || IsLetter(c) }

  predicate DigitAt(s: string, k: nat) { k < |s| && IsDigit(s[k]) }

  predicate AllDigits(ds: string) { forall k :: 0 <= k < |ds| ==> IsDigit(ds[k]) }

  predicate DigitsBetween(s: string, a: nat, b: nat)
    requires a <= b <= |s|
  {
    forall k :: a <= k < b ==> IsDigit(s[k])
  }

  /** On a token of the pattern's shape, a letter occurs among the hints iff
      it is the whole prefix or the whole suffix. */
  lemma HintLetter(t: Token, c: char)
    ensures Shaped(t) ==> (c in t.prefix + t.suffix <==> t.prefix == [c] || t.suffix == [c])
  {
    if Shaped(t) && c in t.prefix + t.suffix {
      var k :| 0 <= k < |t.prefix + t.suffix| && (t.prefix + t.suffix)[k] == c;
      if k < |t.prefix| {
        assert t.prefix == [t.prefix[0]];
      } else {
        assert t.suffix == [t.suffix[0]];
      }
    }
  }

  /** The text of the value group. */
  function ValueText(t: Token): string {
    t.whole + (if t.point then "." else "") + t.frac
  }

  /** The text of the whole match. */
  function Text(t: Token): string {
    t.prefix + ValueText(t) + t.suffix
  }

  /** The shapes the pattern can produce. */
  predicate Shaped(t: Token) {
    && (t.prefix == [] || (|t.prefix| == 1 && IsHint(t.prefix[0])))
    && |t.whole| > 0 && AllDigits(t.whole)
    && AllDigits(t.frac)
    && (!t.point ==> t.frac == [])
    && (t.suffix == [] || (|t.suffix| == 1 && IsLetter(t.suffix[0])))
  }

  /** `m` is where the pattern matches at position `m.start` of `s` when every
      quantifier is greedy: an optional hint character, the integer digits as
      far as they go, the point whenever it is there, the fraction digits as
      far as they go, and a following letter as the suffix. A hint character
      is only part of a match when a digit follows it. */
  predicate Greedy(s: string, m: Match) {
    && m.start <= m.valueStart <= m.wholeEnd <= m.fracStart <= m.valueEnd <= m.end <= |s|
    && m.valueStart - m.start <= 1
    && (m.valueStart > m.start ==> IsHint(s[m.start]))
    && m.valueStart < m.wholeEnd
    && DigitsBetween(s, m.valueStart, m.wholeEnd) && !DigitAt(s, m.wholeEnd)
    && m.fracStart - m.wholeEnd <= 1
    && (m.fracStart > m.wholeEnd <==> m.wholeEnd < |s| && s[m.wholeEnd] == '.')
    && DigitsBetween(s, m.fracStart, m.valueEnd) && !DigitAt(s, m.valueEnd)
    && m.end - m.valueEnd <= 1
    && (m.end > m.valueEnd <==> m.valueEnd < |s| && IsLetter(s[m.valueEnd]))
  }

  /** The groups of a match, read off the query. */
  function TokenOf(s: string, m: Match): Token
    requires m.start <= m.valueStart <= m.wholeEnd <= m.fracStart <= m.valueEnd <= m.end <= |s|
  {
    Token(s[m.start..m.valueStart], s[m.valueStart..m.wholeEnd], m.fracStart > m.wholeEnd,
          s[m.fracStart..m.valueEnd], s[m.valueEnd..m.end])
  }

  /** A greedy match has the shape of the pattern and spells out the query
      between its ends. */
  lemma GreedyToken(s: string, m: Match)
    requires Greedy(s, m)
    ensures Shaped(TokenOf(s, m))
    ensures Text(TokenOf(s, m)) == s[m.start..m.end]
  {
    var t := TokenOf(s, m);
    assert s[m.wholeEnd..m.fracStart] == (if t.point then "." else "");
    assert ValueText(t) == s[m.valueStart..m.valueEnd] by {
      SliceJoin(s, m.valueStart, m.wholeEnd, m.fracStart);
      SliceJoin(s, m.valueStart, m.fracStart, m.valueEnd);
    }
    SliceJoin(s, m.start, m.valueStart, m.valueEnd);
    SliceJoin(s, m.start, m.valueEnd, m.end);
    // With no point, the fraction digits would continue the integer run.
    assert !t.point ==> m.valueEnd == m.fracStart;
  }

  lemma SliceJoin(s: string, a: nat, b: nat, c: nat)
    requires a <= b <= c <= |s|
    ensures s[a..b] + s[b..c] == s[a..c]
  {
  }

  /** Some match of the pattern, greedy or not, can begin at `i`: a digit,
      or a hint character followed by a digit. */
  predicate CanStart(s: string, i: nat) {
    DigitAt(s, i) || (i < |s| && IsHint(s[i]) && DigitAt(s, i + 1))
  }

  /** A greedy match begins at a position where CanStart holds. */
  lemma GreedyCanStart(s: string, m: Match)
    requires Greedy(s, m)
    ensures CanStart(s, m.start)
  {
  }

  /** The end of the run of digits starting at `k`. */
  function DigitsEnd(s: string, k: nat): (r: nat)
    requires k <= |s|
    ensures k <= r <= |s|
    ensures DigitsBetween(s, k, r)
    ensures !DigitAt(s, r)
    decreases |s| - k
  {
    if DigitAt(s, k) then DigitsEnd(s, k + 1) else k
  }

  /** Any maximal run of digits from `k` ends where DigitsEnd says. */
  lemma RunEnd(s: string, k: nat, r: nat)
    requires k <= r <= |s|
    requires DigitsBetween(s, k, r)
    requires !DigitAt(s, r)
    ensures r == DigitsEnd(s, k)
  {
  }

  /** The match the pattern makes at position `i`, if one starts there. */
  function MatchAt(s: string, i: nat): (r: Option<Match>)
    requires i <= |s|
    ensures r.Some? <==> CanStart(s, i)
    ensures r.Some? ==> r.value.start == i && i < r.value.end && Greedy(s, r.value)
  {
    if !CanStart(s, i) then None
    else
      var p := if IsDigit(s[i]) then i else i + 1;
      var w := DigitsEnd(s, p);
      var q := if w < |s| && s[w] == '.' then w + 1 else w;
      var f := DigitsEnd(s, q);
      var e := if f < |s| && IsLetter(s[f]) then f + 1 else f;
      Some(Match(i, p, w, q, f, e))
  }

  /** The greedy match at a position is unique: it is the one MatchAt finds. */
  lemma GreedyIsMatchAt(s: string, m: Match)
    requires Greedy(s, m)
    ensures MatchAt(s, m.start) == Some(m)
  {
  }

  /** Position `j` lies inside one of the matches. */
  predicate Covered(ms: seq<Match>, j: nat) {
    exists k :: 0 <= k < |ms| && ms[k].start <= j < ms[k].end
  }

  /** The matches the global pattern finds from position `i` on: the leftmost
      match, then the scan resumes where it ended. Every match is non-empty
      and lies in the part of the query not yet scanned, so there are at
      most as many matches as characters left. */
  function Scan(s: string, i: nat): (ms: seq<Match>)
    requires i <= |s|
    ensures |ms| <= |s| - i
    ensures ms != [] ==> i <= ms[0].start < ms[0].end <= |s|
    decreases |s| - i
  {
    if i == |s| then []
    else match MatchAt(s, i)
      case Some(m) => [m] + Scan(s, m.end)
      case None => Scan(s, i + 1)
  }

  /** Scan returns greedy matches that start at or after `i`. */
  lemma {:induction false} ScanGreedy(s: string, i: nat)
    requires i <= |s|
    ensures forall k :: 0 <= k < |Scan(s, i)| ==> i <= Scan(s, i)[k].start && Greedy(s, Scan(s, i)[k])
    decreases |s| - i
  {
    if i < |s| {
      match MatchAt(s, i)
      case Some(m) =>
        var rest := Scan(s, m.end);
        ScanGreedy(s, m.end);
        var ms := [m] + rest;
        assert Scan(s, i) == ms;
        forall k | 0 <= k < |ms| ensures i <= ms[k].start && Greedy(s, ms[k]) {
          if k > 0 {
            assert ms[k] == rest[k - 1];
            assert Greedy(s, rest[k - 1]);
          }
        }
      case None =>
        ScanGreedy(s, i + 1);
    }
  }

  /** The matches of Scan come left to right and do not overlap. */
  lemma {:induction false} ScanOrdered(s: string, i: nat)
    requires i <= |s|
    ensures forall k :: 0 < k < |Scan(s, i)| ==> Scan(s, i)[k - 1].end <= Scan(s, i)[k].start
    decreases |s| - i
  {
    if i < |s| {
      match MatchAt(s, i)
      case Some(m) =>
        var rest := Scan(s, m.end);
        ScanGreedy(s, m.end);
        ScanOrdered(s, m.end);
        var ms := [m] + rest;
        assert Scan(s, i) == ms;
        forall k | 0 < k < |ms| ensures ms[k - 1].end <= ms[k].start {
          assert ms[k] == rest[k - 1];
          if k > 1 {
            assert ms[k - 1] == rest[k - 2];
          } else {
            assert m.end <= rest[0].start;
          }
        }
      case None =>
        ScanOrdered(s, i + 1);
    }
  }

  /** Leftmost matching: every position from `i` on where a match could
      begin lies inside a match Scan returns, so Scan skips only positions
      where no match begins. */
  lemma {:induction false} ScanCovers(s: string, i: nat)
    requires i <= |s|
    ensures forall j :: i <= j < |s| && CanStart(s, j) ==> Covered(Scan(s, i), j)
    decreases |s| - i
  {
    if i < |s| {
      match MatchAt(s, i)
      case Some(m) =>
        var rest := Scan(s, m.end);
        ScanCovers(s, m.end);
        var ms := [m] + rest;
        assert Scan(s, i) == ms;
        forall j | i <= j < |s| && CanStart(s, j) ensures Covered(ms, j) {
          if j < m.end {
            assert ms[0].start <= j < ms[0].end;
          } else {
            assert Covered(rest, j);
            var k :| 0 <= k < |rest| && rest[k].start <= j < rest[k].end;
            assert ms[k + 1] == rest[k];
          }
        }
      case None =>
        ScanCovers(s, i + 1);
    }
  }

  /** The tokens of a list of matches. */
  function Tokens(s: string, ms: seq<Match>): (ts: seq<Token>)
    requires forall k :: 0 <= k < |ms| ==> Greedy(s, ms[k])
    ensures |ts| == |ms|
    ensures forall k :: 0 <= k < |ms| ==> Greedy(s, ms[k]) && ts[k] == TokenOf(s, ms[k])
  {
    seq(|ms|, k requires 0 <= k < |ms| && Greedy(s, ms[k]) => TokenOf(s, ms[k]))
  }

  /** The tokens of a query: what both implementations hand to the converters. */
  function Parts(s: string): (ts: seq<Token>)
    ensures |ts| == |Scan(s, 0)|
    ensures forall k :: 0 <= k < |ts| ==> Shaped(ts[k])
  {
    var ms := Scan(s, 0);
    ScanGreedy(s, 0);
    var ts := Tokens(s, ms);
    assert forall k | 0 <= k < |ts| :: Shaped(ts[k]) by {
      forall k | 0 <= k < |ts| ensures Shaped(ts[k]) {
        GreedyToken(s, ms[k]);
      }
    }
    ts
  }

  /** One step of Scan at a position inside the query. */
  lemma ScanStep(s: string, i: nat)
    requires i < |s|
    ensures CanStart(s, i) ==> Scan(s, i) == [MatchAt(s, i).value] + Scan(s, MatchAt(s, i).value.end)
    ensures !CanStart(s, i) ==> Scan(s, i) == Scan(s, i + 1)
  {
  }

  lemma Regroup(a: seq<Match>, m: Match, b: seq<Match>)
    ensures a + [m] + b == a + ([m] + b)
  {
  }

  /** Skips a run of digits starting at `k`. */
  method SkipDigits(s: string, k: nat) returns (r: nat)
    requires k <= |s|
    ensures r == DigitsEnd(s, k)
  {
    r := k;
    while r < |s| && IsDigit(s[r])
      invariant k <= r <= |s|
      invariant DigitsEnd(s, r) == DigitsEnd(s, k)
    {
      r := r + 1;
    }
  }

  /** Reads the match that starts at `i`: optional hint, integer digits,
      optional point, fraction digits, optional letter. */
  method MatchHere(s: string, i: nat) returns (m: Match)
    requires i < |s| && CanStart(s, i)
    ensures MatchAt(s, i) == Some(m)
  {
    var p := if IsDigit(s[i]) then i else i + 1;
    var w := SkipDigits(s, p);
    var q := if w < |s| && s[w] == '.' then w + 1 else w;
    var f := SkipDigits(s, q);
    var e := if f < |s| && IsLetter(s[f]) then f + 1 else f;
    m := Match(i, p, w, q, f, e);
  }

  /** The scanning loop of index.js, written with an explicit index: at each
      position either a match starts there, is taken whole and the scan jumps
      past it, or the position is skipped. Every match is non-empty, so the
      zero-width guard of the source never fires and the scan moves forward. */
  method Tokenize(s: string) returns (ms: seq<Match>)
    ensures ms == Scan(s, 0)
  {
    ms := [];
    var i := 0;
    while i < |s|
      invariant i <= |s|
      invariant ms + Scan(s, i) == Scan(s, 0)
      decreases |s| - i
    {
      ScanStep(s, i);
      if !CanStart(s, i) {
        i := i + 1;
      } else {
        var m := MatchHere(s, i);
        // The zero-width guard: a match is never empty.
        assert m.start < m.end;
        Regroup(ms, m, Scan(s, m.end));
        ms := ms + [m];
        i := m.end;
      }
    }
  }
}
