/** The `parts` lists the two implementations build from the matches.
    index.js pushes every element of the match array (`m.forEach`): the whole
    match, then the three groups. coparse.py appends `match.group(1)` to
    `match.group(3)`: the three groups only. So the same field sits one
    index further along in index.js. */
module Layout {
  import opened Lexer

  /** Group `g` of a match: 0 the whole match, 1 the prefix, 2 the value, 3 the suffix. */
  function Group(s: string, m: Match, g: nat): string
    requires m.start <= m.valueStart <= m.valueEnd <= m.end <= |s|
    requires g <= 3
  {
    if g == 0 then s[m.start..m.end]
    else if g == 1 then s[m.start..m.valueStart]
    else if g == 2 then s[m.valueStart..m.valueEnd]
    else s[m.valueEnd..m.end]
  }

  /** The part index.js builds for one match: the whole match text, then
      the three groups, which together spell that text. */
  function JsPart(s: string, m: Match): (p: seq<string>)
    requires m.start <= m.valueStart <= m.valueEnd <= m.end <= |s|
    ensures |p| == 4
    ensures p[0] == s[m.start..m.end]
    ensures p[1] + p[2] + p[3] == p[0]
  {
    SliceJoin(s, m.start, m.valueStart, m.valueEnd);
    SliceJoin(s, m.start, m.valueEnd, m.end);
    [Group(s, m, 0), Group(s, m, 1), Group(s, m, 2), Group(s, m, 3)]
  }

  /** The part coparse.py builds for one match: the three groups, which
      together spell the match text. */
  function PyPart(s: string, m: Match): (p: seq<string>)
    requires m.start <= m.valueStart <= m.valueEnd <= m.end <= |s|
    ensures |p| == 3
    ensures p[0] + p[1] + p[2] == s[m.start..m.end]
  {
    SliceJoin(s, m.start, m.valueStart, m.valueEnd);
    SliceJoin(s, m.start, m.valueEnd, m.end);
    [Group(s, m, 1), Group(s, m, 2), Group(s, m, 3)]
  }

  /** The fields of both layouts, read as the token the converters use:
      index.js holds the whole match text at 0 and the groups at 1..3,
      coparse.py holds the groups at 0..2. */
  lemma LayoutShift(s: string, m: Match)
    requires Greedy(s, m)
    ensures |JsPart(s, m)| == 4 && |PyPart(s, m)| == 3
    ensures forall g :: 0 <= g < 3 ==> JsPart(s, m)[g + 1] == PyPart(s, m)[g]
    ensures JsPart(s, m)[0] == Text(TokenOf(s, m))
    ensures PyPart(s, m)[0] == TokenOf(s, m).prefix
    ensures PyPart(s, m)[1] == ValueText(TokenOf(s, m))
    ensures PyPart(s, m)[2] == TokenOf(s, m).suffix
  {
    GreedyToken(s, m);
    var t := TokenOf(s, m);
    assert s[m.wholeEnd..m.fracStart] == (if t.point then "." else "");
    SliceJoin(s, m.valueStart, m.wholeEnd, m.fracStart);
    SliceJoin(s, m.valueStart, m.fracStart, m.valueEnd);
  }

  /** The parts loop of index.js: one part per match, holding every element
      of the match array in order. */
  method JsParts(s: string, ms: seq<Match>) returns (parts: seq<seq<string>>)
    requires forall k :: 0 <= k < |ms| ==> Greedy(s, ms[k])
    ensures |parts| == |ms|
    ensures forall k :: 0 <= k < |ms| ==> Greedy(s, ms[k]) && parts[k] == JsPart(s, ms[k])
  {
    parts := [];
    for i := 0 to |ms|
      invariant |parts| == i
      invariant forall k :: 0 <= k < i ==> parts[k] == JsPart(s, ms[k])
    {
      var m := ms[i];
      var part: seq<string> := [];
      for g := 0 to 4
        invariant |part| == g
        invariant forall j :: 0 <= j < g ==> part[j] == Group(s, m, j)
      {
        part := part + [Group(s, m, g)];
      }
      parts := parts + [part];
    }
  }

  /** The nested loops of coparse.py: one part per match, holding its
      groups 1 to 3 in order. */
  method PyParts(s: string, ms: seq<Match>) returns (parts: seq<seq<string>>)
    requires forall k :: 0 <= k < |ms| ==> Greedy(s, ms[k])
    ensures |parts| == |ms|
    ensures forall k :: 0 <= k < |ms| ==> Greedy(s, ms[k]) && parts[k] == PyPart(s, ms[k])
  {
    parts := [];
    for i := 0 to |ms|
      invariant |parts| == i
      invariant forall k :: 0 <= k < i ==> parts[k] == PyPart(s, ms[k])
    {
      var m := ms[i];
      var part: seq<string> := [];
      for g := 0 to 3
        invariant |part| == g
        invariant forall j :: 0 <= j < g ==> part[j] == Group(s, m, j + 1)
      {
        part := part + [Group(s, m, g + 1)];
      }
      parts := parts + [part];
    }
  }
}
