/** Query normalisation shared by index.js and coparse.py: the query is
    lower-cased and every character outside the coordinate alphabet
    (`-`, `a`-`z`, `0`-`9`, `.`, space, `,`, `;`) is deleted. */
module Cleaning {

  predicate IsDigit(c: char) { '0' <= c <= '9' }

  predicate IsLetter(c: char) { 'a' <= c <= 'z' }

  predicate IsUpper(c: char) { 'A' <= c <= 'Z' }

  /** The characters the cleaning pattern keeps. */
  predicate Kept(c: char) {
    c == '-' || IsLetter(c) || IsDigit(c) || c == '.' || c == ' ' || c == ',' || c == ';'
  }

  /** Lower-casing of one character (ASCII letters only). */
  function Lower(c: char): (r: char)
    ensures !IsUpper(r)
    ensures IsUpper(c) ==> r as int == c as int + 32
    ensures !IsUpper(c) ==> r == c
  {
    if IsUpper(c) then (c as int + 32) as char else c
  }

  /** Lower-casing of a whole string, character by character. */
  function LowerAll(s: string): (r: string)
    ensures |r| == |s|
    ensures forall k :: 0 <= k < |s| ==> r[k] == Lower(s[k])
  {
    seq(|s|, k requires 0 <= k < |s| => Lower(s[k]))
  }

  /** The cleaned query: lower-cased, then every character that is not kept removed. */
  function Clean(s: string): (r: string)
    ensures |r| <= |s|
    ensures forall k :: 0 <= k < |r| ==> Kept(r[k]) && !IsUpper(r[k])
  {
    if s == [] then []
    else
      var c := Lower(s[0]);
      (if Kept(c) then [c] else []) + Clean(s[1..])
  }

  /** Cleaning works character by character and keeps the order of what it keeps. */
  lemma {:induction false} CleanAppend(a: string, b: string)
    ensures Clean(a + b) == Clean(a) + Clean(b)
  {
    if a == [] {
      assert a + b == b;
    } else {
      assert (a + b)[0] == a[0];
      assert (a + b)[1..] == a[1..] + b;
      CleanAppend(a[1..], b);
    }
  }

  /** Every kept character of the lower-cased query survives with its
      multiplicity, and nothing else does. */
  lemma {:induction false} CleanCounts(s: string, c: char)
    ensures Kept(c) ==> multiset(Clean(s))[c] == multiset(LowerAll(s))[c]
    ensures !Kept(c) ==> multiset(Clean(s))[c] == 0
  {
    if s == [] {
    } else {
      CleanCounts(s[1..], c);
      assert LowerAll(s) == [Lower(s[0])] + LowerAll(s[1..]);
      var d := Lower(s[0]);
      assert Clean(s) == (if Kept(d) then [d] else []) + Clean(s[1..]);
    }
  }

  /** Cleaning a cleaned query changes nothing. */
  lemma {:induction false} CleanIdempotent(s: string)
    ensures Clean(Clean(s)) == Clean(s)
  {
    if s == [] {
    } else {
      var c := Lower(s[0]);
      var head: string := if Kept(c) then [c] else [];
      CleanIdempotent(s[1..]);
      CleanAppend(head, Clean(s[1..]));
      if Kept(c) {
        assert Clean(head) == head by {
          assert head[1..] == [];
        }
      }
    }
  }

  /** A query whose every character is kept once lower-cased loses nothing:
      cleaning it only lower-cases it. */
  lemma {:induction false} CleanKeepsAll(s: string)
    requires forall k :: 0 <= k < |s| ==> Kept(Lower(s[k]))
    ensures Clean(s) == LowerAll(s)
  {
    if s != [] {
      CleanKeepsAll(s[1..]);
      assert LowerAll(s) == [Lower(s[0])] + LowerAll(s[1..]);
    }
  }

  /** The cleaned query does not depend on the case of the input. */
  lemma {:induction false} CleanCaseInsensitive(s: string)
    ensures Clean(LowerAll(s)) == Clean(s)
  {
    if s != [] {
      CleanCaseInsensitive(s[1..]);
      assert LowerAll(s)[1..] == LowerAll(s[1..]);
    }
  }
}
