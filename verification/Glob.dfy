/** glob.c: the wildcard matcher behind channel and server bans.
    A C pointer into a string is a string and an offset here. */
module Glob {
  import opened Text

  // --- What a pattern means -------------------------------------------------

  datatype Element = Run | One | Letter(c: char)

  predicate IsWild(c: char) {
    c == '*' || c == '?'
  }

  // Where the run of wildcards at p ends.
  function RunEnd(pattern: string, p: nat): (r: nat)
    requires p <= |pattern|
    ensures p <= r <= |pattern|
    ensures r < |pattern| ==> !IsWild(pattern[r])
    ensures forall k :: p <= k < r ==> IsWild(pattern[k])
    decreases |pattern| - p
  {
    if p < |pattern| && IsWild(pattern[p]) then RunEnd(pattern, p + 1) else p
  }

  // A run of wildcards starting with '*' is one element; any other character is
  // an element of its own.
  function Elements(pattern: string, p: nat): seq<Element>
    requires p <= |pattern|
    decreases |pattern| - p
  {
    if p == |pattern| then []
    else if pattern[p] == '*' then [Run] + Elements(pattern, RunEnd(pattern, p + 1))
    else if pattern[p] == '?' then [One] + Elements(pattern, p + 1)
    else [Letter(pattern[p])] + Elements(pattern, p + 1)
  }

  // What a piece of the string must look like to be covered by an element.
  predicate Covers(e: Element, piece: string, last: bool) {
    match e
    case Run => last ==> piece != ""
    case One => |piece| == 1
    case Letter(c) => |piece| == 1 && ToLower(c) == ToLower(piece[0])
  }

  predicate CoversAll(es: seq<Element>, pieces: seq<string>) {
    if es == [] then pieces == []
    else pieces != [] && Covers(es[0], pieces[0], |es| == 1) && CoversAll(es[1..], pieces[1..])
  }

  function Join(pieces: seq<string>): string {
    if pieces == [] then "" else pieces[0] + Join(pieces[1..])
  }

  // The string splits along the pattern.
  ghost predicate Splits(pattern: string, s: string) {
    exists pieces: seq<string> :: CoversAll(Elements(pattern, 0), pieces) && Join(pieces) == s
  }

  // --- A recursive form the loops can be checked against ----------------------

  ghost predicate Matches(pattern: string, p: nat, s: string, i: nat)
    requires p <= |pattern| && i <= |s|
    decreases |pattern| - p
  {
    if p == |pattern| then i == |s|
    else if pattern[p] == '*' then
      var rest := RunEnd(pattern, p + 1);
      if rest == |pattern| then i < |s|
      else exists k :: i <= k <= |s| && Matches(pattern, rest, s, k)
    else
      && i < |s|
      && (pattern[p] == '?' || ToLower(pattern[p]) == ToLower(s[i]))
      && Matches(pattern, p + 1, s, i + 1)
  }

  lemma {:induction false} PutInFront(e: Element, es: seq<Element>, piece: string, pieces: seq<string>)
    requires CoversAll(es, pieces) && Covers(e, piece, es == [])
    ensures CoversAll([e] + es, [piece] + pieces)
    ensures Join([piece] + pieces) == piece + Join(pieces)
  {
    assert ([e] + es)[1..] == es && ([piece] + pieces)[1..] == pieces;
  }

  lemma {:induction false} MatchesGivesPieces(pattern: string, p: nat, s: string, i: nat)
    returns (pieces: seq<string>)
    requires p <= |pattern| && i <= |s|
    requires Matches(pattern, p, s, i)
    ensures CoversAll(Elements(pattern, p), pieces) && Join(pieces) == s[i..]
    decreases |pattern| - p
  {
    if p == |pattern| {
      pieces := [];
    } else if pattern[p] == '*' {
      var rest := RunEnd(pattern, p + 1);
      var k, tail := |s|, [];
      if rest < |pattern| {
        k :| i <= k <= |s| && Matches(pattern, rest, s, k);
        tail := MatchesGivesPieces(pattern, rest, s, k);
      }
      PutInFront(Run, Elements(pattern, rest), s[i..k], tail);
      pieces := [s[i..k]] + tail;
    } else {
      var e := if pattern[p] == '?' then One else Letter(pattern[p]);
      var tail := MatchesGivesPieces(pattern, p + 1, s, i + 1);
      PutInFront(e, Elements(pattern, p + 1), s[i..i + 1], tail);
      pieces := [s[i..i + 1]] + tail;
    }
  }

  lemma {:induction false} PiecesGiveMatch(pattern: string, p: nat, pieces: seq<string>, s: string, i: nat)
    requires p <= |pattern| && i <= |s|
    requires CoversAll(Elements(pattern, p), pieces) && Join(pieces) == s[i..]
    ensures Matches(pattern, p, s, i)
    decreases |pattern| - p
  {
    if p < |pattern| {
      var rest := if pattern[p] == '*' then RunEnd(pattern, p + 1) else p + 1;
      var es, tail := Elements(pattern, p), pieces[1..];
      assert es[1..] == Elements(pattern, rest);
      var k := i + |pieces[0]|;
      assert s[i..] == pieces[0] + Join(tail);
      assert s[k..] == Join(tail);
      assert s[i..k] == pieces[0];
      PiecesGiveMatch(pattern, rest, tail, s, k);
    }
  }

  // Splitting along the pattern and the recursive form agree on every input.
  lemma MatchesIffSplits(pattern: string, s: string)
    ensures Matches(pattern, 0, s, 0) <==> Splits(pattern, s)
  {
    if Matches(pattern, 0, s, 0) {
      var pieces := MatchesGivesPieces(pattern, 0, s, 0);
      assert s[0..] == s;
    }
    if Splits(pattern, s) {
      var pieces :| CoversAll(Elements(pattern, 0), pieces) && Join(pieces) == s;
      assert s[0..] == s;
      PiecesGiveMatch(pattern, 0, pieces, s, 0);
    }
  }

  // --- The matcher ------------------------------------------------------------

  method GlobMatchFrom(pattern: string, from: nat, s: string, start: nat) returns (r: bool)
    requires from <= |pattern| && start <= |s|
    ensures r <==> Matches(pattern, from, s, start)
    decreases |pattern| - from
  {
    var p, i := from, start;
    while p < |pattern| && i < |s|
      invariant from <= p <= |pattern| && start <= i <= |s|
      invariant Matches(pattern, from, s, start) <==> Matches(pattern, p, s, i)
      decreases |pattern| - p
    {
      if pattern[p] == '*' {
        ghost var star := p;
        while p < |pattern| && (pattern[p] == '*' || pattern[p] == '?')
          invariant star <= p <= |pattern|
          invariant p == star || RunEnd(pattern, star + 1) == RunEnd(pattern, p)
        {
          p := p + 1;
        }
        if p == |pattern| {
          return true;
        }
        // try the longest match of the run first
        var ptr := |s|;
        while true
          invariant i <= ptr <= |s|
          invariant forall k :: ptr <= k <= |s| ==> !Matches(pattern, p, s, k)
          decreases ptr
        {
          while ptr > i && ToLower(s[ptr - 1]) != ToLower(pattern[p])
            invariant i <= ptr <= |s|
            invariant forall k :: ptr <= k <= |s| ==> !Matches(pattern, p, s, k)
          {
            ptr := ptr - 1;
          }
          if ptr == i {
            return false;
          }
          r := GlobMatchFrom(pattern, p + 1, s, ptr);
          if r {
            assert Matches(pattern, p, s, ptr - 1);
            return;
          }
          ptr := ptr - 1;
        }
      } else if pattern[p] == '?' || ToLower(pattern[p]) == ToLower(s[i]) {
        p := p + 1;
        i := i + 1;
      } else {
        return false;
      }
    }
    OnlyTheEmptyPatternMatchesNothing(pattern, p, s);
    r := p == |pattern| && i == |s|;
  }

  // Once the string has run out only an exhausted pattern matches; in particular
  // a lone "*" does not match the empty string.
  lemma {:induction false} OnlyTheEmptyPatternMatchesNothing(pattern: string, p: nat, s: string)
    requires p <= |pattern|
    ensures Matches(pattern, p, s, |s|) <==> p == |pattern|
    decreases |pattern| - p
  {
    if p < |pattern| && pattern[p] == '*' {
      OnlyTheEmptyPatternMatchesNothing(pattern, RunEnd(pattern, p + 1), s);
    }
  }

  method GlobMatch(pattern: string, s: string) returns (r: bool)
    ensures r <==> Splits(pattern, s)
  {
    MatchesIffSplits(pattern, s);
    r := GlobMatchFrom(pattern, 0, s, 0);
  }
}
