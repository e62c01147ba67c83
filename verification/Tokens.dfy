/** search.c: cutting a string into searchable words, and matching words against a
    file name. A C pointer into the string is an offset here. */
module Tokens {
  import opened Text

  // The words an administrator has filtered out of the index.
  type Filter = string -> bool

  predicate WordChar(c: char) {
    IsAlnum(c) || c == '\''
  }

  // The first word character at or after i.
  function WordStart(s: string, i: nat): (r: nat)
    requires i <= |s|
    ensures i <= r <= |s|
    ensures r < |s| ==> WordChar(s[r])
    ensures forall k :: i <= k < r ==> !WordChar(s[k])
    decreases |s| - i
  {
    if i == |s| || WordChar(s[i]) then i else WordStart(s, i + 1)
  }

  function WordEnd(s: string, i: nat): (r: nat)
    requires i <= |s|
    ensures i <= r <= |s|
    ensures r < |s| ==> !WordChar(s[r])
    ensures forall k :: i <= k < r ==> WordChar(s[k])
    decreases |s| - i
  {
    if i == |s| || !WordChar(s[i]) then i else WordEnd(s, i + 1)
  }

  function Kept(token: string, so: seq<string>, filter: Filter): seq<string> {
    if filter(token) || token in so then so else so + [token]
  }

  // The words from offset i on, added to those found so far. The character that ends a
  // word is gone once the word is cut off.
  function TokensFrom(s: string, i: nat, so: seq<string>, filter: Filter): seq<string>
    requires i <= |s|
    decreases |s| - i
  {
    if i == |s| then so
    else
      var a := WordStart(s, i);
      var b := WordEnd(s, a);
      TokensFrom(s, if b < |s| then b + 1 else b, Kept(Lower(s[a..b]), so, filter), filter)
  }

  function Tokenized(s: string, filter: Filter): seq<string> {
    TokensFrom(s, 0, [], filter)
  }

  method Duplicate(list: seq<string>, s: string) returns (r: bool)
    ensures r <==> s in list
  {
    var i := 0;
    while i < |list|
      invariant 0 <= i <= |list|
      invariant s !in list[..i]
    {
      if list[i] == s {
        return true;
      }
      i := i + 1;
    }
    return false;
  }

  method SkipToWord(s: string, start: nat) returns (i: nat)
    requires start <= |s|
    ensures i == WordStart(s, start)
  {
    i := start;
    while i < |s| && !WordChar(s[i])
      invariant start <= i <= |s|
      invariant WordStart(s, i) == WordStart(s, start)
    {
      i := i + 1;
    }
  }

  method SkipWord(s: string, start: nat) returns (ptr: nat)
    requires start <= |s|
    ensures ptr == WordEnd(s, start)
  {
    ptr := start;
    while ptr < |s| && WordChar(s[ptr])
      invariant start <= ptr <= |s|
      invariant WordEnd(s, ptr) == WordEnd(s, start)
    {
      ptr := ptr + 1;
    }
  }

  lemma FirstToken(s: string, i: nat, so: seq<string>, filter: Filter)
    requires i < |s|
    ensures var a := WordStart(s, i);
            var b := WordEnd(s, a);
            TokensFrom(s, i, so, filter)
            == TokensFrom(s, if b < |s| then b + 1 else b, Kept(Lower(s[a..b]), so, filter), filter)
  {
    hide WordStart, WordEnd, Lower, Kept;
  }

  lemma NoneLeft(s: string, so: seq<string>, filter: Filter)
    ensures TokensFrom(s, |s|, so, filter) == so
  {
  }

  method Tokenize(s: string, filter: Filter) returns (r: seq<string>)
    ensures r == Tokenized(s, filter)
  {
    hide WordStart, WordEnd, Lower, TokensFrom;
    r := [];
    var i := 0;
    while i < |s|
      invariant 0 <= i <= |s|
      invariant TokensFrom(s, i, r, filter) == Tokenized(s, filter)
      decreases |s| - i
    {
      var word := SkipToWord(s, i);
      var ptr := SkipWord(s, word);
      FirstToken(s, i, r, filter);
      var token := Lower(s[word..ptr]);
      i := if ptr < |s| then ptr + 1 else ptr;
      if !filter(token) {
        var dup := Duplicate(r, token);
        if !dup {
          r := r + [token];
        }
      }
    }
    NoneLeft(s, r, filter);
  }

  // --- What the tokens are, without reading the string from left to right -------------

  // A longest run of word characters.
  predicate IsWord(s: string, a: nat, b: nat) {
    && a < b <= |s|
    && (forall k :: a <= k < b ==> WordChar(s[k]))
    && (a == 0 || !WordChar(s[a - 1]))
    && (b == |s| || !WordChar(s[b]))
  }

  // Two trailing non-word characters, or nothing but one: one empty token comes out.
  predicate TrailingGap(s: string, i: nat)
    requires i <= |s|
  {
    i < |s| && !WordChar(s[|s| - 1]) && (i == |s| - 1 || !WordChar(s[|s| - 2]))
  }

  ghost predicate IsToken(s: string, i: nat, t: string)
    requires i <= |s|
  {
    || (t == "" && TrailingGap(s, i))
    || exists a: nat, b: nat :: i <= a && IsWord(s, a, b) && t == Lower(s[a..b])
  }

  ghost predicate NoRepeats(ts: seq<string>) {
    forall i, j :: 0 <= i < j < |ts| ==> ts[i] != ts[j]
  }

  lemma {:induction false} TokensAreWords(s: string, i: nat, so: seq<string>, filter: Filter, t: string)
    requires i <= |s| && (i == 0 || i == |s| || !WordChar(s[i - 1]))
    ensures t in TokensFrom(s, i, so, filter) <==> t in so || (IsToken(s, i, t) && !filter(t))
    decreases |s| - i
  {
    if i < |s| {
      var a := WordStart(s, i);
      var b := WordEnd(s, a);
      var next := if b < |s| then b + 1 else b;
      TokensAreWords(s, next, Kept(Lower(s[a..b]), so, filter), filter, t);
      TokenStep(s, i, t);
    } else {
      NoTokenAtEnd(s, t);
    }
  }

  lemma NoTokenAtEnd(s: string, t: string)
    ensures !IsToken(s, |s|, t)
  {}

  // The first token from i on is the one that is cut off; the others start behind it.
  lemma TokenStep(s: string, i: nat, t: string)
    requires i < |s| && (i == 0 || !WordChar(s[i - 1]))
    ensures var a := WordStart(s, i);
            var b := WordEnd(s, a);
            var next := if b < |s| then b + 1 else b;
            IsToken(s, i, t) <==> t == Lower(s[a..b]) || IsToken(s, next, t)
  {
    var a := WordStart(s, i);
    var b := WordEnd(s, a);
    var next := if b < |s| then b + 1 else b;
    if a < |s| {
      assert a < b;
      assert IsWord(s, a, b);
      forall a', b' | i <= a' && IsWord(s, a', b') ensures (a' == a && b' == b) || next <= a' {
        if a' < next {
          OnlyWord(s, i, a', b');
        }
      }
    } else {
      assert forall a', b' :: i <= a' && IsWord(s, a', b') ==> WordChar(s[a']);
    }
  }

  lemma OnlyWord(s: string, i: nat, a': nat, b': nat)
    requires i <= a' && IsWord(s, a', b') && a' <= WordEnd(s, WordStart(s, i))
    ensures a' == WordStart(s, i) && b' == WordEnd(s, a')
  {
    assert WordChar(s[a']);
  }

  lemma {:induction false} NoTokenTwice(s: string, i: nat, so: seq<string>, filter: Filter)
    requires i <= |s| && NoRepeats(so)
    ensures NoRepeats(TokensFrom(s, i, so, filter))
    decreases |s| - i
  {
    if i < |s| {
      var a := WordStart(s, i);
      var b := WordEnd(s, a);
      NoTokenTwice(s, if b < |s| then b + 1 else b, Kept(Lower(s[a..b]), so, filter), filter);
    }
  }

  // The tokens of a string are its lower-cased words that are not filtered, each once;
  // and the empty string after a trailing gap.
  lemma TokenizedIsWords(s: string, filter: Filter)
    ensures NoRepeats(Tokenized(s, filter))
    ensures forall t :: t in Tokenized(s, filter) <==> IsToken(s, 0, t) && !filter(t)
  {
    NoTokenTwice(s, 0, [], filter);
    forall t ensures t in Tokenized(s, filter) <==> IsToken(s, 0, t) && !filter(t) {
      TokensAreWords(s, 0, [], filter, t);
    }
  }

  // --- match() -------------------------------------------------------------------------

  predicate OccursAt(file: string, token: string, k: nat) {
    k + |token| <= |file| && SameNoCase(file[k..k + |token|], token)
  }

  // A case-insensitive substring.
  ghost predicate Occurs(file: string, token: string) {
    exists k: nat :: OccursAt(file, token, k)
  }

  lemma OccursAtStartsSame(file: string, token: string, k: nat)
    requires token != "" && k < |file|
    ensures OccursAt(file, token, k) <==>
              ToLower(file[k]) == ToLower(token[0]) && k + |token| <= |file|
              && SameNoCase(file[k + 1..k + |token|], token[1..])
  {
    if k + |token| <= |file| {
      var here := file[k..k + |token|];
      assert here[0] == file[k] && here[1..] == file[k + 1..k + |token|];
      assert Lower(here) == [ToLower(here[0])] + Lower(here[1..]);
      assert Lower(token) == [ToLower(token[0])] + Lower(token[1..]);
    }
  }

  method Match(tokens: seq<string>, file: string) returns (r: bool)
    ensures r <==> forall t :: t in tokens ==> t != "" && Occurs(file, t)
  {
    var i := 0;
    while i < |tokens|
      invariant 0 <= i <= |tokens|
      invariant forall j :: 0 <= j < i ==> tokens[j] != "" && Occurs(file, tokens[j])
    {
      assert tokens[i] in tokens;
      var found := MatchOne(tokens[i], file);
      if !found {
        return false;
      }
      i := i + 1;
    }
    return true;
  }

  // The inner loop of match(): look for the first character in either case, then compare
  // the rest.
  method MatchOne(a: string, file: string) returns (r: bool)
    ensures r <==> a != "" && Occurs(file, a)
  {
    var b := 0;
    while b < |file|
      invariant 0 <= b <= |file|
      invariant a != "" ==> forall k :: 0 <= k < b ==> !OccursAt(file, a, k)
    {
      // strpbrk() with an empty set of characters finds nothing
      if a == "" {
        return false;
      }
      while b < |file| && file[b] != ToLower(a[0]) && file[b] != ToUpper(a[0])
        invariant 0 <= b <= |file|
        invariant forall k :: 0 <= k < b ==> !OccursAt(file, a, k)
      {
        OccursAtStartsSame(file, a, b);
        b := b + 1;
      }
      if b == |file| {
        NowhereElse(file, a);
        return false;
      }
      OccursAtStartsSame(file, a, b);
      if b + |a| <= |file| && SameNoCase(file[b + 1..b + |a|], a[1..]) {
        return true;
      }
      b := b + 1;
    }
    if a != "" {
      NowhereElse(file, a);
    }
    return false;
  }

  lemma NowhereElse(file: string, a: string)
    requires a != "" && forall k :: 0 <= k < |file| ==> !OccursAt(file, a, k)
    ensures !Occurs(file, a)
  {}

  // Every word of a file name occurs in it.
  lemma WordsOccur(file: string, filter: Filter, t: string)
    requires t in Tokenized(file, filter)
    ensures Occurs(file, t)
  {
    TokenizedIsWords(file, filter);
    if t == "" {
      assert OccursAt(file, t, 0);
    } else {
      var a: nat, b: nat :| 0 <= a && IsWord(file, a, b) && t == Lower(file[a..b]);
      assert Lower(t) == Lower(file[a..b]);
      assert OccursAt(file, t, a);
    }
  }
}
