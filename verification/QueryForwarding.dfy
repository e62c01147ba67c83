/** search.c: what is left of a search request after it has been printed for a peer and read there,
    once or over any number of hops. */
module QueryForwarding {
  import opened Text
  import opened Options
  import opened Tokens
  import opened Arguments
  import opened QueryText

  // --- Requests that reading can produce -----------------------------------------------

  predicate WordLike(t: string) { (forall c <- t :: WordChar(c)) && Lower(t) == t }

  predicate IsToken(t: string, filter: Filter) { WordLike(t) && !filter(t) }

  predicate Ints(r: Range) { IsInt(r.min) && IsInt(r.max) }

  ghost predicate Worded(q: Query) {
    && (forall t <- q.tokens :: WordLike(t))
    && q.kind < 6 && Ints(q.bitrate) && Ints(q.freq) && Ints(q.speed)
  }

  ghost predicate WellMade(q: Query, filter: Filter) {
    && (forall t <- q.tokens :: IsToken(t, filter))
    && q.kind < 6 && Ints(q.bitrate) && Ints(q.freq) && Ints(q.speed)
  }

  lemma WellMadeIsWorded(q: Query, filter: Filter)
    requires WellMade(q, filter)
    ensures Worded(q)
  {
    assert forall t <- q.tokens :: IsToken(t, filter);
  }

  lemma {:induction false} TokensAreTokens(s: string, i: nat, so: seq<string>, filter: Filter)
    requires i <= |s| && forall t <- so :: IsToken(t, filter)
    ensures forall t <- TokensFrom(s, i, so, filter) :: IsToken(t, filter)
    decreases |s| - i
  {
    if i < |s| {
      var a := WordStart(s, i);
      var b := WordEnd(s, a);
      var t := Lower(s[a..b]);
      LowerWord(s[a..b]);
      TokensAreTokens(s, if b < |s| then b + 1 else b, Kept(t, so, filter), filter);
    }
  }

  lemma LowerWord(w: string)
    requires forall c <- w :: WordChar(c)
    ensures Lower(Lower(w)) == Lower(w) && forall c <- Lower(w) :: WordChar(c)
  {
    forall c | c in Lower(w) ensures WordChar(c) {
      var i :| 0 <= i < |w| && Lower(w)[i] == c;
      assert WordChar(w[i]);
    }
  }

  // Every request that is understood is well made.
  lemma {:induction false} ReadIsWellMade(args: seq<string>, q: Query, how: Setup)
    requires WellMade(q, how.filter)
    ensures Read(args, q, how).Asked? ==> WellMade(Read(args, q, how).query, how.filter)
    decreases |args|
  {
    hide SameNoCase, IntArg, TokensFrom, IsToken, ClauseOf;
    if args != [] {
      var c := ClauseOf(args[0]);
      if c == FileName {
        if |args| >= 3 {
          TokensAreTokens(args[2], 0, [], how.filter);
          ReadIsWellMade(args[3..], q.(tokens := q.tokens + Tokenized(args[2], how.filter)), how);
        }
      } else if c == MaxResults {
        if |args| >= 2 && IntArg(args[1]).Some? {
          ReadIsWellMade(args[2..], q.(limit := Capped(IntArg(args[1]).value, how.cap)), how);
        }
      } else if c == Type {
        if |args| >= 2 && KindOf(args[1], 0).Some? {
          KindInTable(args[1], 0);
          ReadIsWellMade(args[2..], q.(kind := KindOf(args[1], 0).value), how);
        }
      } else if c == Local {
        ReadIsWellMade(args[1..], q.(local := true), how);
      } else if c != Unknown && |args| >= 3 && IntArg(args[2]).Some? {
        var r := Compared(args[1], IntArg(args[2]).value, RangeOf(q, c), how.user);
        if r.Some? {
          ReadIsWellMade(args[3..], WithRange(q, c, r.value), how);
        }
      }
    }
  }

  lemma {:induction false} KindInTable(name: string, from: nat)
    requires from <= 6
    ensures KindOf(name, from).Some? ==> KindOf(name, from).value < 6
    decreases 6 - from
  {
    if from < 6 {
      KindInTable(name, from + 1);
    }
  }

  // --- One hop ------------------------------------------------------------------------

  // The range a peer reads back.
  function Reread(r: Range, hardmax: int): Range {
    if r.min > 0 then Range(r.min, if r.min == r.max then r.min else hardmax)
    else if r.max < hardmax then Range(0, r.max)
    else Range(0, hardmax)
  }

  function Hop(q: Query, results: int, how: Setup): Query {
    Query(Tokenized(Joined(q.tokens), how.filter), Capped(results, how.cap), q.kind,
          Reread(q.bitrate, MAX_BITRATE), Reread(q.freq, MAX_FREQUENCY), Reread(q.speed, MAX_SPEED), false)
  }

  lemma {:induction false} JoinedHasNoQuote(tokens: seq<string>)
    requires forall t <- tokens :: WordLike(t)
    ensures '"' !in Joined(tokens)
  {
    if tokens != [] {
      assert WordLike(tokens[0]);
      JoinedHasNoQuote(tokens[1..]);
    }
  }

  lemma QualifierPrints(attr: string, r: Range, hardmax: int)
    requires Ints(r) && Printable(Word(attr))
    ensures AllPrintable(QualifierItems(attr, r, hardmax))
  {
    hide IntArg, Decimal;
    DecimalComesBack(r.min);
    DecimalComesBack(r.max);
  }

  lemma HeadPrints(results: int, tokens: seq<string>)
    requires IsInt(results) && forall t <- tokens :: WordLike(t)
    ensures AllPrintable(HeadItems(results, tokens))
  {
    hide IntArg, Decimal, WordLike, Joined, Printable;
    DecimalComesBack(results);
    JoinedHasNoQuote(tokens);
    PrintableWord("FILENAME");
    PrintableWord("CONTAINS");
    PrintableWord("MAX_RESULTS");
    assert Printable(Quoted(Joined(tokens))) by { PrintableQuoted(Joined(tokens)); }
  }

  lemma PrintableWord(w: string)
    requires w != "" && w[0] != '"' && forall i :: 0 <= i < |w| ==> !IsSpace(w[i])
    ensures Printable(Word(w))
  {
  }

  lemma PrintableQuoted(b: string)
    requires '"' !in b
    ensures Printable(Quoted(b))
  {
  }

  lemma TypePrints(kind: nat)
    requires kind < 6
    ensures AllPrintable(TypeItems(kind))
  {
    hide Printable;
    if kind != 0 {
      PrintableWord("TYPE");
      PrintableWord(CONTENT_TYPES[kind]);
    }
  }

  lemma BothPrint(a: seq<Item>, b: seq<Item>)
    requires AllPrintable(a) && AllPrintable(b)
    ensures AllPrintable(a + b)
  {
  }

  lemma RequestPrints(results: int, q: Query)
    requires Worded(q) && IsInt(results)
    ensures AllPrintable(RequestItems(results, q))
  {
    hide IntArg, Decimal, QualifierItems, TypeItems, HeadItems, WordLike, AllPrintable;
    HeadPrints(results, q.tokens);
    TypePrints(q.kind);
    QualifierPrints("BITRATE", q.bitrate, MAX_BITRATE);
    QualifierPrints("FREQ", q.freq, MAX_FREQUENCY);
    QualifierPrints("LINESPEED", q.speed, MAX_SPEED);
    var b := QualifierItems("BITRATE", q.bitrate, MAX_BITRATE);
    var f := QualifierItems("FREQ", q.freq, MAX_FREQUENCY);
    var s := QualifierItems("LINESPEED", q.speed, MAX_SPEED);
    BothPrint(f, s);
    BothPrint(b, f + s);
    BothPrint(TypeItems(q.kind), b + (f + s));
    BothPrint(HeadItems(results, q.tokens), TypeItems(q.kind) + (b + (f + s)));
  }

  // --- Reading the printed clauses one after the other ------------------------------------

  lemma ValuesOfBoth(a: seq<Item>, b: seq<Item>)
    ensures Values(a + b) == Values(a) + Values(b)
  {
  }

  lemma DifferAt(a: string, b: string, i: nat)
    requires |a| != |b| || (i < |a| && ToLower(a[i]) != ToLower(b[i]))
    ensures !SameNoCase(a, b)
  {
    if |a| == |b| {
      assert Lower(a)[i] != Lower(b)[i];
    }
  }

  lemma SameLetters(a: string, b: string)
    requires |a| == |b| && forall i :: 0 <= i < |a| ==> ToLower(a[i]) == ToLower(b[i])
    ensures SameNoCase(a, b)
  {
  }

  lemma Keywords()
    ensures ClauseOf("FILENAME") == FileName && ClauseOf("MAX_RESULTS") == MaxResults && ClauseOf("TYPE") == Type
    ensures ClauseOf("BITRATE") == BitRate && ClauseOf("FREQ") == Freq && ClauseOf("LINESPEED") == LineSpeed
  {
    hide SameNoCase;
    SameLetters("filename", "FILENAME");
    DifferAt("filename", "MAX_RESULTS", 0);
    SameLetters("max_results", "MAX_RESULTS");
    DifferAt("filename", "TYPE", 0);
    DifferAt("max_results", "TYPE", 0);
    SameLetters("type", "TYPE");
    DifferAt("filename", "BITRATE", 0);
    DifferAt("max_results", "BITRATE", 0);
    DifferAt("type", "BITRATE", 0);
    DifferAt("linespeed", "BITRATE", 0);
    SameLetters("bitrate", "BITRATE");
    DifferAt("filename", "FREQ", 0);
    DifferAt("max_results", "FREQ", 0);
    DifferAt("type", "FREQ", 0);
    DifferAt("linespeed", "FREQ", 0);
    DifferAt("bitrate", "FREQ", 0);
    SameLetters("freq", "FREQ");
    DifferAt("filename", "LINESPEED", 0);
    DifferAt("max_results", "LINESPEED", 0);
    DifferAt("type", "LINESPEED", 0);
    SameLetters("linespeed", "LINESPEED");
  }

  lemma Operators()
    ensures SameNoCase("EQUAL TO", "equal to") && !SameNoCase("AT LEAST", "equal to") && !SameNoCase("AT BEST", "equal to")
    ensures SameNoCase("AT LEAST", "at least") && !SameNoCase("AT BEST", "at least") && SameNoCase("AT BEST", "at best")
    ensures SameNoCase("contains", "CONTAINS")
  {
    hide SameNoCase;
    SameLetters("EQUAL TO", "equal to");
    DifferAt("AT LEAST", "equal to", 0);
    DifferAt("AT BEST", "equal to", 0);
    SameLetters("AT LEAST", "at least");
    DifferAt("AT BEST", "at least", 0);
    SameLetters("AT BEST", "at best");
    SameLetters("contains", "CONTAINS");
  }

  lemma ReadHead(results: int, tokens: seq<string>, rest: seq<string>, q: Query, how: Setup)
    requires IsInt(results)
    ensures Read(Values(HeadItems(results, tokens)) + rest, q, how)
         == Read(rest, q.(tokens := q.tokens + Tokenized(Joined(tokens), how.filter),
                          limit := Capped(results, how.cap)), how)
  {
    hide ClauseOf, SameNoCase, IntArg, Decimal, Joined, TokensFrom, Tokenized, Compared, KindOf, WithRange;
    Keywords();
    Operators();
    DecimalComesBack(results);
    var args := Values(HeadItems(results, tokens)) + rest;
    var tail := ["MAX_RESULTS", Decimal(results)] + rest;
    assert args[0] == "FILENAME" && args[1] == "CONTAINS" && args[2] == Joined(tokens) && args[3..] == tail;
    var q1 := q.(tokens := q.tokens + Tokenized(Joined(tokens), how.filter));
    assert Read(args, q, how) == Read(tail, q1, how);
    assert tail[0] == "MAX_RESULTS" && tail[1] == Decimal(results) && tail[2..] == rest;
  }

  lemma ReadType(kind: nat, rest: seq<string>, q: Query, how: Setup)
    requires kind < 6 && q.kind == 0
    ensures Read(Values(TypeItems(kind)) + rest, q, how) == Read(rest, q.(kind := kind), how)
  {
    hide ClauseOf, SameNoCase, Compared, KindOf, WithRange;
    Keywords();
    var args := Values(TypeItems(kind)) + rest;
    if kind == 0 {
      assert args == rest;
    } else {
      KindComesBack(kind);
      assert args[0] == "TYPE" && args[1] == CONTENT_TYPES[kind] && args[2..] == rest;
    }
  }

  lemma KindComesBack(kind: nat)
    requires kind < 6
    ensures KindOf(CONTENT_TYPES[kind], 0) == Some(kind)
  {
    TypesDiffer();
    KindFrom(kind, 0);
  }

  lemma TypesDiffer()
    ensures forall i, j :: 0 <= i < j < 6 ==> !SameNoCase(CONTENT_TYPES[j], CONTENT_TYPES[i])
  {
    hide SameNoCase;
    forall i, j | 0 <= i < j < 6 ensures !SameNoCase(CONTENT_TYPES[j], CONTENT_TYPES[i]) {
      DifferAt(CONTENT_TYPES[j], CONTENT_TYPES[i], if i == 1 && j == 3 then 1 else 0);
    }
  }

  lemma {:induction false} KindFrom(kind: nat, from: nat)
    requires from <= kind < 6
    requires forall i, j :: 0 <= i < j < 6 ==> !SameNoCase(CONTENT_TYPES[j], CONTENT_TYPES[i])
    ensures KindOf(CONTENT_TYPES[kind], from) == Some(kind)
    decreases kind - from
  {
    if from < kind {
      KindFrom(kind, from + 1);
    }
  }

  lemma ReadQualifier(attr: string, c: Clause, r: Range, hardmax: int, rest: seq<string>, q: Query, how: Setup)
    requires ClauseOf(attr) == c && c in {LineSpeed, BitRate, Freq}
    requires RangeOf(q, c) == Range(0, hardmax) && Ints(r)
    ensures Read(Values(QualifierItems(attr, r, hardmax)) + rest, q, how)
         == Read(rest, WithRange(q, c, Reread(r, hardmax)), how)
  {
    hide ClauseOf, SameNoCase, IntArg, Decimal, KindOf;
    Operators();
    DecimalComesBack(r.min);
    DecimalComesBack(r.max);
    var items := QualifierItems(attr, r, hardmax);
    var args := Values(items) + rest;
    if items == [] {
      assert args == rest;
    } else {
      assert args[0] == attr && args[1] == items[1].text && args[2] == items[2].text && args[3..] == rest;
    }
  }

  // Printing a request and reading it at a peer gives exactly this.
  lemma ForwardedIs(results: int, q: Query, how: Setup)
    requires Worded(q) && IsInt(results)
    ensures Read(AllArgs(Some(Line(RequestItems(results, q)))), Fresh(how.cap), how) == Asked(Hop(q, results, how))
  {
    hide ClauseOf, Line, AllArgs, Read, Tokenized, Joined, AllPrintable, QualifierItems, TypeItems, HeadItems, Reread,
      Values;
    RequestPrints(results, q);
    ArgsArePrinted(RequestItems(results, q));
    Keywords();
    var t := TypeItems(q.kind);
    var b := QualifierItems("BITRATE", q.bitrate, MAX_BITRATE);
    var f := QualifierItems("FREQ", q.freq, MAX_FREQUENCY);
    var s := QualifierItems("LINESPEED", q.speed, MAX_SPEED);
    ValuesOfBoth(f, s);
    ValuesOfBoth(b, f + s);
    ValuesOfBoth(t, b + (f + s));
    ValuesOfBoth(HeadItems(results, q.tokens), t + (b + (f + s)));
    var q0 := Fresh(how.cap);
    ReadHead(results, q.tokens, Values(t + (b + (f + s))), q0, how);
    var q1 := q0.(tokens := q0.tokens + Tokenized(Joined(q.tokens), how.filter), limit := Capped(results, how.cap));
    assert q0.tokens + Tokenized(Joined(q.tokens), how.filter) == Tokenized(Joined(q.tokens), how.filter);
    ReadType(q.kind, Values(b + (f + s)), q1, how);
    var q2 := q1.(kind := q.kind);
    ReadQualifier("BITRATE", BitRate, q.bitrate, MAX_BITRATE, Values(f + s), q2, how);
    var q3 := q2.(bitrate := Reread(q.bitrate, MAX_BITRATE));
    ReadQualifier("FREQ", Freq, q.freq, MAX_FREQUENCY, Values(s), q3, how);
    var q4 := q3.(freq := Reread(q.freq, MAX_FREQUENCY));
    ReadQualifier("LINESPEED", LineSpeed, q.speed, MAX_SPEED, [], q4, how);
    assert Values(s) + [] == Values(s);
    ReadNothing(q4.(speed := Reread(q.speed, MAX_SPEED)), how);
  }

  // The server that has found some of the results itself asks a peer for the rest.
  method ForwardOnce(q: Query, found: int, how: Setup) returns (r: Outcome)
    requires Worded(q) && IsInt(q.limit - found)
    ensures r == Asked(Hop(q, q.limit - found, how))
  {
    hide Read, Line, AllArgs, Hop, RequestItems, WordLike;
    var text := GenerateRequest(q.limit - found, q.tokens, q);
    ForwardedIs(q.limit - found, q, how);
    r := ReadRequest(text, how);
  }

  lemma ReadNothing(q: Query, how: Setup)
    ensures Read([], q, how) == Asked(q)
  {
  }

  // --- What a hop does to the words -------------------------------------------------------

  // The only word a peer can miss is the empty one, and only when it does not come last.
  predicate KeepsEmptyWord(tokens: seq<string>) {
    "" !in tokens || tokens[|tokens| - 1] == ""
  }

  lemma JoinedStep(s: string, i: nat, tokens: seq<string>)
    requires i <= |s| && s[i..] == Joined(tokens) && tokens != []
    ensures var next := i + |tokens[0]| + 1;
      next <= |s| && s[next..] == Joined(tokens[1..]) && s[i..next - 1] == tokens[0] && s[next - 1] == ' '
  {
    var w, j := tokens[0], s[i..];
    assert j[..|w|] == w && j[|w|] == ' ' && j[|w| + 1..] == Joined(tokens[1..]);
  }

  lemma {:induction false} JoinedTokens(s: string, i: nat, tokens: seq<string>, so: seq<string>, filter: Filter, t: string)
    requires i <= |s| && s[i..] == Joined(tokens) && forall w <- tokens :: WordLike(w)
    ensures t in TokensFrom(s, i, so, filter)
        <==> t in so || (t in tokens && !filter(t) && (t != "" || tokens[|tokens| - 1] == ""))
    decreases |tokens|
  {
    hide Joined, WordLike, TokensFrom, Kept, WordStart, WordEnd;
    if tokens == [] {
      JoinedNothing();
      NoneLeft(s, so, filter);
    } else {
      var w, more := tokens[0], tokens[1..];
      assert WordLike(w) && forall v <- more :: WordLike(v);
      var next := i + |w| + 1;
      JoinedStep(s, i, tokens);
      assert t in tokens <==> t == w || t in more;
      if more != [] {
        assert tokens[|tokens| - 1] == more[|more| - 1];
      }
      if w != "" {
        WordTaken(s, i, w, so, filter);
        JoinedTokens(s, next, more, Kept(w, so, filter), filter, t);
        assert t in Kept(w, so, filter) <==> t in so || (t == w && !filter(t)) by { TokenKept(w, so, filter); }
      } else if more == [] {
        JoinedNothing();
        LastGap(s, i, so, filter);
        TokenKept("", so, filter);
      } else {
        JoinedStep(s, next, more);
        GapSkipped(s, i, so, filter);
        JoinedTokens(s, next, more, so, filter, t);
      }
    }
  }

  lemma LastGap(s: string, i: nat, so: seq<string>, filter: Filter)
    requires i + 1 == |s| && s[i] == ' '
    ensures TokensFrom(s, i, so, filter) == Kept("", so, filter)
  {
    hide Kept;
    assert WordStart(s, i) == |s| && Lower("") == "";
  }

  lemma JoinedNothing()
    ensures Joined([]) == ""
  {
  }

  lemma TokenKept(w: string, so: seq<string>, filter: Filter)
    requires WordLike(w)
    ensures Lower(w) == w && forall t :: t in Kept(w, so, filter) <==> t in so || (t == w && !filter(t))
  {
  }

  lemma GapSkipped(s: string, i: nat, so: seq<string>, filter: Filter)
    requires i + 1 < |s| && s[i] == ' '
    ensures TokensFrom(s, i, so, filter) == TokensFrom(s, i + 1, so, filter)
  {
  }

  lemma WordTaken(s: string, i: nat, w: string, so: seq<string>, filter: Filter)
    requires WordLike(w) && w != "" && i + |w| < |s| && s[i..i + |w|] == w && s[i + |w|] == ' '
    ensures TokensFrom(s, i, so, filter) == TokensFrom(s, i + |w| + 1, Kept(w, so, filter), filter)
  {
    hide TokensFrom;
    assert forall k :: 0 <= k < |w| ==> s[i + k] == s[i..i + |w|][k] == w[k] && w[k] in w;
    assert forall k :: i <= k < i + |w| ==> WordChar(s[k]) by {
      forall k | i <= k < i + |w| ensures WordChar(s[k]) { assert s[i + (k - i)] == w[k - i]; }
    }
    WordAt(s, i, i + |w|);
    TokenAt(s, i, i + |w|, so, filter);
  }

  lemma TokenAt(s: string, a: nat, b: nat, so: seq<string>, filter: Filter)
    requires a < b < |s| && WordStart(s, a) == a && WordEnd(s, a) == b
    ensures TokensFrom(s, a, so, filter) == TokensFrom(s, b + 1, Kept(Lower(s[a..b]), so, filter), filter)
  {
    hide WordStart, WordEnd;
  }

  lemma WordAt(s: string, a: nat, b: nat)
    requires a < b < |s| && !WordChar(s[b]) && forall k :: a <= k < b ==> WordChar(s[k])
    ensures WordStart(s, a) == a && WordEnd(s, a) == b
  {
  }

  // A peer sees the words it does not filter itself; the empty one only when it comes last.
  lemma WordsSeen(tokens: seq<string>, filter: Filter)
    requires forall w <- tokens :: WordLike(w)
    ensures forall t :: t in Tokenized(Joined(tokens), filter)
                   <==> t in tokens && !filter(t) && (t != "" || tokens[|tokens| - 1] == "")
  {
    hide Joined, WordLike, TokensFrom;
    var s := Joined(tokens);
    assert s[0..] == s;
    forall t ensures t in Tokenized(s, filter) <==> t in tokens && !filter(t) && (t != "" || tokens[|tokens| - 1] == "") {
      JoinedTokens(s, 0, tokens, [], filter, t);
    }
  }

  lemma WordsForwarded(tokens: seq<string>, filter: Filter)
    requires forall w <- tokens :: IsToken(w, filter)
    ensures var seen := Tokenized(Joined(tokens), filter);
      && (forall t <- seen :: t in tokens)
      && (forall t <- tokens :: t != "" ==> t in seen)
      && ((forall t <- tokens :: t in seen) <==> KeepsEmptyWord(tokens))
  {
    hide Tokenized, Joined, WordLike;
    WordsSeen(tokens, filter);
  }

  // "foo!!" and "bar" in two clauses: the empty word between them does not reach the peer.
  lemma InnerEmptyWordIsLost(filter: Filter)
    requires forall t <- ["foo", "", "bar"] :: !filter(t)
    ensures Tokenized("foo!!", filter) + Tokenized("bar", filter) == ["foo", "", "bar"]
    ensures "" !in Tokenized(Joined(["foo", "", "bar"]), filter)
  {
    hide Tokenized, Joined, IsToken;
    var tokens := ["foo", "", "bar"];
    FooIs(filter);
    BarIs(filter);
    forall t | t in tokens ensures IsToken(t, filter) {
      OneOfThree(t, filter);
    }
    WordsForwarded(tokens, filter);
  }

  lemma OneOfThree(t: string, filter: Filter)
    requires t in ["foo", "", "bar"] && !filter(t)
    ensures IsToken(t, filter)
  {
  }

  lemma FooIs(filter: Filter)
    requires !filter("foo") && !filter("")
    ensures Tokenized("foo!!", filter) == ["foo", ""]
  {
    var s := "foo!!";
    WordAt(s, 0, 3);
    assert s[0..3] == "foo" && Lower("foo") == "foo";
    TokenAt(s, 0, 3, [], filter);
    assert s[4..] == "!" && WordStart(s, 4) == 5 && Lower("") == "";
    assert TokensFrom(s, 4, ["foo"], filter) == Kept("", ["foo"], filter);
  }

  lemma BarIs(filter: Filter)
    requires !filter("bar")
    ensures Tokenized("bar", filter) == ["bar"]
  {
    var s := "bar";
    assert WordEnd(s, 3) == 3 && WordEnd(s, 2) == 3 && WordEnd(s, 1) == 3;
    assert WordStart(s, 0) == 0 && WordEnd(s, 0) == 3;
    assert s[0..3] == "bar" && Lower("bar") == "bar";
  }

  // --- What a hop does to the answers -------------------------------------------------------

  // A file as the query sees it.
  datatype File = File(name: string, kind: nat, bitrate: int, freq: int, speed: int)

  // Attribute values the index can hold.
  predicate Real(f: File) {
    0 <= f.bitrate <= MAX_BITRATE && 0 <= f.freq <= MAX_FREQUENCY && 0 <= f.speed <= MAX_SPEED
  }

  predicate Accepts(r: Range, v: int) { r.min <= v <= r.max }

  ghost predicate HasWords(tokens: seq<string>, name: string) {
    forall t <- tokens :: t != "" && Occurs(name, t)
  }

  ghost predicate Wants(q: Query, f: File) {
    && HasWords(q.tokens, f.name) && q.kind == f.kind
    && Accepts(q.bitrate, f.bitrate) && Accepts(q.freq, f.freq) && Accepts(q.speed, f.speed)
  }

  // Bounded on both sides, and not exactly, within the attribute's values.
  predicate TwoSided(r: Range, hardmax: int) {
    0 < r.min <= hardmax && r.min != r.max && r.max < hardmax
  }

  lemma RangeForwarded(r: Range, hardmax: int)
    requires 0 <= hardmax
    ensures forall v :: 0 <= v <= hardmax && Accepts(r, v) ==> Accepts(Reread(r, hardmax), v)
    ensures (forall v :: 0 <= v <= hardmax ==> (Accepts(Reread(r, hardmax), v) <==> Accepts(r, v)))
        <==> !TwoSided(r, hardmax)
  {
    if TwoSided(r, hardmax) {
      assert Accepts(Reread(r, hardmax), hardmax) && !Accepts(r, hardmax);
    }
  }

  // A search for bit rates from 128 to 192 reaches the peer as one for 128 and more.
  lemma UpperBoundIsLost(how: Setup)
    ensures var args := ["BITRATE", "AT LEAST", Decimal(128), "BITRATE", "AT BEST", Decimal(192)];
      var r := Read(args, Fresh(how.cap), how);
      && r.Asked? && r.query.bitrate == Range(128, 192)
      && !Accepts(r.query.bitrate, 320) && Accepts(Hop(r.query, r.query.limit, how).bitrate, 320)
  {
    hide ClauseOf, SameNoCase, IntArg, Decimal, KindOf, TokensFrom;
    Keywords();
    Operators();
    DecimalComesBack(128);
    DecimalComesBack(192);
    var args := ["BITRATE", "AT LEAST", Decimal(128), "BITRATE", "AT BEST", Decimal(192)];
    var more := args[3..];
    assert more == ["BITRATE", "AT BEST", Decimal(192)] && more[3..] == [];
    var q := Fresh(how.cap);
    var q1, q2 := q.(bitrate := Range(128, MAX_BITRATE)), q.(bitrate := Range(128, 192));
    assert Read(args, q, how) == Read(more, q1, how);
    assert Read(more, q1, how) == Read([], q2, how);
    ReadNothing(q2, how);
  }

  predicate Exact(q: Query) {
    && KeepsEmptyWord(q.tokens) && !TwoSided(q.bitrate, MAX_BITRATE)
    && !TwoSided(q.freq, MAX_FREQUENCY) && !TwoSided(q.speed, MAX_SPEED)
  }

  // Nothing the origin wants is refused by the peer; and the peer wants nothing more
  // unless an empty word or an upper bound was dropped.
  lemma HopWants(q: Query, results: int, how: Setup, f: File)
    requires WellMade(q, how.filter) && Real(f)
    ensures Wants(q, f) ==> Wants(Hop(q, results, how), f)
    ensures Exact(q) ==> (Wants(Hop(q, results, how), f) <==> Wants(q, f))
  {
    hide IsToken, Tokenized, Joined, Reread, Occurs;
    WordsForwarded(q.tokens, how.filter);
    RangeForwarded(q.bitrate, MAX_BITRATE);
    RangeForwarded(q.freq, MAX_FREQUENCY);
    RangeForwarded(q.speed, MAX_SPEED);
  }

  lemma HopIsWellMade(q: Query, results: int, how: Setup)
    requires Worded(q)
    ensures WellMade(Hop(q, results, how), how.filter) && !TwoSided(Hop(q, results, how).bitrate, MAX_BITRATE)
    ensures !TwoSided(Hop(q, results, how).freq, MAX_FREQUENCY) && !TwoSided(Hop(q, results, how).speed, MAX_SPEED)
  {
    hide IsToken, TokensFrom, Joined;
    TokensAreTokens(Joined(q.tokens), 0, [], how.filter);
  }

  // Each hop asks for what is still missing and applies its own Max_Search_Results.
  function Hops(q: Query, hits: seq<nat>, caps: seq<int>, filter: Filter): Query
    requires |hits| == |caps|
    decreases |hits|
  {
    if hits == [] then q
    else Hops(Hop(q, q.limit - hits[0], Setup(caps[0], false, filter)), hits[1..], caps[1..], filter)
  }

  function Total(hits: seq<nat>): nat {
    if hits == [] then 0 else hits[0] + Total(hits[1..])
  }

  // However far a search travels, every server on its way looks for every file the origin wants,
  // and for no more results than the origin is still missing.
  lemma {:induction false} NoMatchIsLost(q: Query, hits: seq<nat>, caps: seq<int>, filter: Filter, f: File)
    requires |hits| == |caps| && WellMade(q, filter) && Real(f)
    ensures Wants(q, f) ==> Wants(Hops(q, hits, caps, filter), f)
    ensures Hops(q, hits, caps, filter).limit <= q.limit - Total(hits)
    decreases |hits|
  {
    hide WellMade, Worded, Wants, Real, Tokenized, Joined, Reread;
    if hits != [] {
      var how := Setup(caps[0], false, filter);
      HopWants(q, q.limit - hits[0], how, f);
      WellMadeIsWorded(q, filter);
      HopIsWellMade(q, q.limit - hits[0], how);
      NoMatchIsLost(Hop(q, q.limit - hits[0], how), hits[1..], caps[1..], filter, f);
    }
  }

  // Tokenizing finds an empty word only behind the last other one.
  lemma {:induction false} EmptyWordComesLast(s: string, i: nat, so: seq<string>, filter: Filter)
    requires i <= |s| && "" !in so
    ensures KeepsEmptyWord(TokensFrom(s, i, so, filter))
    decreases |s| - i
  {
    if i < |s| {
      var a := WordStart(s, i);
      var b := WordEnd(s, a);
      if a < |s| {
        EmptyWordComesLast(s, if b < |s| then b + 1 else b, Kept(Lower(s[a..b]), so, filter), filter);
      }
    }
  }

  // Past the first hop nothing more is lost or added as long as no empty word is left to drop.
  lemma {:induction false} LaterHopsAgree(q: Query, hits: seq<nat>, caps: seq<int>, filter: Filter, f: File)
    requires |hits| == |caps| && WellMade(q, filter) && Real(f) && Exact(q)
    ensures Wants(Hops(q, hits, caps, filter), f) <==> Wants(q, f)
    decreases |hits|
  {
    hide WellMade, Worded, Wants, Real, TokensFrom, Joined, IsToken;
    if hits != [] {
      var how := Setup(caps[0], false, filter);
      var next := Hop(q, q.limit - hits[0], how);
      HopWants(q, q.limit - hits[0], how, f);
      WellMadeIsWorded(q, filter);
      HopIsWellMade(q, q.limit - hits[0], how);
      EmptyWordComesLast(Joined(q.tokens), 0, [], filter);
      LaterHopsAgree(next, hits[1..], caps[1..], filter, f);
    }
  }
}
