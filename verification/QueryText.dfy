/** search.c: a search request as it is read from a client, printed for the peers and read again there. */
module QueryText {
  import opened Text
  import opened Options
  import opened Tokens
  import opened Arguments

  const MAX_SPEED := 10
  const MAX_BITRATE := 0xffff
  const MAX_FREQUENCY := 0xffff

  // Content_Types; CT_MP3 is 0.
  const CONTENT_TYPES: seq<string> := ["mp3", "audio", "video", "application", "image", "text"]

  datatype Range = Range(min: int, max: int)

  datatype Query = Query(tokens: seq<string>, limit: int, kind: nat, bitrate: Range, freq: Range, speed: Range,
                         local: bool)

  // cap is Max_Search_Results; user tells a client connection from a server connection.
  datatype Setup = Setup(cap: int, user: bool, filter: Filter)

  // Invalid: the request is refused as malformed; Stopped: reading ends without that complaint.
  datatype Outcome = Asked(query: Query) | Invalid | Stopped

  function Fresh(cap: int): Query {
    Query([], cap, 0, Range(0, MAX_BITRATE), Range(0, MAX_FREQUENCY), Range(0, MAX_SPEED), false)
  }

  function Capped(results: int, cap: int): int {
    if cap > 0 && results > cap then cap else results
  }

  // --- search_internal: reading -------------------------------------------------------

  function KindOf(name: string, from: nat): Option<nat>
    requires from <= 6
    decreases 6 - from
  {
    if from == 6 then None
    else if SameNoCase(name, CONTENT_TYPES[from]) then Some(from)
    else KindOf(name, from + 1)
  }

  // None: an operator nobody knows, from a client.
  function Compared(op: string, val: int, r: Range, user: bool): Option<Range> {
    if SameNoCase(op, "equal to") then Some(Range(val, val))
    else if SameNoCase(op, "at least") then Some(r.(min := val))
    else if SameNoCase(op, "at best") then Some(r.(max := val))
    else if user then None
    else Some(r)
  }

  datatype Clause = FileName | MaxResults | Type | LineSpeed | BitRate | Freq | Local | Unknown

  function ClauseOf(arg: string): Clause {
    if SameNoCase("filename", arg) then FileName
    else if SameNoCase("max_results", arg) then MaxResults
    else if SameNoCase("type", arg) then Type
    else if SameNoCase("linespeed", arg) then LineSpeed
    else if SameNoCase("bitrate", arg) then BitRate
    else if SameNoCase("freq", arg) then Freq
    else if SameNoCase("local", arg) then Local
    else Unknown
  }

  function RangeOf(q: Query, c: Clause): Range {
    if c == LineSpeed then q.speed else if c == BitRate then q.bitrate else q.freq
  }

  function WithRange(q: Query, c: Clause, r: Range): Query {
    if c == LineSpeed then q.(speed := r) else if c == BitRate then q.(bitrate := r) else q.(freq := r)
  }

  function Read(args: seq<string>, q: Query, how: Setup): Outcome {
    if args == [] then Asked(q)
    else
      var c := ClauseOf(args[0]);
      if c == FileName then
        if |args| < 3 || !SameNoCase("contains", args[1]) then Invalid
        else Read(args[3..], q.(tokens := q.tokens + Tokenized(args[2], how.filter)), how)
      else if c == MaxResults then
        if |args| < 2 then Invalid
        else
          var n := IntArg(args[1]);
          if n.None? then Invalid else Read(args[2..], q.(limit := Capped(n.value, how.cap)), how)
      else if c == Type then
        if |args| < 2 then Invalid
        else
          var kind := KindOf(args[1], 0);
          if kind.None? then Stopped else Read(args[2..], q.(kind := kind.value), how)
      else if c == Local then Read(args[1..], q.(local := true), how)
      else if c == Unknown then Invalid
      else if |args| < 3 then Invalid
      else
        var n := IntArg(args[2]);
        if n.None? then Invalid
        else
          var r := Compared(args[1], n.value, RangeOf(q, c), how.user);
          if r.None? then Stopped else Read(args[3..], WithRange(q, c, r.value), how)
  }

  method SetCompare(op: string, val: int, min: int, max: int, user: bool)
    returns (failed: bool, newMin: int, newMax: int)
    ensures failed <==> Compared(op, val, Range(min, max), user).None?
    ensures !failed ==> Compared(op, val, Range(min, max), user) == Some(Range(newMin, newMax))
  {
    failed, newMin, newMax := false, min, max;
    if SameNoCase(op, "equal to") {
      newMin, newMax := val, val;
    } else if SameNoCase(op, "at least") {
      newMin := val;
    } else if SameNoCase(op, "at best") {
      newMax := val;
    } else if user {
      failed := true;
    }
  }

  method FindKind(name: string) returns (kind: Option<nat>)
    ensures kind == KindOf(name, 0)
  {
    var n := 0;
    while n < 6
      invariant 0 <= n <= 6 && KindOf(name, n) == KindOf(name, 0)
    {
      if SameNoCase(name, CONTENT_TYPES[n]) {
        return Some(n);
      }
      n := n + 1;
    }
    return None;
  }

  method ReadRequest(text: string, how: Setup) returns (r: Outcome)
    ensures r == Read(AllArgs(Some(text)), Fresh(how.cap), how)
  {
    hide Next, SameNoCase, Tokenized, IntArg, Compared, KindOf, ClauseOf, RangeOf, WithRange;
    var q := Fresh(how.cap);
    var arg, pkt := NextArg(Some(text));
    while arg.Some?
      invariant arg.None? ==> pkt.None?
      invariant Read(if arg.None? then [] else [arg.value] + AllArgs(pkt), q, how)
             == Read(AllArgs(Some(text)), Fresh(how.cap), how)
      decreases if arg.None? then 0 else if pkt.None? then 1 else |pkt.value| + 2
    {
      ghost var args := [arg.value] + AllArgs(pkt);
      var c := ClauseOf(arg.value);
      var arg1, arg2: Option<string> := None, None;
      if c == Unknown {
        return Invalid;
      }
      if c != Local {
        arg1, pkt := NextArg(pkt);
      }
      if c != Local && c != MaxResults && c != Type {
        arg2, pkt := NextArg(pkt);
        if arg1.None? || arg2.None? {
          return Invalid;
        }
        assert args[1] == arg1.value && args[2] == arg2.value && args[3..] == AllArgs(pkt);
        if c == FileName {
          if !SameNoCase("contains", arg1.value) {
            return Invalid;
          }
          var tokens := Tokenize(arg2.value, how.filter);
          q := q.(tokens := q.tokens + tokens);
        } else {
          var n := IntArg(arg2.value);
          if n.None? {
            return Invalid;
          }
          var range := RangeOf(q, c);
          var failed, min, max := SetCompare(arg1.value, n.value, range.min, range.max, how.user);
          if failed {
            return Stopped;
          }
          q := WithRange(q, c, Range(min, max));
        }
      } else if c != Local {
        if arg1.None? {
          return Invalid;
        }
        assert args[1] == arg1.value && args[2..] == AllArgs(pkt);
        if c == MaxResults {
          var n := IntArg(arg1.value);
          if n.None? {
            return Invalid;
          }
          q := q.(limit := if how.cap > 0 && n.value > how.cap then how.cap else n.value);
        } else {
          var kind := FindKind(arg1.value);
          if kind.None? {
            return Stopped;
          }
          q := q.(kind := kind.value);
        }
      } else {
        assert args[1..] == AllArgs(pkt);
        q := q.(local := true);
      }
      arg, pkt := NextArg(pkt);
    }
    r := Asked(q);
  }

  // --- generate_request: printing -----------------------------------------------------

  // The tokens as they stand between the quotes, a space behind each.
  function Joined(tokens: seq<string>): string {
    if tokens == [] then "" else tokens[0] + (" " + Joined(tokens[1..]))
  }

  function QualifierItems(attr: string, r: Range, hardmax: int): seq<Item> {
    if r.min > 0 then
      [Word(attr), Quoted(if r.min == r.max then "EQUAL TO" else "AT LEAST"), Word(Decimal(r.min))]
    else if r.max < hardmax then [Word(attr), Quoted("AT BEST"), Word(Decimal(r.max))]
    else []
  }

  function TypeItems(kind: nat): seq<Item>
    requires kind < 6
  {
    if kind == 0 then [] else [Word("TYPE"), Word(CONTENT_TYPES[kind])]
  }

  function HeadItems(results: int, tokens: seq<string>): seq<Item> {
    [Word("FILENAME"), Word("CONTAINS"), Quoted(Joined(tokens)), Word("MAX_RESULTS"), Word(Decimal(results))]
  }

  function RequestItems(results: int, q: Query): (r: seq<Item>)
    requires q.kind < 6
    ensures r != []
  {
    HeadItems(results, q.tokens) + (TypeItems(q.kind) + (QualifierItems("BITRATE", q.bitrate, MAX_BITRATE)
      + (QualifierItems("FREQ", q.freq, MAX_FREQUENCY) + QualifierItems("LINESPEED", q.speed, MAX_SPEED))))
  }

  // A line and further items behind it.
  function Behind(items: seq<Item>): string {
    if items == [] then "" else " " + Line(items)
  }

  lemma {:induction false} LineOf(a: seq<Item>, b: seq<Item>)
    requires a != []
    ensures Line(a + b) == Line(a) + Behind(b)
  {
    hide Shown;
    var ab := a + b;
    assert ab[0] == a[0];
    if |a| == 1 {
      assert ab[1..] == b;
    } else {
      assert ab[1..] == a[1..] + b;
      LineOf(a[1..], b);
      assert Line(ab) == Shown(a[0]) + (" " + (Line(a[1..]) + Behind(b)));
    }
  }

  lemma BehindOf(a: seq<Item>, b: seq<Item>)
    ensures Behind(a + b) == Behind(a) + Behind(b)
  {
    if a == [] {
      assert a + b == b;
    } else {
      LineOf(a, b);
    }
  }

  // attr, an operator in quotes and a number, as the format string of generate_qualifier lays them out.
  function Laid(attr: string, op: string, n: int): string {
    " " + attr + " \"" + op + "\" " + Decimal(n)
  }

  lemma LaidIsPrinted(attr: string, op: string, n: int)
    ensures Laid(attr, op, n) == Behind([Word(attr), Quoted(op), Word(Decimal(n))])
  {
    hide Decimal;
    ThreeItems(Word(attr), Quoted(op), Word(Decimal(n)));
    var quoted := "\"" + op + "\"";
    assert " \"" + op + "\" " == " " + quoted + " ";
  }

  lemma ThreeItems(a: Item, b: Item, c: Item)
    ensures Behind([a, b, c]) == " " + Shown(a) + " " + Shown(b) + " " + Shown(c)
  {
    hide Shown;
    assert [a, b, c][1..] == [b, c] && [b, c][1..] == [c];
    assert Line([b, c]) == Shown(b) + (" " + Shown(c));
    assert Line([a, b, c]) == Shown(a) + (" " + Line([b, c]));
  }

  method GenerateQualifier(attr: string, min: int, max: int, hardmax: int) returns (d: string)
    ensures d == Behind(QualifierItems(attr, Range(min, max), hardmax))
  {
    hide Laid, Decimal, Line;
    d := "";
    if min > 0 {
      LaidIsPrinted(attr, if min == max then "EQUAL TO" else "AT LEAST", min);
      d := Laid(attr, if min == max then "EQUAL TO" else "AT LEAST", min);
    } else if max < hardmax {
      LaidIsPrinted(attr, "AT BEST", max);
      d := Laid(attr, "AT BEST", max);
    }
  }

  method JoinTokens(tokens: seq<string>) returns (text: string)
    ensures text == Joined(tokens)
  {
    text := "";
    var i := 0;
    while i < |tokens|
      invariant 0 <= i <= |tokens| && text + Joined(tokens[i..]) == Joined(tokens)
    {
      assert tokens[i..][1..] == tokens[i + 1..];
      text := text + (tokens[i] + " ");
      i := i + 1;
    }
  }

  method GenerateRequest(results: int, tokens: seq<string>, q: Query) returns (d: string)
    requires q.kind < 6 && tokens == q.tokens
    ensures d == Line(RequestItems(results, q))
  {
    hide Line, Decimal, QualifierItems, Behind, Joined, HeadItems, TypeItems, RequestItems;
    var text := JoinTokens(tokens);
    d := "FILENAME CONTAINS \"" + text + "\" MAX_RESULTS " + Decimal(results);
    HeadLine(results, tokens);
    if q.kind != 0 {
      d := d + (" TYPE " + CONTENT_TYPES[q.kind]);
    }
    TypeLine(q.kind);
    var bitrate := GenerateQualifier("BITRATE", q.bitrate.min, q.bitrate.max, MAX_BITRATE);
    var freq := GenerateQualifier("FREQ", q.freq.min, q.freq.max, MAX_FREQUENCY);
    var speed := GenerateQualifier("LINESPEED", q.speed.min, q.speed.max, MAX_SPEED);
    RequestLine(results, q);
    d := d + bitrate;
    d := d + freq;
    d := d + speed;
  }

  lemma FiveItems(a: Item, b: Item, c: Item, d: Item, e: Item)
    ensures Line([a, b, c, d, e])
         == Shown(a) + (" " + (Shown(b) + (" " + (Shown(c) + (" " + (Shown(d) + (" " + Shown(e))))))))
  {
    hide Shown;
    assert [a, b, c, d, e][1..] == [b, c, d, e] && [b, c, d, e][1..] == [c, d, e];
    assert [c, d, e][1..] == [d, e] && [d, e][1..] == [e];
    assert Line([d, e]) == Shown(d) + (" " + Shown(e));
    assert Line([c, d, e]) == Shown(c) + (" " + Line([d, e]));
    assert Line([b, c, d, e]) == Shown(b) + (" " + Line([c, d, e]));
  }

  lemma Relaid(f: string, c: string, m: string, q: string, sp: string, text: string, n: string)
    ensures f + (sp + (c + (sp + ((q + text + q) + (sp + (m + (sp + n)))))))
         == (f + sp + c + sp + q) + text + (q + sp + m + sp) + n
  {
  }

  lemma HeadLine(results: int, tokens: seq<string>)
    ensures Line(HeadItems(results, tokens))
         == "FILENAME CONTAINS \"" + Joined(tokens) + "\" MAX_RESULTS " + Decimal(results)
  {
    hide Decimal, Joined, Line;
    FiveItems(Word("FILENAME"), Word("CONTAINS"), Quoted(Joined(tokens)), Word("MAX_RESULTS"), Word(Decimal(results)));
    Relaid("FILENAME", "CONTAINS", "MAX_RESULTS", "\"", " ", Joined(tokens), Decimal(results));
    HeadLiterals();
  }

  lemma HeadLiterals()
    ensures "FILENAME" + " " + "CONTAINS" + " " + "\"" == "FILENAME CONTAINS \""
    ensures "\"" + " " + "MAX_RESULTS" + " " == "\" MAX_RESULTS "
  {
  }

  lemma TypeLine(kind: nat)
    requires kind < 6
    ensures Behind(TypeItems(kind)) == if kind == 0 then "" else " TYPE " + CONTENT_TYPES[kind]
  {
    if kind != 0 {
      assert TypeItems(kind)[1..] == [Word(CONTENT_TYPES[kind])];
      assert Line([Word(CONTENT_TYPES[kind])]) == CONTENT_TYPES[kind];
    }
  }

  lemma RequestLine(results: int, q: Query)
    requires q.kind < 6
    ensures Line(RequestItems(results, q))
         == Line(HeadItems(results, q.tokens)) + Behind(TypeItems(q.kind))
            + Behind(QualifierItems("BITRATE", q.bitrate, MAX_BITRATE))
            + Behind(QualifierItems("FREQ", q.freq, MAX_FREQUENCY))
            + Behind(QualifierItems("LINESPEED", q.speed, MAX_SPEED))
  {
    hide Line, Behind, QualifierItems, TypeItems;
    var b := QualifierItems("BITRATE", q.bitrate, MAX_BITRATE);
    var f := QualifierItems("FREQ", q.freq, MAX_FREQUENCY);
    var s := QualifierItems("LINESPEED", q.speed, MAX_SPEED);
    var t := TypeItems(q.kind);
    LineOf(HeadItems(results, q.tokens), t + (b + (f + s)));
    BehindOf(t, b + (f + s));
    BehindOf(b, f + s);
    BehindOf(f, s);
  }
}
