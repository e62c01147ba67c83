/** util.c: next_arg, and the decimal numbers that travel as arguments. */
module Arguments {
  import opened Text
  import opened Options

  // --- next_arg -------------------------------------------------------------------------

  function SkipSpaces(s: string): (r: string)
    ensures |r| <= |s| && (r == "" || !IsSpace(r[0]))
  {
    if s != "" && IsSpace(s[0]) then SkipSpaces(s[1..]) else s
  }

  predicate Ends(c: char, quoted: bool) {
    if quoted then c == '"' else c == ' ' || c == '\t' || c == '\r' || c == '\n'
  }

  // strchr (s, '"') or strpbrk (s, " \t\r\n"); the length when there is none.
  function Find(s: string, quoted: bool): (k: nat)
    ensures k <= |s| && (k < |s| ==> Ends(s[k], quoted)) && forall j :: 0 <= j < k ==> !Ends(s[j], quoted)
  {
    if s == "" || Ends(s[0], quoted) then 0 else 1 + Find(s[1..], quoted)
  }

  // The rest of the packet behind an argument; None once there is nothing more.
  function Rest(s: string): (r: Option<string>)
    ensures r.Some? ==> |r.value| <= |s|
  {
    var u := SkipSpaces(s);
    if u == "" then None else Some(u)
  }

  function Next(p: Option<string>): (r: (Option<string>, Option<string>))
    ensures p.Some? <==> r.0.Some?
    ensures r.1.Some? ==> p.Some? && |r.1.value| < |p.value|
  {
    match p
    case None => (None, None)
    case Some(s) =>
      var r := SkipSpaces(s);
      var quoted := r != "" && r[0] == '"';
      var t := if quoted then r[1..] else r;
      var k := Find(t, quoted);
      if k == |t| then (Some(t), None) else (Some(t[..k]), Rest(t[k + 1..]))
  }

  method SkipFrom(s: string, start: nat) returns (i: nat)
    requires start <= |s|
    ensures start <= i <= |s| && s[i..] == SkipSpaces(s[start..])
  {
    i := start;
    while i < |s| && IsSpace(s[i])
      invariant start <= i <= |s| && SkipSpaces(s[i..]) == SkipSpaces(s[start..])
    {
      assert s[i..][1..] == s[i + 1..];
      i := i + 1;
    }
  }

  method FindFrom(s: string, start: nat, quoted: bool) returns (i: nat)
    requires start <= |s|
    ensures i == start + Find(s[start..], quoted)
  {
    i := start;
    while i < |s| && !Ends(s[i], quoted)
      invariant start <= i <= |s| && i + Find(s[i..], quoted) == start + Find(s[start..], quoted)
    {
      assert s[i..][1..] == s[i + 1..];
      i := i + 1;
    }
  }

  lemma NextAt(s: string, i: nat, j: nat, end: nat, quoted: bool)
    requires i <= j <= end <= |s| && s[i..] == SkipSpaces(s) && quoted == (i < |s| && s[i] == '"')
    requires j == (if quoted then i + 1 else i) && end == j + Find(s[j..], quoted)
    ensures Next(Some(s)) == (Some(s[j..end]), if end == |s| then None else Rest(s[end + 1..]))
  {
    hide Find, SkipSpaces, Rest;
    if quoted {
      assert s[i..][1..] == s[j..];
    }
    assert s[j..][..end - j] == s[j..end];
    if end < |s| {
      assert s[j..][end - j + 1..] == s[end + 1..];
    } else {
      assert s[j..] == s[j..end];
    }
  }

  method NextArg(pkt: Option<string>) returns (arg: Option<string>, rest: Option<string>)
    ensures (arg, rest) == Next(pkt)
  {
    hide Find, SkipSpaces, Ends, Next;
    if pkt.None? {
      NothingNext();
      return None, None;
    }
    var s := pkt.value;
    assert s[0..] == s;
    var r := SkipFrom(s, 0);
    var quoted := r < |s| && s[r] == '"';
    var begin := if quoted then r + 1 else r;
    var end := FindFrom(s, begin, quoted);
    NextAt(s, r, begin, end, quoted);
    if end == |s| {
      return Some(s[begin..end]), None;
    }
    var next := SkipFrom(s, end + 1);
    return Some(s[begin..end]), if next == |s| then None else Some(s[next..]);
  }

  lemma NothingNext()
    ensures Next(None) == (None, None)
  {}

  // All arguments of a packet, one next_arg after the other.
  function AllArgs(p: Option<string>): seq<string>
    decreases if p.Some? then |p.value| + 1 else 0
  {
    if p.None? then [] else
      var (arg, rest) := Next(p);
      [arg.value] + AllArgs(rest)
  }

  // --- Printing arguments ---------------------------------------------------------------

  datatype Item = Word(text: string) | Quoted(text: string)

  predicate Printable(i: Item) {
    match i
    case Word(w) => w != "" && w[0] != '"' && forall c <- w :: !IsSpace(c)
    case Quoted(b) => '"' !in b
  }

  function Shown(i: Item): (s: string)
    ensures Printable(i) ==> s != "" && !IsSpace(s[0])
  {
    match i case Word(w) => w case Quoted(b) => "\"" + b + "\""
  }

  // The items on one line, a space between neighbours.
  function Line(items: seq<Item>): string
    requires items != []
  {
    if |items| == 1 then Shown(items[0]) else Shown(items[0]) + (" " + Line(items[1..]))
  }

  predicate AllPrintable(items: seq<Item>) {
    forall i <- items :: Printable(i)
  }

  function Values(items: seq<Item>): (r: seq<string>)
    ensures |r| == |items|
  {
    seq(|items|, i requires 0 <= i < |items| => items[i].text)
  }

  lemma {:induction false} FindIn(w: string, rest: string, quoted: bool)
    requires (forall c <- w :: !Ends(c, quoted)) && (rest == "" || Ends(rest[0], quoted))
    ensures Find(w + rest, quoted) == |w|
  {
    if w == "" {
      assert w + rest == rest;
    } else {
      assert (w + rest)[1..] == w[1..] + rest;
      FindIn(w[1..], rest, quoted);
    }
  }

  lemma NextOfWord(w: string, rest: string)
    requires Printable(Word(w)) && (rest == "" || rest[0] == ' ')
    ensures Next(Some(w + rest)) == (Some(w), if rest == "" then None else Rest(rest[1..]))
  {
    hide Find, Rest;
    var s := w + rest;
    assert s[0] == w[0] && w[0] in w;
    Unspaced(s);
    assert rest == "" ==> s == w;
    FindIn(w, rest, false);
    assert s[..|w|] == w && s[|w|..] == rest;
    assert rest != "" ==> s[|w| + 1..] == rest[1..];
  }

  lemma NextOfQuoted(b: string, rest: string)
    requires '"' !in b
    ensures Next(Some("\"" + b + "\"" + rest)) == (Some(b), Rest(rest))
  {
    hide Find, Rest;
    var s := "\"" + b + "\"" + rest;
    var t := "\"" + rest;
    FindIn(b, t, true);
    assert s[1..] == b + t;
    assert s[1..][..|b|] == b && s[1..][|b| + 1..] == rest;
  }

  lemma RestOfLine(items: seq<Item>)
    requires items != [] && AllPrintable(items)
    ensures Rest(" " + Line(items)) == Some(Line(items)) == Rest(Line(items)) && Line(items) != ""
  {
    var l := Line(items);
    assert Printable(items[0]);
    assert l[0] == Shown(items[0])[0];
    assert (" " + l)[1..] == l;
    Unspaced(l);
  }

  lemma Unspaced(l: string)
    requires l != "" && !IsSpace(l[0])
    ensures SkipSpaces(l) == l
  {
  }

  // What is printed is what the peer reads, argument by argument.
  lemma {:induction false} ArgsArePrinted(items: seq<Item>)
    requires items != [] && AllPrintable(items)
    ensures AllArgs(Some(Line(items))) == Values(items)
    decreases |items|
  {
    hide Next, Printable, Rest, Line, Shown;
    var i, more := items[0], items[1..];
    PrintableParts(items);
    NextItem(i, more);
    LineParts(items);
    if more == [] {
      assert Shown(i) + "" == Shown(i) && AllArgs(None) == Values(more);
    } else {
      ArgsArePrinted(more);
    }
    assert Values(items) == [i.text] + Values(more);
  }

  lemma PrintableParts(items: seq<Item>)
    requires items != [] && AllPrintable(items)
    ensures Printable(items[0]) && AllPrintable(items[1..])
  {
    hide Printable;
    assert items[0] in items;
  }

  lemma LineParts(items: seq<Item>)
    requires items != []
    ensures Line(items) == if |items| == 1 then Shown(items[0]) else Shown(items[0]) + (" " + Line(items[1..]))
  {
    hide Shown;
  }

  lemma NextItem(i: Item, more: seq<Item>)
    requires Printable(i) && AllPrintable(more)
    ensures var tail := if more == [] then "" else " " + Line(more);
      Next(Some(Shown(i) + tail)) == (Some(i.text), if more == [] then None else Some(Line(more)))
  {
    hide Next, Line;
    var tail := if more == [] then "" else " " + Line(more);
    if more != [] {
      hide Rest;
      RestOfLine(more);
      assert tail[1..] == Line(more);
    }
    match i {
      case Word(w) => NextOfWord(w, tail);
      case Quoted(b) => NextOfQuoted(b, tail);
    }
  }

  // --- Decimal numbers ------------------------------------------------------------------

  predicate IsInt(n: int) { -0x8000_0000 <= n < 0x8000_0000 }

  function Digit(d: nat): char
    requires d < 10
  {
    (48 + d) as char
  }

  function Digits(n: nat): (s: string)
    ensures s != "" && forall c <- s :: IsDigit(c)
  {
    if n < 10 then [Digit(n)] else Digits(n / 10) + [Digit(n % 10)]
  }

  // printf ("%d", n)
  function Decimal(n: int): string {
    if n < 0 then "-" + Digits(-n) else Digits(n)
  }

  function Value(s: string): int
    requires forall c <- s :: IsDigit(c)
  {
    if s == "" then 0 else 10 * Value(s[..|s| - 1]) + (s[|s| - 1] as int - 48)
  }

  lemma {:induction false} ValueOfDigits(n: nat)
    ensures Value(Digits(n)) == n
  {
    if n >= 10 {
      ValueOfDigits(n / 10);
      assert Digits(n)[..|Digits(n)| - 1] == Digits(n / 10);
    }
  }

  // strtol saturates at 64 bits and the result is stored in a 32-bit int.
  function ToInt(v: int): (r: int)
    ensures IsInt(r) && (IsInt(v) ==> r == v)
  {
    var long := if v > 0x7fff_ffff_ffff_ffff then 0x7fff_ffff_ffff_ffff
                else if v < -0x8000_0000_0000_0000 then -0x8000_0000_0000_0000 else v;
    var low := long % 0x1_0000_0000;
    if low < 0x8000_0000 then low else low - 0x1_0000_0000
  }

  // n = strtol (s, &ptr, 10), refused unless *ptr is the terminator. Without a digit ptr is s.
  function IntArg(s: string): (r: Option<int>)
    ensures r.Some? ==> IsInt(r.value)
  {
    var t := SkipSpaces(s);
    var signed := t != "" && (t[0] == '-' || t[0] == '+');
    var digits := if signed then t[1..] else t;
    if s == "" then Some(0)
    else if digits == "" || exists c <- digits :: !IsDigit(c) then None
    else Some(ToInt(if t[0] == '-' then -Value(digits) else Value(digits)))
  }

  lemma DigitsAreRead(d: string)
    requires d != "" && forall c <- d :: IsDigit(c)
    ensures IntArg(d) == Some(ToInt(Value(d))) && IntArg("-" + d) == Some(ToInt(-Value(d)))
  {
    hide Value, ToInt;
    assert IsDigit(d[0]);
    assert ("-" + d)[1..] == d;
  }

  lemma DecimalComesBack(n: int)
    requires IsInt(n)
    ensures IntArg(Decimal(n)) == Some(n) && Printable(Word(Decimal(n)))
  {
    hide IntArg, Value, ToInt, Digits;
    var size := if n < 0 then -n else n;
    ValueOfDigits(size);
    DigitsAreRead(Digits(size));
    assert IsDigit(Digits(size)[0]);
  }
}
