/** join.c: the names tried one after the other when a predefined channel is full. */
module Rollover {
  import opened Text
  import opened Arguments

  // The macro ISDIGIT of join.c: everything from the terminator up to '9'.
  predicate LowChar(c: char) { c <= '9' }

  // Where the low characters at the end of a name begin.
  function Tail(name: string): (k: nat)
    ensures k <= |name| && (k > 0 ==> !LowChar(name[k - 1])) && forall i :: k <= i < |name| ==> LowChar(name[i])
  {
    if name == "" || !LowChar(name[|name| - 1]) then |name| else Tail(name[..|name| - 1])
  }

  // The digits a string begins with.
  function Leading(s: string): (r: string)
    ensures forall c <- r :: IsDigit(c)
  {
    if s == "" || !IsDigit(s[0]) then "" else [s[0]] + Leading(s[1..])
  }

  // atoi()
  function AtoI(s: string): (r: int)
    ensures IsInt(r)
  {
    var t := SkipSpaces(s);
    if t != "" && t[0] == '-' then ToInt(-Value(Leading(t[1..])))
    else ToInt(Value(Leading(if t != "" && t[0] == '+' then t[1..] else t)))
  }

  // n + 1 in an int.
  function Inc(n: int): (r: int)
    requires IsInt(n)
    ensures IsInt(r)
  {
    if n == 0x7fff_ffff then -0x8000_0000 else n + 1
  }

  function Plus(n: int, k: nat): (r: int)
    requires IsInt(n)
    ensures IsInt(r)
  {
    if k == 0 then n else Inc(Plus(n, k - 1))
  }

  // The next name: the number at its end, or what atoi() makes of the low characters there, plus one.
  function Rolled(name: string): string {
    name[..Tail(name)] + Decimal(Inc(AtoI(name[Tail(name)..])))
  }

  // The first k names.
  function Names(name: string, k: nat): (r: seq<string>)
    ensures |r| == k && (k > 0 ==> r[0] == name)
  {
    if k == 0 then [] else if k == 1 then [name] else var front := Names(name, k - 1); front + [Rolled(front[k - 2])]
  }

  method Roll(name: string) returns (r: string)
    ensures r == Rolled(name)
  {
    hide AtoI, Decimal;
    var p := |name|;
    assert name[..p] == name;
    while p > 0 && LowChar(name[p - 1])
      invariant 0 <= p <= |name| && Tail(name) == Tail(name[..p])
    {
      assert name[..p][..p - 1] == name[..p - 1];
      p := p - 1;
    }
    // *p is a low character or the terminator, which is one too
    var n := AtoI(name[p..]);
    r := name[..p] + Decimal(Inc(n));
  }

  lemma {:induction false} LeadingAll(d: string)
    requires forall c <- d :: IsDigit(c)
    ensures Leading(d) == d
  {
    if d != "" {
      LeadingAll(d[1..]);
    }
  }

  lemma AtoIOfDigits(d: string)
    requires d != "" && forall c <- d :: IsDigit(c)
    ensures AtoI(d) == ToInt(Value(d)) && AtoI("-" + d) == ToInt(-Value(d)) && forall c <- "-" + d :: LowChar(c)
  {
    hide ToInt, Value;
    LeadingAll(d);
    assert d[0] in d;
    assert ("-" + d)[1..] == d;
  }

  lemma AtoIOfDecimal(n: int)
    requires IsInt(n)
    ensures AtoI(Decimal(n)) == n && (forall c <- Decimal(n) :: LowChar(c))
  {
    hide AtoI, ToInt, Value, Digits;
    var size := if n < 0 then -n else n;
    ValueOfDigits(size);
    AtoIOfDigits(Digits(size));
  }

  lemma {:induction false} TailOf(stem: string, low: string)
    requires (stem == "" || !LowChar(stem[|stem| - 1])) && forall c <- low :: LowChar(c)
    ensures Tail(stem + low) == |stem| && (stem + low)[..|stem|] == stem && (stem + low)[|stem|..] == low
  {
    var name := stem + low;
    if low == "" {
      assert name == stem;
    } else {
      assert name[..|name| - 1] == stem + low[..|low| - 1];
      assert low[|low| - 1] in low;
      TailOf(stem, low[..|low| - 1]);
    }
  }

  // The name is the stem followed by low characters that atoi() reads as n.
  ghost predicate Numbered(name: string, stem: string, n: int) {
    Tail(name) == |stem| && name[..|stem|] == stem && AtoI(name[|stem|..]) == n
  }

  lemma RolledIs(name: string, stem: string, n: int)
    requires Numbered(name, stem, n)
    ensures Numbered(Rolled(name), stem, Inc(n))
  {
    hide AtoI, Decimal, Inc;
    AtoIOfDecimal(Inc(n));
    TailOf(stem, Decimal(Inc(n)));
  }

  // All names have the same stem, and numbers that go up.
  lemma {:induction false} NamesAre(name: string, k: nat, i: nat)
    requires i < k
    ensures Numbered(Names(name, k)[i], name[..Tail(name)], Plus(AtoI(name[Tail(name)..]), i))
    decreases k, i
  {
    hide AtoI, Rolled, Inc;
    if i < k - 1 {
      hide Numbered, Plus;
      NamesAre(name, k - 1, i);
    } else if i > 0 {
      hide Numbered;
      NamesAre(name, k - 1, i - 1);
      RolledIs(Names(name, k - 1)[i - 1], name[..Tail(name)], Plus(AtoI(name[Tail(name)..]), i - 1));
    }
  }

  lemma {:induction false} PlusIs(n: int, k: nat) returns (turns: int)
    requires IsInt(n)
    ensures Plus(n, k) == n + k - turns * 0x1_0000_0000
  {
    turns := 0;
    if k > 0 {
      turns := PlusIs(n, k - 1);
      if Plus(n, k - 1) == 0x7fff_ffff {
        turns := turns + 1;
      }
    }
  }

  lemma SameCaseSame(a: string, b: string, k: nat)
    requires k <= |a| == |b| && Lower(a) == Lower(b) && (forall i :: k <= i < |a| ==> LowChar(a[i]) && LowChar(b[i]))
    ensures a[k..] == b[k..]
  {
    forall i | k <= i < |a| ensures a[i] == b[i] {
      assert Lower(a)[i] == Lower(b)[i];
    }
  }

  lemma PlusDiffers(n: int, i: nat, j: nat)
    requires IsInt(n) && i < j < 0x1_0000_0000
    ensures Plus(n, i) != Plus(n, j)
  {
    hide Plus;
    var a := PlusIs(n, i);
    var b := PlusIs(n, j);
  }

  // No two of as many names as an int can count are equal, case ignored.
  lemma NamesDiffer(name: string, k: nat, i: nat, j: nat)
    requires i < j < k <= 0x1_0000_0000
    ensures Lower(Names(name, k)[i]) != Lower(Names(name, k)[j])
  {
    hide AtoI, Names, Plus;
    var a, b, m := Names(name, k)[i], Names(name, k)[j], Tail(name);
    NamesAre(name, k, i);
    NamesAre(name, k, j);
    PlusDiffers(AtoI(name[m..]), i, j);
    if Lower(a) == Lower(b) {
      SameCaseSame(a, b, m);
      assert false;
    }
  }

  predicate HasPrefix(name: string) { name != "" && (name[0] == '#' || name[0] == '&') }

  // The next name is the name of a channel only if there is something in this one that is not low.
  lemma RolledHasPrefix(name: string)
    requires HasPrefix(name)
    ensures HasPrefix(Rolled(name)) <==> exists i :: 0 <= i < |name| && !LowChar(name[i])
  {
    hide AtoI;
    var n := Inc(AtoI(name[Tail(name)..]));
    assert Decimal(n) != "" && Decimal(n)[0] in Decimal(n);
    if Tail(name) == 0 {
      assert Rolled(name) == Decimal(n);
    }
  }

  lemma SmallNumbers()
    ensures AtoI("") == 0 && AtoI("9") == 9 && AtoI("#1") == 0 && Decimal(1) == "1" && Decimal(10) == "10"
  {
    hide ToInt;
    assert Leading("") == "" && Leading("9") == "9" && Value("9") == 9;
    assert Leading("#1") == "" && Value("") == 0;
    assert Digits(1) == "1" && Digits(10) == Digits(1) + "0";
  }

  // The first name behind one without a number ends in 1; a name of nothing but low characters
  // loses all of them, the # included.
  lemma FirstRollovers()
    ensures Rolled("#music") == "#music1" && Rolled("#music9") == "#music10" && Rolled("#1") == "1"
  {
    hide AtoI, Decimal, Tail;
    SmallNumbers();
    TailOf("#music", "");
    TailOf("#music", "9");
    TailOf("", "#1");
    assert "#music" + "" == "#music" && "#music" + "9" == "#music9" && "" + "#1" == "#1";
  }
}
