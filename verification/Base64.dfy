/** util.c: base64 (section 4 of RFC 4648) as the server writes and reads it. */
module Base64 {
  import opened Options

  const CAPITALS := "ABCDEFGHIJKLMNOPQRSTUVWXYZ"
  const SMALLS := "abcdefghijklmnopqrstuvwxyz"
  const OTHERS := "0123456789+/"

  function Alphabet(n: nat): char
    requires n < 64
  {
    (CAPITALS + SMALLS + OTHERS)[n]
  }

  function Letter(v: bv8): char
    requires v < 64
  {
    Alphabet(v as int)
  }

  // b64_lookup: 0xff for a character outside the alphabet.
  function Lookup(c: char): bv8 {
    if 'A' <= c <= 'Z' then (c as int - 65) as bv8
    else if 'a' <= c <= 'z' then (c as int - 71) as bv8
    else if '0' <= c <= '9' then (c as int + 4) as bv8
    else if c == '+' then 62
    else if c == '/' then 63
    else 0xff
  }

  // The alphabet without a repeated letter, and the lookup table is its inverse.
  lemma LookupInvertsLetter(v: bv8)
    requires v < 64
    ensures Lookup(Letter(v)) == v && '+' <= Letter(v) <= 'z' && Letter(v) != '='
  {
    hide Alphabet;
    LetterAt(v as int);
    Kept(v);
  }

  lemma LetterAt(n: nat)
    requires n < 64
    ensures Alphabet(n) == if n < 26 then (n + 65) as char else if n < 52 then (n + 71) as char
                           else if n < 62 then (n - 4) as char else if n == 62 then '+' else '/'
  {
    if n < 26 {
      assert Alphabet(n) == CAPITALS[n];
    } else if n < 52 {
      assert Alphabet(n) == SMALLS[n - 26];
    } else {
      assert Alphabet(n) == OTHERS[n - 52];
    }
  }

  lemma Kept(v: bv8)
    ensures (v as int) as bv8 == v
  {
  }

  // --- Encoding -------------------------------------------------------------------------

  function First(x: bv8): bv8 { (x >> 2) & 0x3f }
  function Second(x: bv8, y: bv8): bv8 { ((x & 0x3) << 4) | ((y >> 4) & 0xf) }
  function Third(y: bv8, z: bv8): bv8 { ((y & 0xf) << 2) | ((z >> 6) & 0x3) }
  function Fourth(z: bv8): bv8 { z & 0x3f }

  lemma SixBits(x: bv8, y: bv8, z: bv8)
    ensures First(x) < 64 && Second(x, y) < 64 && Third(y, z) < 64 && Fourth(z) < 64
  {
  }

  // Section 4 of RFC 4648: 24 bits, the first byte in front, are cut into four groups of six.
  lemma FourGroups(x: bv8, y: bv8, z: bv8)
    ensures ((First(x) as bv24) << 18) | ((Second(x, y) as bv24) << 12) | ((Third(y, z) as bv24) << 6) | (Fourth(z) as bv24)
         == ((x as bv24) << 16) | ((y as bv24) << 8) | (z as bv24)
  {}

  // The letters alone, without the trailing '='.
  function Bare(s: seq<bv8>): string {
    if |s| == 0 then ""
    else if |s| == 1 then
      SixBits(s[0], 0, 0);
      [Letter(First(s[0])), Letter(Second(s[0], 0))]
    else if |s| == 2 then
      SixBits(s[0], s[1], 0);
      [Letter(First(s[0])), Letter(Second(s[0], s[1])), Letter(Third(s[1], 0))]
    else
      SixBits(s[0], s[1], s[2]);
      [Letter(First(s[0])), Letter(Second(s[0], s[1])), Letter(Third(s[1], s[2])), Letter(Fourth(s[2]))]
      + Bare(s[3..])
  }

  function Padding(n: nat): string {
    if n % 3 == 1 then "==" else if n % 3 == 2 then "=" else ""
  }

  // What one turn of the encoder writes.
  function Group(s: seq<bv8>): string
    requires |s| > 0
  {
    var y := if |s| > 1 then s[1] else 0;
    var z := if |s| > 2 then s[2] else 0;
    SixBits(s[0], y, z);
    [Letter(First(s[0])), Letter(Second(s[0], y)), if |s| > 1 then Letter(Third(y, z)) else '=',
     if |s| > 2 then Letter(Fourth(z)) else '=']
  }

  function Encoded(s: seq<bv8>): string {
    if |s| == 0 then "" else Group(s) + Encoded(s[if |s| < 3 then |s| else 3..])
  }

  lemma {:induction false} EncodedIsBare(s: seq<bv8>)
    ensures Encoded(s) == Bare(s) + Padding(|s|)
  {
    hide Letter, First, Second, Third, Fourth;
    if |s| >= 3 {
      EncodedIsBare(s[3..]);
    }
  }

  // Section 10 of RFC 4648: "f", "fo" and "foo".
  lemma EncodedFoo()
    ensures Encoded([0x66]) == "Zg==" && Encoded([0x66, 0x6f]) == "Zm8=" && Encoded([0x66, 0x6f, 0x6f]) == "Zm9v"
  {
    hide Alphabet;
    assert First(0x66) == 25 && Second(0x66, 0) == 32 && Second(0x66, 0x6f) == 38 && Third(0x6f, 0) == 60
        && Third(0x6f, 0x6f) == 61 && Fourth(0x6f) == 47;
    LetterAt(25);
    LetterAt(32);
    LetterAt(38);
    LetterAt(60);
    LetterAt(61);
    LetterAt(47);
    assert Encoded([]) == "";
    assert [0x66][1..] == [] && [0x66, 0x6f][2..] == [] && [0x66, 0x6f, 0x6f][3..] == [];
  }

  lemma NoNeighbour(x: bv8)
    ensures ((x & 0x3) << 4) == Second(x, 0) && ((x & 0xf) << 2) == Third(x, 0)
  {
  }

  // The body of the encoder's loop.
  method EncodeGroup(s: seq<bv8>) returns (r: string)
    requires |s| > 0
    ensures r == Group(s)
  {
    hide Letter;
    SixBits(s[0], if |s| > 1 then s[1] else 0, if |s| > 2 then s[2] else 0);
    NoNeighbour(s[0]);
    var c, d: bv8 := 0xff, 0xff;
    var a := (s[0] >> 2) & 0x3f;
    var b := (s[0] & 0x3) << 4;
    if |s| > 1 {
      NoNeighbour(s[1]);
      b := b | ((s[1] >> 4) & 0xf);
      c := (s[1] & 0xf) << 2;
      if |s| > 2 {
        c := c | ((s[2] >> 6) & 0x3);
        d := s[2] & 0x3f;
      }
    }
    r := [Letter(a), Letter(b)];
    if c != 0xff {
      r := r + [Letter(c)];
      r := r + [if d != 0xff then Letter(d) else '='];
    } else {
      r := r + "==";
    }
  }

  method Encode(s: seq<bv8>) returns (r: string)
    ensures r == Encoded(s)
  {
    hide Group;
    r := "";
    var i := 0;
    while i < |s|
      invariant i <= |s| && r + Encoded(s[i..]) == Encoded(s)
    {
      var k := if |s| - i < 3 then |s| - i else 3;
      var group := EncodeGroup(s[i..]);
      assert s[i..][k..] == s[i + k..];
      r := r + group;
      i := i + k;
    }
  }

  // --- Decoding -------------------------------------------------------------------------

  // *in for a string whose terminating NUL follows its last character.
  function At(s: string, i: nat): char {
    if i < |s| then s[i] else '\0'
  }

  // The three bytes four letters carry.
  function High(a: bv8, b: bv8): bv8 { (a << 2) | (b >> 4) }
  function Middle(b: bv8, c: bv8): bv8 { (b << 4) | (c >> 2) }
  function Low(c: bv8, d: bv8): bv8 { (c << 6) | d }

  function Onto(head: seq<bv8>, tail: Option<seq<bv8>>): Option<seq<bv8>> {
    match tail case None => None case Some(t) => Some(head + t)
  }

  // The bytes a NUL-terminated text decodes to; None when decoding runs past the terminator.
  function Decoded(s: string): Option<seq<bv8>> {
    if At(s, 0) == '\0' then Some([])
    else if |s| == 1 then None
    else
      var a, b := Lookup(s[0]), Lookup(s[1]);
      var x := High(a, b);
      if At(s, 2) == '\0' || s[2] == '=' then Some([x])
      else
        var c := Lookup(s[2]);
        var y := Middle(b, c);
        if At(s, 3) == '\0' || s[3] == '=' then Some([x, y])
        else Onto([x, y, Low(c, Lookup(s[3]))], Decoded(s[4..]))
  }

  lemma OntoOnto(a: seq<bv8>, b: seq<bv8>, tail: Option<seq<bv8>>)
    ensures Onto(a, Onto(b, tail)) == Onto(a + b, tail)
  {
    match tail {
      case None =>
      case Some(t) => assert a + (b + t) == a + b + t;
    }
  }

  lemma OntoNothing(tail: Option<seq<bv8>>)
    ensures Onto([], tail) == tail
  {
    match tail {
      case None =>
      case Some(t) => assert [] + t == t;
    }
  }

  method Decode(s: string) returns (r: Option<seq<bv8>>)
    ensures r == Decoded(s)
  {
    hide Lookup, High, Middle, Low;
    var out: seq<bv8> := [];
    var i := 0;
    assert s[0..] == s && Onto(out, Decoded(s)) == Decoded(s) by { OntoNothing(Decoded(s)); }
    while At(s, i) != '\0'
      invariant i <= |s| && Decoded(s) == Onto(out, Decoded(s[i..]))
      decreases |s| - i
    {
      ghost var rest, before := s[i..], out;
      assert Decoded(s) == Onto(before, Decoded(rest));
      var a := Lookup(s[i]);
      i := i + 1;
      if i == |s| {
        return None;
      }
      var b := Lookup(s[i]);
      i := i + 1;
      out := out + [High(a, b)];
      if At(s, i) != '\0' && At(s, i) != '=' {
        var c := Lookup(s[i]);
        i := i + 1;
        out := out + [Middle(b, c)];
        if At(s, i) != '\0' && At(s, i) != '=' {
          var d := Lookup(s[i]);
          i := i + 1;
          out := out + [Low(c, d)];
          assert rest[4..] == s[i..];
          ghost var group := [High(a, b), Middle(b, c), Low(c, d)];
          assert Decoded(rest) == Onto(group, Decoded(s[i..]));
          OntoOnto(before, group, Decoded(s[i..]));
          assert out == before + group;
        } else {
          assert out == before + [High(a, b), Middle(b, c)];
          return Some(out);
        }
      } else {
        return Some(out);
      }
    }
    assert out + [] == out;
    return Some(out);
  }

  lemma SixBitsBack(x: bv8, y: bv8, z: bv8)
    ensures High(First(x), Second(x, y)) == x
    ensures Middle(Second(x, y), Third(y, z)) == y
    ensures Low(Third(y, z), Fourth(z)) == z
  {
  }

  lemma DecodeLetters(a: char, b: char, c: char, d: char, rest: string)
    requires '\0' !in [a, b, c, d] && '=' !in [a, b, c, d]
    ensures Decoded([a, b, c, d] + rest)
         == Onto([High(Lookup(a), Lookup(b)), Middle(Lookup(b), Lookup(c)), Low(Lookup(c), Lookup(d))], Decoded(rest))
  {
    hide Lookup, High, Middle, Low, Onto;
    var s := [a, b, c, d] + rest;
    assert s[0] == a && s[1] == b && s[2] == c && s[3] == d && s[4..] == rest;
  }

  lemma DecodeTail(s: seq<bv8>, rest: string)
    requires 0 < |s| < 3 && (rest == "" || rest[0] == '=')
    ensures Decoded(Bare(s) + rest) == Some(s)
  {
    hide Letter, Lookup, First, Second, Third, Fourth, High, Middle, Low;
    LettersBack(s[0], if |s| > 1 then s[1] else 0, 0);
    assert s == if |s| == 1 then [s[0]] else [s[0], s[1]];
    assert |Bare(s)| == |s| + 1;
    assert rest == "" || (Bare(s) + rest)[|s| + 1] == '=';
  }

  // Decoding undoes encoding whatever stands after the letters, as long as it starts with '='
  // or is nothing at all; a whole number of groups has to end the text.
  lemma {:induction false} DecodeUndoesEncode(s: seq<bv8>, rest: string)
    requires rest == "" || (|s| % 3 != 0 && rest[0] == '=')
    ensures Decoded(Bare(s) + rest) == Some(s)
  {
    hide Letter, Lookup, First, Second, Third, Fourth, High, Middle, Low, Decoded;
    if |s| >= 3 {
      LettersBack(s[0], s[1], s[2]);
      var a, b := Letter(First(s[0])), Letter(Second(s[0], s[1]));
      var c, d := Letter(Third(s[1], s[2])), Letter(Fourth(s[2]));
      DecodeUndoesEncode(s[3..], rest);
      assert Bare(s) + rest == [a, b, c, d] + (Bare(s[3..]) + rest);
      DecodeLetters(a, b, c, d, Bare(s[3..]) + rest);
      assert s == [s[0], s[1], s[2]] + s[3..];
    } else if |s| > 0 {
      DecodeTail(s, rest);
    } else {
      DecodeNothing();
      assert Bare(s) + rest == "";
    }
  }

  lemma DecodeNothing()
    ensures Decoded("") == Some([])
  {
  }

  // Encoding x, y, z and decoding the four letters.
  lemma LettersBack(x: bv8, y: bv8, z: bv8)
    ensures First(x) < 64 && Second(x, y) < 64 && Third(y, z) < 64 && Fourth(z) < 64
    ensures forall v :: v in {First(x), Second(x, y), Third(y, z), Fourth(z)} ==>
      Lookup(Letter(v)) == v && '+' <= Letter(v) <= 'z' && Letter(v) != '='
    ensures High(First(x), Second(x, y)) == x && Middle(Second(x, y), Third(y, z)) == y
         && Low(Third(y, z), Fourth(z)) == z
  {
    hide Letter, Lookup, First, Second, Third, Fourth, High, Middle, Low;
    SixBits(x, y, z);
    SixBitsBack(x, y, z);
    forall v | v in {First(x), Second(x, y), Third(y, z), Fourth(z)}
      ensures Lookup(Letter(v)) == v && '+' <= Letter(v) <= 'z' && Letter(v) != '='
    {
      LookupInvertsLetter(v);
    }
  }
}
