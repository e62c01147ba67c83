/** util.c: salted MD5 password records "1,ssssssss,hhhhhhhhhhhhhhhhhhhhhh". */
module Passwords {
  import opened Bytes
  import opened Md5
  import opened Base64

  // The bytes of a C string.
  function BytesOf(s: string): (r: seq<Byte>)
    ensures |r| == |s|
  {
    seq(|s|, i requires 0 <= i < |s| => (s[i] as int % 256) as Byte)
  }

  // alphabet[(unsigned int) c % 64], for each of eight random bytes.
  function Salt(random: seq<Byte>): (s: string)
    ensures |s| == |random|
  {
    seq(|random|, i requires 0 <= i < |random| => Alphabet(random[i] % 64))
  }

  function SaltedDigest(salt: string, pass: string): (d: seq<bv8>)
    ensures |d| == 16
  {
    CodeOf([BytesOf(salt), BytesOf(pass)])
  }

  // It is the MD5 of both, one behind the other, for every password that is shorter than 2^32 bytes.
  lemma SaltedDigestIsMd5(salt: string, pass: string)
    requires |salt| < TWO32 && |pass| < TWO32
    ensures SaltedDigest(salt, pass) == Digest(BytesOf(salt) + BytesOf(pass))
  {
    hide Digest, CodeOf, BytesOf;
    var a, b := BytesOf(salt), BytesOf(pass);
    ShortPiecesDigest([a, b]);
    assert Joint([a, b]) == a + b by {
      var one: seq<seq<Byte>> := [a];
      assert [a, b][..1] == one && one[..0] == [];
      assert Joint(one) == a;
    }
  }

  function Record(salt: string, pass: string): string {
    "1," + salt + "," + Bare(SaltedDigest(salt, pass))
  }

  method GeneratePass(random: seq<Byte>, pass: string) returns (info: string)
    requires |random| == 8
    ensures info == Record(Salt(random), pass) && |info| == 33
  {
    hide CodeOf, Bare, BytesOf;
    var output := "1,";
    var i := 0;
    while i < 8
      invariant 0 <= i <= 8 && output == "1," + Salt(random)[..i]
    {
      output := output + [Alphabet(random[i] % 64)];
      i := i + 1;
    }
    output := output + ",";
    var hash := DigestOfBoth(BytesOf(output[2..10]), BytesOf(pass));
    assert output[2..10] == Salt(random);
    var encoded := Encode(hash);
    EncodedIsBare(hash);
    BareLength(hash);
    info := (output + encoded)[..33];
  }

  lemma BareLength(s: seq<bv8>)
    requires |s| == 16
    ensures |Bare(s)| == 22
  {
    hide Letter, First, Second, Third, Fourth;
    assert |Bare(s[15..])| == 2;
    assert s[12..][3..] == s[15..] && |Bare(s[12..])| == 6;
    assert s[9..][3..] == s[12..] && |Bare(s[9..])| == 10;
    assert s[6..][3..] == s[9..] && |Bare(s[6..])| == 14;
    assert s[3..][3..] == s[6..] && |Bare(s[3..])| == 18;
  }

  // md5_init_ctx, two calls of md5_process_bytes, md5_finish_ctx.
  method DigestOfBoth(a: seq<Byte>, b: seq<Byte>) returns (hash: seq<bv8>)
    ensures hash == CodeOf([a, b])
  {
    hide Digest, CodeOf;
    hash := DigestOfPieces([a, b]);
  }

  // Ill: the source reads past the end of the record, or compares against a hash that is not 16 bytes.
  datatype Verdict = Accepted | Refused | Ill

  method CheckPass(info: string, pass: string) returns (v: Verdict)
    ensures v == Checked(info, pass)
  {
    hide CodeOf, Decoded, BytesOf;
    if At(info, 0) != '1' || At(info, 1) != ',' {
      return Refused;
    }
    if |info| < 10 {
      return Ill;
    }
    var hash := DigestOfBoth(BytesOf(info[2..10]), BytesOf(pass));
    if At(info, 10) != ',' {
      return Refused;
    }
    var stored := Decode(info[11..]);
    if stored.None? || |stored.value| != 16 {
      return Ill;
    }
    v := if stored.value == hash then Accepted else Refused;
  }

  // A record is '1', ',', eight characters, ',' and the base64 of the digest they were salted with.
  ghost function Checked(info: string, pass: string): Verdict {
    if At(info, 0) != '1' || At(info, 1) != ',' then Refused
    else if |info| < 10 then Ill
    else if At(info, 10) != ',' then Refused
    else
      var stored := Decoded(info[11..]);
      if stored.None? || |stored.value| != 16 then Ill
      else if stored.value == SaltedDigest(info[2..10], pass) then Accepted
      else Refused
  }

  // A generated record accepts exactly the passwords whose salted digest is the recorded one;
  // the same record with its "==" put back does too.
  lemma RecordAcceptsItsDigest(salt: string, pass: string, q: string, padding: string)
    requires |salt| == 8 && (padding == "" || padding[0] == '=')
    ensures Checked(Record(salt, pass) + padding, q) ==
      if SaltedDigest(salt, q) == SaltedDigest(salt, pass) then Accepted else Refused
  {
    hide CodeOf, Decoded, Bare, BytesOf;
    var d := SaltedDigest(salt, pass);
    var info := Record(salt, pass) + padding;
    assert info[2..10] == salt && info[11..] == Bare(d) + padding;
    DecodeUndoesEncode(d, padding);
  }

  ghost predicate IsRecord(info: string, salt: string, stored: string) {
    |salt| == 8 && info == "1," + salt + "," + stored
  }

  // A password is accepted if and only if the record has that form and holds the digest salted so.
  lemma AcceptedIff(info: string, pass: string)
    ensures Checked(info, pass) == Accepted <==>
      (exists salt, stored :: IsRecord(info, salt, stored) && Decoded(stored).Some?
                              && Decoded(stored).value == CodeOf([BytesOf(salt), BytesOf(pass)]))
  {
    hide CodeOf, Decoded, BytesOf;
    if Checked(info, pass) == Accepted {
      assert info == "1," + info[2..10] + "," + info[11..];
      assert IsRecord(info, info[2..10], info[11..]);
    }
    forall salt, stored | IsRecord(info, salt, stored)
      ensures At(info, 0) == '1' && At(info, 1) == ',' && At(info, 10) == ',' && info[2..10] == salt && info[11..] == stored
    {
    }
  }

  // Whoever sets a password can log in with it.
  method SetThenCheck(random: seq<Byte>, pass: string) returns (v: Verdict)
    requires |random| == 8
    ensures v == Accepted
  {
    hide Record, Checked, SaltedDigest;
    var info := GeneratePass(random, pass);
    RecordAcceptsItsDigest(Salt(random), pass, pass, "");
    assert Record(Salt(random), pass) + "" == Record(Salt(random), pass);
    v := CheckPass(info, pass);
  }
}
