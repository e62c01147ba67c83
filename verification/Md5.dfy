/** md5.c: the MD5 message digest fed piece by piece, checked against the one-shot
    definition of RFC 1321. */
module Md5 {
  import opened Bytes

  type Word = bv32

  // --- RFC 1321, section 3.4: one block ---------------------------------------------

  datatype Quad = Quad(a: Word, b: Word, c: Word, d: Word)

  function F(x: Word, y: Word, z: Word): Word { (x & y) | (!x & z) }
  function G(x: Word, y: Word, z: Word): Word { (x & z) | (y & !z) }
  function H(x: Word, y: Word, z: Word): Word { x ^ y ^ z }
  function I(x: Word, y: Word, z: Word): Word { y ^ (x | !z) }

  function Rotated(w: Word, s: nat): Word
    requires 0 < s < 32
  {
    (w << s) | (w >> (32 - s))
  }

  // Which word of the block step i uses, how far it rotates, which function it applies.
  function WordIndex(i: nat): (k: nat)
    requires i < 64
    ensures k < 16
  {
    if i < 16 then i
    else if i < 32 then (5 * i + 1) % 16
    else if i < 48 then (3 * i + 5) % 16
    else 7 * i % 16
  }

  function Shift(i: nat): (s: nat)
    requires i < 64
    ensures 0 < s < 32
  {
    var j := i % 4;
    if i < 16 then (if j == 0 then 7 else if j == 1 then 12 else if j == 2 then 17 else 22)
    else if i < 32 then (if j == 0 then 5 else if j == 1 then 9 else if j == 2 then 14 else 20)
    else if i < 48 then (if j == 0 then 4 else if j == 1 then 11 else if j == 2 then 16 else 23)
    else (if j == 0 then 6 else if j == 1 then 10 else if j == 2 then 15 else 21)
  }

  function Fn(i: nat, x: Word, y: Word, z: Word): Word {
    if i < 16 then F(x, y, z) else if i < 32 then G(x, y, z) else if i < 48 then H(x, y, z) else I(x, y, z)
  }

  // T[i + 1] of the RFC, the integer part of 4294967296 times abs(sin(i + 1)).
  function Sine(i: nat): Word
    requires i < 64
  {
    if i < 16 then
      if i == 0 then 0xd76aa478
      else if i == 1 then 0xe8c7b756
      else if i == 2 then 0x242070db
      else if i == 3 then 0xc1bdceee
      else if i == 4 then 0xf57c0faf
      else if i == 5 then 0x4787c62a
      else if i == 6 then 0xa8304613
      else if i == 7 then 0xfd469501
      else if i == 8 then 0x698098d8
      else if i == 9 then 0x8b44f7af
      else if i == 10 then 0xffff5bb1
      else if i == 11 then 0x895cd7be
      else if i == 12 then 0x6b901122
      else if i == 13 then 0xfd987193
      else if i == 14 then 0xa679438e
      else 0x49b40821
    else if i < 32 then
      if i == 16 then 0xf61e2562
      else if i == 17 then 0xc040b340
      else if i == 18 then 0x265e5a51
      else if i == 19 then 0xe9b6c7aa
      else if i == 20 then 0xd62f105d
      else if i == 21 then 0x02441453
      else if i == 22 then 0xd8a1e681
      else if i == 23 then 0xe7d3fbc8
      else if i == 24 then 0x21e1cde6
      else if i == 25 then 0xc33707d6
      else if i == 26 then 0xf4d50d87
      else if i == 27 then 0x455a14ed
      else if i == 28 then 0xa9e3e905
      else if i == 29 then 0xfcefa3f8
      else if i == 30 then 0x676f02d9
      else 0x8d2a4c8a
    else if i < 48 then
      if i == 32 then 0xfffa3942
      else if i == 33 then 0x8771f681
      else if i == 34 then 0x6d9d6122
      else if i == 35 then 0xfde5380c
      else if i == 36 then 0xa4beea44
      else if i == 37 then 0x4bdecfa9
      else if i == 38 then 0xf6bb4b60
      else if i == 39 then 0xbebfbc70
      else if i == 40 then 0x289b7ec6
      else if i == 41 then 0xeaa127fa
      else if i == 42 then 0xd4ef3085
      else if i == 43 then 0x04881d05
      else if i == 44 then 0xd9d4d039
      else if i == 45 then 0xe6db99e5
      else if i == 46 then 0x1fa27cf8
      else 0xc4ac5665
    else
      if i == 48 then 0xf4292244
      else if i == 49 then 0x432aff97
      else if i == 50 then 0xab9423a7
      else if i == 51 then 0xfc93a039
      else if i == 52 then 0x655b59c3
      else if i == 53 then 0x8f0ccc92
      else if i == 54 then 0xffeff47d
      else if i == 55 then 0x85845dd1
      else if i == 56 then 0x6fa87e4f
      else if i == 57 then 0xfe2ce6e0
      else if i == 58 then 0xa3014314
      else if i == 59 then 0x4e0811a1
      else if i == 60 then 0xf7537e82
      else if i == 61 then 0xbd3af235
      else if i == 62 then 0x2ad7d2bb
      else 0xeb86d391
  }

  // [abcd k s i]: a = b + ((a + Fn(b,c,d) + X[k] + T[i]) <<< s), then the roles move on.
  function Mixed(a: Word, f: Word, x: Word, t: Word, s: nat, b: Word): Word
    requires 0 < s < 32
  {
    b + Rotated(a + f + x + t, s)
  }

  function Step(q: Quad, x: seq<Word>, i: nat): Quad
    requires |x| == 16 && i < 64
  {
    Quad(q.d, Mixed(q.a, Fn(i, q.b, q.c, q.d), x[WordIndex(i)], Sine(i), Shift(i), q.b), q.b, q.c)
  }

  function Steps(q: Quad, x: seq<Word>, n: nat): Quad
    requires |x| == 16 && n <= 64
  {
    if n == 0 then q else Step(Steps(q, x, n - 1), x, n - 1)
  }

  function Plus(v: Word, w: Word): Word { v + w }

  function Compressed(q: Quad, x: seq<Word>): Quad
    requires |x| == 16
  {
    var r := Steps(q, x, 64);
    Quad(Plus(r.a, q.a), Plus(r.b, q.b), Plus(r.c, q.c), Plus(r.d, q.d))
  }


  // --- The optimised functions and the unrolled steps of the source --------------------

  function FF(b: Word, c: Word, d: Word): Word { d ^ (b & (c ^ d)) }
  function FG(b: Word, c: Word, d: Word): Word { FF(d, b, c) }
  function FH(b: Word, c: Word, d: Word): Word { b ^ c ^ d }
  function FI(b: Word, c: Word, d: Word): Word { c ^ (b | !d) }

  lemma Selected(b: bv32, c: bv32, d: bv32)
    ensures d ^ (b & (c ^ d)) == (b & c) | (!b & d)
    ensures (b & d) | (c & !d) == c ^ (d & (b ^ c))
  {
  }

  // One OP of the source: a += f + word + T; CYCLIC (a, s); a += b.
  function Operated(f: Word, a: Word, b: Word, w: Word, s: nat, t: Word): Word
    requires 0 < s < 32
  {
    Rotated(a + (f + w + t), s) + b
  }

  lemma OperatedIsMixed(f: Word, a: Word, b: Word, w: Word, s: nat, t: Word)
    requires 0 < s < 32
    ensures Operated(f, a, b, w, s, t) == Mixed(a, f, w, t, s, b)
  {
    hide Rotated;
  }

  // What step i of section 3.4 asks for: its word, its rotation and its constant.
  predicate Row(i: nat, k: nat, s: nat, t: Word) {
    i < 64 && k == WordIndex(i) && s == Shift(i) && t == Sine(i)
  }

  method Op(f: Word, a: Word, b: Word, c: Word, d: Word, x: seq<Word>, k: nat, s: nat, t: Word,
            ghost q: Quad, ghost i: nat)
    returns (r: Word)
    requires |x| == 16 && Row(i, k, s, t) && Quad(a, b, c, d) == Steps(q, x, i) && f == Fn(i, b, c, d)
    ensures Steps(q, x, i + 1) == Quad(d, r, b, c)
  {
    hide Sine, Shift, WordIndex, Fn, Operated, Mixed;
    OperatedIsMixed(f, a, b, x[k], s, t);
    r := Operated(f, a, b, x[k], s, t);
  }


  lemma Round1Function()
    ensures forall i: nat, b, c, d :: i < 16 ==> Fn(i, b, c, d) == FF(b, c, d)
  {
    forall i: nat, b, c, d | i < 16 ensures Fn(i, b, c, d) == FF(b, c, d) {
      Selected(b, c, d);
    }
  }

  lemma Round2Function()
    ensures forall i: nat, b, c, d :: 16 <= i < 32 ==> Fn(i, b, c, d) == FG(b, c, d)
  {
    forall i: nat, b, c, d | 16 <= i < 32 ensures Fn(i, b, c, d) == FG(b, c, d) {
      Selected(b, c, d);
    }
  }

  lemma Round3Function()
    ensures forall i: nat, b, c, d :: 32 <= i < 48 ==> Fn(i, b, c, d) == FH(b, c, d)
  {
    forall i: nat, b, c, d | 32 <= i < 48 ensures Fn(i, b, c, d) == FH(b, c, d) {
    }
  }

  lemma Round4Function()
    ensures forall i: nat, b, c, d :: 48 <= i < 64 ==> Fn(i, b, c, d) == FI(b, c, d)
  {
    forall i: nat, b, c, d | 48 <= i < 64 ensures Fn(i, b, c, d) == FI(b, c, d) {
    }
  }

  lemma Round1Rows()
    ensures Row(0, 0, 7, 0xd76aa478) && Row(1, 1, 12, 0xe8c7b756) && Row(2, 2, 17, 0x242070db) && Row(3, 3, 22, 0xc1bdceee)
    ensures Row(4, 4, 7, 0xf57c0faf) && Row(5, 5, 12, 0x4787c62a) && Row(6, 6, 17, 0xa8304613) && Row(7, 7, 22, 0xfd469501)
    ensures Row(8, 8, 7, 0x698098d8) && Row(9, 9, 12, 0x8b44f7af) && Row(10, 10, 17, 0xffff5bb1) && Row(11, 11, 22, 0x895cd7be)
    ensures Row(12, 12, 7, 0x6b901122) && Row(13, 13, 12, 0xfd987193) && Row(14, 14, 17, 0xa679438e) && Row(15, 15, 22, 0x49b40821)
  {
  }

  lemma Round2Rows()
    ensures Row(16, 1, 5, 0xf61e2562) && Row(17, 6, 9, 0xc040b340) && Row(18, 11, 14, 0x265e5a51) && Row(19, 0, 20, 0xe9b6c7aa)
    ensures Row(20, 5, 5, 0xd62f105d) && Row(21, 10, 9, 0x02441453) && Row(22, 15, 14, 0xd8a1e681) && Row(23, 4, 20, 0xe7d3fbc8)
    ensures Row(24, 9, 5, 0x21e1cde6) && Row(25, 14, 9, 0xc33707d6) && Row(26, 3, 14, 0xf4d50d87) && Row(27, 8, 20, 0x455a14ed)
    ensures Row(28, 13, 5, 0xa9e3e905) && Row(29, 2, 9, 0xfcefa3f8) && Row(30, 7, 14, 0x676f02d9) && Row(31, 12, 20, 0x8d2a4c8a)
  {
  }

  lemma Round3Rows()
    ensures Row(32, 5, 4, 0xfffa3942) && Row(33, 8, 11, 0x8771f681) && Row(34, 11, 16, 0x6d9d6122) && Row(35, 14, 23, 0xfde5380c)
    ensures Row(36, 1, 4, 0xa4beea44) && Row(37, 4, 11, 0x4bdecfa9) && Row(38, 7, 16, 0xf6bb4b60) && Row(39, 10, 23, 0xbebfbc70)
    ensures Row(40, 13, 4, 0x289b7ec6) && Row(41, 0, 11, 0xeaa127fa) && Row(42, 3, 16, 0xd4ef3085) && Row(43, 6, 23, 0x04881d05)
    ensures Row(44, 9, 4, 0xd9d4d039) && Row(45, 12, 11, 0xe6db99e5) && Row(46, 15, 16, 0x1fa27cf8) && Row(47, 2, 23, 0xc4ac5665)
  {
  }

  lemma Round4Rows()
    ensures Row(48, 0, 6, 0xf4292244) && Row(49, 7, 10, 0x432aff97) && Row(50, 14, 15, 0xab9423a7) && Row(51, 5, 21, 0xfc93a039)
    ensures Row(52, 12, 6, 0x655b59c3) && Row(53, 3, 10, 0x8f0ccc92) && Row(54, 10, 15, 0xffeff47d) && Row(55, 1, 21, 0x85845dd1)
    ensures Row(56, 8, 6, 0x6fa87e4f) && Row(57, 15, 10, 0xfe2ce6e0) && Row(58, 6, 15, 0xa3014314) && Row(59, 13, 21, 0x4e0811a1)
    ensures Row(60, 4, 6, 0xf7537e82) && Row(61, 11, 10, 0xbd3af235) && Row(62, 2, 15, 0x2ad7d2bb) && Row(63, 9, 21, 0xeb86d391)
  {
  }


  method Round1(A0: Word, B0: Word, C0: Word, D0: Word, x: seq<Word>, ghost q: Quad)
    returns (A: Word, B: Word, C: Word, D: Word)
    requires |x| == 16 && Quad(A0, B0, C0, D0) == Steps(q, x, 0)
    ensures Quad(A, B, C, D) == Steps(q, x, 16)
  {
    hide F, G, H, I, FF, FG, FH, FI, Row, Steps;
    Round1Rows();
    Round1Function();
    A, B, C, D := A0, B0, C0, D0;
    A := Op(FF(B, C, D), A, B, C, D, x, 0, 7, 0xd76aa478, q, 0);
    D := Op(FF(A, B, C), D, A, B, C, x, 1, 12, 0xe8c7b756, q, 1);
    C := Op(FF(D, A, B), C, D, A, B, x, 2, 17, 0x242070db, q, 2);
    B := Op(FF(C, D, A), B, C, D, A, x, 3, 22, 0xc1bdceee, q, 3);
    A := Op(FF(B, C, D), A, B, C, D, x, 4, 7, 0xf57c0faf, q, 4);
    D := Op(FF(A, B, C), D, A, B, C, x, 5, 12, 0x4787c62a, q, 5);
    C := Op(FF(D, A, B), C, D, A, B, x, 6, 17, 0xa8304613, q, 6);
    B := Op(FF(C, D, A), B, C, D, A, x, 7, 22, 0xfd469501, q, 7);
    A := Op(FF(B, C, D), A, B, C, D, x, 8, 7, 0x698098d8, q, 8);
    D := Op(FF(A, B, C), D, A, B, C, x, 9, 12, 0x8b44f7af, q, 9);
    C := Op(FF(D, A, B), C, D, A, B, x, 10, 17, 0xffff5bb1, q, 10);
    B := Op(FF(C, D, A), B, C, D, A, x, 11, 22, 0x895cd7be, q, 11);
    A := Op(FF(B, C, D), A, B, C, D, x, 12, 7, 0x6b901122, q, 12);
    D := Op(FF(A, B, C), D, A, B, C, x, 13, 12, 0xfd987193, q, 13);
    C := Op(FF(D, A, B), C, D, A, B, x, 14, 17, 0xa679438e, q, 14);
    B := Op(FF(C, D, A), B, C, D, A, x, 15, 22, 0x49b40821, q, 15);
  }

  method Round2(A0: Word, B0: Word, C0: Word, D0: Word, x: seq<Word>, ghost q: Quad)
    returns (A: Word, B: Word, C: Word, D: Word)
    requires |x| == 16 && Quad(A0, B0, C0, D0) == Steps(q, x, 16)
    ensures Quad(A, B, C, D) == Steps(q, x, 32)
  {
    hide F, G, H, I, FF, FG, FH, FI, Row, Steps;
    Round2Rows();
    Round2Function();
    A, B, C, D := A0, B0, C0, D0;
    A := Op(FG(B, C, D), A, B, C, D, x, 1, 5, 0xf61e2562, q, 16);
    D := Op(FG(A, B, C), D, A, B, C, x, 6, 9, 0xc040b340, q, 17);
    C := Op(FG(D, A, B), C, D, A, B, x, 11, 14, 0x265e5a51, q, 18);
    B := Op(FG(C, D, A), B, C, D, A, x, 0, 20, 0xe9b6c7aa, q, 19);
    A := Op(FG(B, C, D), A, B, C, D, x, 5, 5, 0xd62f105d, q, 20);
    D := Op(FG(A, B, C), D, A, B, C, x, 10, 9, 0x02441453, q, 21);
    C := Op(FG(D, A, B), C, D, A, B, x, 15, 14, 0xd8a1e681, q, 22);
    B := Op(FG(C, D, A), B, C, D, A, x, 4, 20, 0xe7d3fbc8, q, 23);
    A := Op(FG(B, C, D), A, B, C, D, x, 9, 5, 0x21e1cde6, q, 24);
    D := Op(FG(A, B, C), D, A, B, C, x, 14, 9, 0xc33707d6, q, 25);
    C := Op(FG(D, A, B), C, D, A, B, x, 3, 14, 0xf4d50d87, q, 26);
    B := Op(FG(C, D, A), B, C, D, A, x, 8, 20, 0x455a14ed, q, 27);
    A := Op(FG(B, C, D), A, B, C, D, x, 13, 5, 0xa9e3e905, q, 28);
    D := Op(FG(A, B, C), D, A, B, C, x, 2, 9, 0xfcefa3f8, q, 29);
    C := Op(FG(D, A, B), C, D, A, B, x, 7, 14, 0x676f02d9, q, 30);
    B := Op(FG(C, D, A), B, C, D, A, x, 12, 20, 0x8d2a4c8a, q, 31);
  }

  method Round3(A0: Word, B0: Word, C0: Word, D0: Word, x: seq<Word>, ghost q: Quad)
    returns (A: Word, B: Word, C: Word, D: Word)
    requires |x| == 16 && Quad(A0, B0, C0, D0) == Steps(q, x, 32)
    ensures Quad(A, B, C, D) == Steps(q, x, 48)
  {
    hide F, G, H, I, FF, FG, FH, FI, Row, Steps;
    Round3Rows();
    Round3Function();
    A, B, C, D := A0, B0, C0, D0;
    A := Op(FH(B, C, D), A, B, C, D, x, 5, 4, 0xfffa3942, q, 32);
    D := Op(FH(A, B, C), D, A, B, C, x, 8, 11, 0x8771f681, q, 33);
    C := Op(FH(D, A, B), C, D, A, B, x, 11, 16, 0x6d9d6122, q, 34);
    B := Op(FH(C, D, A), B, C, D, A, x, 14, 23, 0xfde5380c, q, 35);
    A := Op(FH(B, C, D), A, B, C, D, x, 1, 4, 0xa4beea44, q, 36);
    D := Op(FH(A, B, C), D, A, B, C, x, 4, 11, 0x4bdecfa9, q, 37);
    C := Op(FH(D, A, B), C, D, A, B, x, 7, 16, 0xf6bb4b60, q, 38);
    B := Op(FH(C, D, A), B, C, D, A, x, 10, 23, 0xbebfbc70, q, 39);
    A := Op(FH(B, C, D), A, B, C, D, x, 13, 4, 0x289b7ec6, q, 40);
    D := Op(FH(A, B, C), D, A, B, C, x, 0, 11, 0xeaa127fa, q, 41);
    C := Op(FH(D, A, B), C, D, A, B, x, 3, 16, 0xd4ef3085, q, 42);
    B := Op(FH(C, D, A), B, C, D, A, x, 6, 23, 0x04881d05, q, 43);
    A := Op(FH(B, C, D), A, B, C, D, x, 9, 4, 0xd9d4d039, q, 44);
    D := Op(FH(A, B, C), D, A, B, C, x, 12, 11, 0xe6db99e5, q, 45);
    C := Op(FH(D, A, B), C, D, A, B, x, 15, 16, 0x1fa27cf8, q, 46);
    B := Op(FH(C, D, A), B, C, D, A, x, 2, 23, 0xc4ac5665, q, 47);
  }

  method Round4(A0: Word, B0: Word, C0: Word, D0: Word, x: seq<Word>, ghost q: Quad)
    returns (A: Word, B: Word, C: Word, D: Word)
    requires |x| == 16 && Quad(A0, B0, C0, D0) == Steps(q, x, 48)
    ensures Quad(A, B, C, D) == Steps(q, x, 64)
  {
    hide F, G, H, I, FF, FG, FH, FI, Row, Steps;
    Round4Rows();
    Round4Function();
    A, B, C, D := A0, B0, C0, D0;
    A := Op(FI(B, C, D), A, B, C, D, x, 0, 6, 0xf4292244, q, 48);
    D := Op(FI(A, B, C), D, A, B, C, x, 7, 10, 0x432aff97, q, 49);
    C := Op(FI(D, A, B), C, D, A, B, x, 14, 15, 0xab9423a7, q, 50);
    B := Op(FI(C, D, A), B, C, D, A, x, 5, 21, 0xfc93a039, q, 51);
    A := Op(FI(B, C, D), A, B, C, D, x, 12, 6, 0x655b59c3, q, 52);
    D := Op(FI(A, B, C), D, A, B, C, x, 3, 10, 0x8f0ccc92, q, 53);
    C := Op(FI(D, A, B), C, D, A, B, x, 10, 15, 0xffeff47d, q, 54);
    B := Op(FI(C, D, A), B, C, D, A, x, 1, 21, 0x85845dd1, q, 55);
    A := Op(FI(B, C, D), A, B, C, D, x, 8, 6, 0x6fa87e4f, q, 56);
    D := Op(FI(A, B, C), D, A, B, C, x, 15, 10, 0xfe2ce6e0, q, 57);
    C := Op(FI(D, A, B), C, D, A, B, x, 6, 15, 0xa3014314, q, 58);
    B := Op(FI(C, D, A), B, C, D, A, x, 13, 21, 0x4e0811a1, q, 59);
    A := Op(FI(B, C, D), A, B, C, D, x, 4, 6, 0xf7537e82, q, 60);
    D := Op(FI(A, B, C), D, A, B, C, x, 11, 10, 0xbd3af235, q, 61);
    C := Op(FI(D, A, B), C, D, A, B, x, 2, 15, 0x2ad7d2bb, q, 62);
    B := Op(FI(C, D, A), B, C, D, A, x, 9, 21, 0xeb86d391, q, 63);
  }

  // One turn of the block loop.
  method Absorb(A0: Word, B0: Word, C0: Word, D0: Word, x: seq<Word>)
    returns (A: Word, B: Word, C: Word, D: Word)
    requires |x| == 16
    ensures Quad(A, B, C, D) == Compressed(Quad(A0, B0, C0, D0), x)
  {
    hide Step, Plus;
    ghost var q := Quad(A0, B0, C0, D0);
    A, B, C, D := Round1(A0, B0, C0, D0, x, q);
    A, B, C, D := Round2(A, B, C, D, x, q);
    A, B, C, D := Round3(A, B, C, D, x, q);
    A, B, C, D := Round4(A, B, C, D, x, q);
    A, B, C, D := Plus(A, A0), Plus(B, B0), Plus(C, C0), Plus(D, D0);
  }

  // --- Sections 3.1 to 3.4 of RFC 1321: a whole message --------------------------------

  function WordAt(m: seq<Byte>, i: nat): Word
    requires i + 4 <= |m|
  {
    (m[i] as int + 0x100 * m[i + 1] as int + 0x1_0000 * m[i + 2] as int + 0x100_0000 * m[i + 3] as int) as Word
  }

  function Words(block: seq<Byte>): (x: seq<Word>)
    requires |block| == 64
    ensures |x| == 16
  {
    seq(16, i requires 0 <= i < 16 => WordAt(block, 4 * i))
  }

  function Start(): Quad {
    Quad(0x67452301, 0xefcdab89, 0x98badcfe, 0x10325476)
  }

  function Blocks(q: Quad, m: seq<Byte>): Quad
    requires |m| % 64 == 0
  {
    if |m| == 0 then q else Compressed(Blocks(q, m[..|m| - 64]), Words(m[|m| - 64..]))
  }

  function Zeros(n: nat): seq<Byte> {
    seq(n, i => 0)
  }

  // As few zero bytes as reach 56 modulo 64, then the length in bits.
  function Padded(m: seq<Byte>): (p: seq<Byte>)
    ensures |p| % 64 == 0 && |m| + 9 <= |p| < |m| + 9 + 64 && m <= p
  {
    m + [0x80] + Zeros((55 - |m|) % 64) + LittleEndian(8 * |m|, 8)
  }

  // SWAP (w) in memory: the low-order byte first.
  function Octets(w: Word): (s: seq<bv8>)
    ensures |s| == 4
  {
    [(w & 0xff) as bv8, ((w >> 8) & 0xff) as bv8, ((w >> 16) & 0xff) as bv8, ((w >> 24) & 0xff) as bv8]
  }

  // md5_read_ctx
  function Serialized(q: Quad): (s: seq<bv8>)
    ensures |s| == 16
  {
    Octets(q.a) + Octets(q.b) + Octets(q.c) + Octets(q.d)
  }

  function Digest(m: seq<Byte>): (d: seq<bv8>)
    ensures |d| == 16
  {
    Serialized(Blocks(Start(), Padded(m)))
  }

  // --- Arithmetic of the split 64-bit byte count ---------------------------------------

  const TWO29: int := 0x2000_0000
  const TWO32: int := 0x1_0000_0000
  const TWO64: int := 0x1_0000_0000_0000_0000

  // total[0] += len; if (total[0] < len) ++total[1];
  function Counted(t: (nat, nat), len: nat): (u: (nat, nat))
    ensures u.0 < TWO32 && u.1 < TWO32
  {
    var low := (t.0 + len) % TWO32;
    (low, if low < len then (t.1 + 1) % TWO32 else t.1 % TWO32)
  }

  function Value(t: (nat, nat)): nat { t.0 + TWO32 * t.1 }

  // The carry test is right for lengths below 2^32 and, past that, only while one carry is due.
  lemma CarryIsExact(t: (nat, nat), len: nat)
    requires t.0 < TWO32 && t.1 < TWO32
    ensures Value(Counted(t, len)) == (Value(t) + len) % TWO64
        <==> len < TWO32 || (t.0 + len) / TWO32 % TWO32 == 1
  {
    var carries := (t.0 + len) / TWO32;
    var low := (t.0 + len) % TWO32;
    WordsSplit(t.1 + carries, low);
    assert Value(t) + len == low + TWO32 * (t.1 + carries);
    WordsSplit(t.1 + 1, low);
    WordsSplit(t.1, low);
    if len < TWO32 {
      assert carries == 0 || carries == 1;
    } else {
      assert low < len;
      SameResidue(t.1, carries);
    }
  }

  // Eight gibibytes in one piece are counted as four.
  lemma TwoCarries()
    ensures Counted((0, 0), 2 * TWO32) == (0, 1) && Value((0, 1)) == TWO32
  {
    assert 2 * TWO32 % TWO32 == 0;
  }

  lemma SameResidue(h: nat, c: nat)
    ensures (h + c) % TWO32 == (h + 1) % TWO32 <==> c % TWO32 == 1
  {
  }

  lemma WordsSplit(high: nat, low: nat)
    requires low < TWO32
    ensures (low + TWO32 * high) % TWO64 == low + TWO32 * (high % TWO32)
  {
    assert high == TWO32 * (high / TWO32) + high % TWO32;
    assert low + TWO32 * high == TWO64 * (high / TWO32) + (low + TWO32 * (high % TWO32));
  }

  // The carries beyond the one that is counted.
  function Forgotten(t: (nat, nat), len: nat): (f: nat)
    ensures len < TWO32 && t.0 < TWO32 ==> f == 0
  {
    var low, carries := (t.0 + len) % TWO32, (t.0 + len) / TWO32;
    carries - (if low < len then 1 else 0)
  }

  // The pair, with what it has forgotten put back, counts n bytes modulo 2^64.
  predicate Accounts(t: (nat, nat), lost: nat, n: int) {
    (Value(t) + TWO32 * lost) % TWO64 == n % TWO64
  }

  lemma CountedForgets(t: (nat, nat), len: nat)
    requires t.0 < TWO32 && t.1 < TWO32
    ensures (Value(Counted(t, len)) + TWO32 * Forgotten(t, len)) % TWO64 == (Value(t) + len) % TWO64
  {
    var low, carries := (t.0 + len) % TWO32, (t.0 + len) / TWO32;
    var added := if low < len then 1 else 0;
    LowAndHigh(t, len);
    WordsSplit(t.1 + carries, low);
    WordsSplit((t.1 + added) % TWO32 + Forgotten(t, len), low);
    SameHigh(t.1 + added, carries - added);
  }

  lemma LowAndHigh(t: (nat, nat), len: nat)
    ensures Value(t) + len == (t.0 + len) % TWO32 + TWO32 * (t.1 + (t.0 + len) / TWO32)
  {
  }

  lemma SameHigh(h: nat, f: nat)
    ensures (h % TWO32 + f) % TWO32 == (h + f) % TWO32
  {
  }

  lemma AccountsOn(t: (nat, nat), lost: nat, n: nat, len: nat)
    requires t.0 < TWO32 && t.1 < TWO32 && Accounts(t, lost, n)
    ensures Accounts(Counted(t, len), lost + Forgotten(t, len), n + len)
  {
    hide Counted, Forgotten;
    var v := Value(Counted(t, len)) + TWO32 * Forgotten(t, len);
    CountedForgets(t, len);
    SameSum(v, Value(t) + len, TWO32 * lost);
    SameSum(Value(t) + TWO32 * lost, n, len);
    assert TWO32 * (lost + Forgotten(t, len)) == TWO32 * lost + TWO32 * Forgotten(t, len);
  }

  lemma SameSum(v: nat, w: nat, more: nat)
    requires v % TWO64 == w % TWO64
    ensures (v + more) % TWO64 == (w + more) % TWO64
  {
    assert v == TWO64 * (v / TWO64) + v % TWO64 && w == TWO64 * (w / TWO64) + w % TWO64;
    DropsMultiple(v / TWO64, v % TWO64 + more);
    DropsMultiple(w / TWO64, w % TWO64 + more);
  }

  // SWAP (total[0] << 3) and SWAP ((total[1] << 3) | (total[0] >> 29)), the or of words without
  // a common bit being their sum.
  function LowBits(t: (nat, nat)): nat { t.0 * 8 % TWO32 }
  function HighBits(t: (nat, nat)): nat { t.1 * 8 % TWO32 + t.0 / TWO29 }

  lemma HighIs(h: nat, top: nat)
    requires top < 8
    ensures (8 * h + top) % TWO32 == h * 8 % TWO32 + top
  {
    var r := h % 0x2000_0000;
    assert 8 * h + top == TWO32 * (h / 0x2000_0000) + (8 * r + top);
    assert 8 * r + top < TWO32;
  }

  // The length in bits that goes into the padding is right, modulo 2^64, exactly when the number of
  // forgotten carries is a multiple of 2^29.
  lemma LengthInBits(t: (nat, nat), lost: nat, n: nat)
    requires t.0 < TWO32 && t.1 < TWO32 && Accounts(t, lost, n)
    ensures LowBits(t) + TWO32 * HighBits(t) == 8 * n % TWO64 <==> lost % TWO29 == 0
  {
    hide LowBits, HighBits, Value;
    var v := Value(t);
    LengthWord(t);
    SameAfterWrap(v + TWO32 * lost, n);
    ForgottenBits(v, lost);
    ResidueMoves(8 * v, 8 * TWO32 * (lost % TWO29));
  }

  lemma ForgottenBits(v: nat, lost: nat)
    ensures 8 * (v + TWO32 * lost) % TWO64 == (8 * v + 8 * TWO32 * (lost % TWO29)) % TWO64
    ensures 8 * TWO32 * (lost % TWO29) < TWO64
  {
    var q, r := lost / TWO29, lost % TWO29;
    assert 8 * (v + TWO32 * lost) == TWO64 * q + (8 * v + 8 * TWO32 * r);
    DropsMultiple(q, 8 * v + 8 * TWO32 * r);
  }

  lemma DropsMultiple(q: nat, r: nat)
    ensures (TWO64 * q + r) % TWO64 == r % TWO64
  {
  }

  lemma ResidueMoves(v: nat, d: nat)
    requires d < TWO64
    ensures (v + d) % TWO64 == v % TWO64 <==> d == 0
  {
  }

  lemma LengthBytes(t: (nat, nat), lost: nat, n: nat)
    requires t.0 < TWO32 && t.1 < TWO32 && Accounts(t, lost, n) && lost % TWO29 == 0
    ensures LittleEndian(LowBits(t), 4) + LittleEndian(HighBits(t), 4) == LittleEndian(8 * n, 8)
  {
    hide LittleEndian, LowBits, Accounts;
    LengthInBits(t, lost, n);
    assert LowBits(t) < TWO32 by { LowFits(t); }
    assert Power(4) == TWO32 && Power(8) == TWO64 by { Powers(); }
    LittleEndianOfSum(LowBits(t), HighBits(t), 4, 4);
    LittleEndianWraps(8 * n, 8);
  }

  lemma LowFits(t: (nat, nat))
    ensures LowBits(t) < TWO32
  {
  }

  lemma LowIs(l: nat)
    ensures l * 8 % TWO32 + TWO32 * (l / 0x2000_0000) == 8 * l
  {
    var r := l % 0x2000_0000;
    assert 8 * l == TWO32 * (l / 0x2000_0000) + 8 * r;
  }

  lemma SameAfterWrap(v: nat, n: nat)
    requires v % TWO64 == n % TWO64
    ensures 8 * v % TWO64 == 8 * n % TWO64
  {
    EightTimes(v);
    EightTimes(n);
  }

  lemma EightTimes(v: nat)
    ensures 8 * v % TWO64 == 8 * (v % TWO64) % TWO64
  {
    var q, r := v / TWO64, v % TWO64;
    assert 8 * v == TWO64 * (8 * q) + 8 * r;
    DropsMultiple(8 * q, 8 * r);
  }

  lemma LengthWord(t: (nat, nat))
    requires t.0 < TWO32 && t.1 < TWO32
    ensures 8 * Value(t) % TWO64 == LowBits(t) + TWO32 * HighBits(t)
  {
    var top, low := t.0 / TWO29, LowBits(t);
    LowIs(t.0);
    HighIs(t.1, top);
    WordsSplit(8 * t.1 + top, low);
    assert 8 * Value(t) == low + TWO32 * (8 * t.1 + top);
  }

  function Power(k: nat): (p: nat)
    ensures p > 0
  {
    if k == 0 then 1 else 256 * Power(k - 1)
  }

  lemma Powers()
    ensures Power(4) == TWO32 && Power(8) == TWO64
  {
    assert Power(2) == 0x1_0000;
    assert Power(4) == TWO32;
    assert Power(6) == 0x1_0000_0000_0000;
  }

  lemma {:induction false} LittleEndianOfSum(low: nat, high: nat, j: nat, k: nat)
    requires low < Power(j)
    ensures LittleEndian(low, j) + LittleEndian(high, k) == LittleEndian(low + Power(j) * high, j + k)
  {
    if j > 0 {
      var p := Power(j - 1);
      var z := p * high;
      assert Power(j) * high == 256 * z;
      assert (low + 256 * z) % 256 == low % 256 && (low + 256 * z) / 256 == low / 256 + z;
      LittleEndianOfSum(low / 256, high, j - 1, k);
    }
  }

  lemma {:induction false} LittleEndianWraps(n: nat, k: nat)
    ensures LittleEndian(n, k) == LittleEndian(n % Power(k), k)
  {
    if k > 0 {
      var p := Power(k - 1);
      var r := n % (256 * p);
      ResidueDigits(n, p);
      LittleEndianWraps(n / 256, k - 1);
    }
  }

  lemma ResidueDigits(n: nat, p: nat)
    requires p > 0
    ensures n % (256 * p) % 256 == n % 256 && n % (256 * p) / 256 == n / 256 % p
  {
    var m, d := n / 256, n % 256;
    var h, l := m / p, m % p;
    assert n == 256 * p * h + (256 * l + d);
    assert 256 * l + d < 256 * p;
    QuotientIs(n, 256 * p, h, 256 * l + d);
  }

  lemma AtLeast(d: int, k: int)
    requires k >= 1 && d >= 0
    ensures d * k >= d
  {
  }

  lemma Small(d: int, k: int, z: int)
    requires d * k == z && -d < z < d
    ensures k == 0 && z == 0
  {
    var e: int := -k;
    if k >= 1 {
      AtLeast(d, k);
    } else if k <= -1 {
      AtLeast(d, e);
    }
  }

  lemma QuotientIs(n: nat, d: nat, q: nat, r: nat)
    requires r < d && n == d * q + r
    ensures n % d == r && n / d == q
  {
    var p, s := n / d, n % d;
    assert n == d * p + s;
    assert d * (p - q) == r - s;
    Small(d, p - q, r - s);
  }

  lemma {:induction false} BlocksAppend(q: Quad, a: seq<Byte>, b: seq<Byte>)
    requires |a| % 64 == 0 && |b| % 64 == 0
    ensures Blocks(q, a + b) == Blocks(Blocks(q, a), b)
    decreases |b|
  {
    hide Compressed, Words;
    var m := a + b;
    if |b| == 0 {
      assert m == a;
    } else {
      BlocksAppend(q, a, b[..|b| - 64]);
      assert m[..|m| - 64] == a + b[..|b| - 64];
      assert m[|m| - 64..] == b[|b| - 64..];
    }
  }

  // n & ~63.
  function Whole(n: nat): (w: nat)
    ensures w % 64 == 0 && w <= n < w + 64 && n - w == n % 64
  {
    n - n % 64
  }

  lemma EmptyBlocks(q: Quad)
    ensures Blocks(q, []) == q
  {
  }

  lemma OneMoreBlock(q: Quad, m: seq<Byte>, i: nat)
    requires i + 64 <= |m| && i % 64 == 0
    ensures (i + 64) % 64 == 0 && Blocks(q, m[..i + 64]) == Compressed(Blocks(q, m[..i]), Words(m[i..i + 64]))
  {
    hide Compressed, Words;
    assert m[..i + 64][..i] == m[..i] && m[..i + 64][i..] == m[i..i + 64];
  }

  // --- The streaming context --------------------------------------------------------------

  // State q and buffered bytes b stand for message m: the blocks of m but its last |b| bytes.
  ghost predicate Stands(q: Quad, b: seq<Byte>, m: seq<Byte>) {
    var n := |m| - |b|;
    |b| <= 64 && n >= 0 && n % 64 == 0 && q == Blocks(Start(), m[..n]) && b == m[n..]
  }

  lemma StandsOn(q: Quad, b: seq<Byte>, m: seq<Byte>, more: seq<Byte>, whole: nat)
    requires Stands(q, b, m) && whole <= |b + more| <= whole + 64 && whole % 64 == 0
    ensures Stands(Blocks(q, (b + more)[..whole]), (b + more)[whole..], m + more)
  {
    hide Compressed, Words, Start, Blocks;
    var n := |m| - |b|;
    var all := b + more;
    var front := all[..whole];
    assert m == m[..n] + b;
    assert m + more == m[..n] + all;
    assert (n + whole) % 64 == 0 && |m + more| - |all[whole..]| == n + whole;
    Joined(m[..n], all, whole);
    BlocksAppend(Start(), m[..n], front);
  }

  lemma Joined<T>(a: seq<T>, b: seq<T>, k: nat)
    requires k <= |b|
    ensures (a + b)[..|a| + k] == a + b[..k] && (a + b)[|a| + k..] == b[k..]
  {
  }

  // The first n bytes of the source's fillbuf.
  function Fill(n: nat): (s: seq<Byte>)
    requires n > 0
    ensures |s| == n
  {
    [0x80] + Zeros(n - 1)
  }

  function Suffix(pad: nat, t: (nat, nat)): (s: seq<Byte>)
    requires pad > 0
    ensures |s| == pad + 8
  {
    Fill(pad) + (LittleEndian(LowBits(t), 4) + LittleEndian(HighBits(t), 4))
  }

  lemma SuffixParts(tail: seq<Byte>, pad: nat, t: (nat, nat))
    requires pad > 0
    ensures tail + Suffix(pad, t)
         == tail + Fill(pad) + LittleEndian(LowBits(t), 4) + LittleEndian(HighBits(t), 4)
  {
    hide LittleEndian, LowBits, HighBits, Fill;
  }

  lemma PadLength(m: nat, b: nat, pad: int)
    requires b <= 64 && b <= m && (m - b) % 64 == 0 && pad == if b >= 56 then 64 + 56 - b else 56 - b
    ensures (55 - m) % 64 == pad - 1 && (b + pad + 8) % 64 == 0
  {
    assert 55 - m == -64 * ((m - b) / 64) + (55 - b);
  }

  lemma Regroup<T>(a: seq<T>, b: seq<T>, c: seq<T>)
    ensures a + b + c == a + (b + c)
  {
  }

  // The message with the padding that ends in what the pair holds.
  function Code(m: seq<Byte>, t: (nat, nat)): (d: seq<bv8>)
    ensures |d| == 16
  {
    var pad := (55 - |m|) % 64 + 1;
    assert (|m| + pad + 8) % 64 == 0;
    Serialized(Blocks(Start(), m + Suffix(pad, t)))
  }

  lemma CodeIsDigest(m: seq<Byte>, t: (nat, nat), lost: nat)
    requires t.0 < TWO32 && t.1 < TWO32 && Accounts(t, lost, |m|) && lost % TWO29 == 0
    ensures Code(m, t) == Digest(m)
  {
    hide LittleEndian, LowBits, HighBits, Zeros, Serialized, Blocks, Start, Accounts;
    LengthBytes(t, lost, |m|);
    assert Padded(m) == m + Suffix((55 - |m|) % 64 + 1, t);
  }

  lemma LastBlocks(q: Quad, b: seq<Byte>, m: seq<Byte>, t: (nat, nat))
    requires Stands(q, b, m)
    ensures var pad := if |b| >= 56 then 64 + 56 - |b| else 56 - |b|;
      pad > 0 && (|b| + pad + 8) % 64 == 0 && Serialized(Blocks(q, b + Suffix(pad, t))) == Code(m, t)
  {
    hide Suffix, Serialized, Blocks, Start;
    var pad := if |b| >= 56 then 64 + 56 - |b| else 56 - |b|;
    var n := |m| - |b|;
    PadLength(|m|, |b|, pad);
    assert m == m[..n] + b;
    Regroup(m[..n], b, Suffix(pad, t));
    BlocksAppend(Start(), m[..n], b + Suffix(pad, t));
  }

  // --- What is counted of pieces of any length ---------------------------------------------

  datatype Tally = Tally(total: (nat, nat), buflen: nat, lost: nat)

  // More bytes than fit the buffer: the whole blocks are absorbed, and counted.
  function Topped(t: Tally, add: nat): Tally {
    var all := t.buflen + add;
    if all <= 64 then t.(buflen := all)
    else Tally(Counted(t.total, Whole(all)), all - Whole(all), t.lost + Forgotten(t.total, Whole(all)))
  }

  function Fed(t: Tally, len: nat): Tally {
    if t.buflen == 0 then Topped(t, len)
    else if t.buflen + len <= 128 then Topped(t, len)
    else if t.buflen <= 128 then Topped(Topped(t, 128 - t.buflen), len - (128 - t.buflen))
    else t
  }

  function FedAll(pieces: seq<seq<Byte>>): Tally {
    if |pieces| == 0 then Tally((0, 0), 0, 0)
    else Fed(FedAll(pieces[..|pieces| - 1]), |pieces[|pieces| - 1]|)
  }

  // A tally that goes with a message of n bytes.
  predicate TallyOk(t: Tally, n: nat) {
    && t.total.0 < TWO32 && t.total.1 < TWO32 && t.buflen <= 64 && t.buflen <= n
    && Accounts(t.total, t.lost, n - t.buflen)
  }

  lemma ToppedAccounts(t: Tally, n: nat, add: nat)
    requires TallyOk(t, n)
    ensures TallyOk(Topped(t, add), n + add)
  {
    hide Counted, Forgotten, Accounts;
    var all := t.buflen + add;
    if all > 64 {
      AccountsOn(t.total, t.lost, n - t.buflen, Whole(all));
    }
  }

  lemma {:induction false} PiecesAccount(pieces: seq<seq<Byte>>)
    ensures TallyOk(FedAll(pieces), |Joint(pieces)|)
  {
    hide Counted, Topped;
    if |pieces| > 0 {
      var t, n := FedAll(pieces[..|pieces| - 1]), |Joint(pieces[..|pieces| - 1])|;
      var len := |pieces[|pieces| - 1]|;
      PiecesAccount(pieces[..|pieces| - 1]);
      if t.buflen == 0 || t.buflen + len <= 128 {
        ToppedAccounts(t, n, len);
      } else {
        ToppedAccounts(t, n, 128 - t.buflen);
        ToppedAccounts(Topped(t, 128 - t.buflen), n + (128 - t.buflen), len - (128 - t.buflen));
      }
    }
  }

  // No carry is forgotten while each piece is shorter than 2^32 bytes.
  lemma {:induction false} ShortPieces(pieces: seq<seq<Byte>>)
    requires forall p <- pieces :: |p| < TWO32
    ensures FedAll(pieces).lost == 0 && FedAll(pieces).total.0 < TWO32
  {
    if |pieces| > 0 {
      ShortPieces(pieces[..|pieces| - 1]);
      ShortPiece(FedAll(pieces[..|pieces| - 1]), |pieces[|pieces| - 1]|);
    }
  }

  lemma ShortPiece(t: Tally, len: nat)
    requires t.total.0 < TWO32 && t.lost == 0 && len < TWO32
    ensures Fed(t, len).total.0 < TWO32 && Fed(t, len).lost == 0
  {
    hide Counted, Forgotten;
  }

  // What absorbing the whole blocks of b + more, or nothing while they fit the buffer, amounts to.
  lemma StandsAfter(q: Quad, b: seq<Byte>, m: seq<Byte>, more: seq<Byte>, t: Tally)
    requires Stands(q, b, m) && t.buflen == |b| && TallyOk(t, |m|)
    ensures var all := b + more; var w := if |all| > 64 then Whole(|all|) else 0; var t' := Topped(t, |more|);
      && Stands(Blocks(q, all[..w]), all[w..], m + more)
      && TallyOk(t', |m + more|) && t'.buflen == |all[w..]|
  {
    hide Counted, Blocks, Accounts, Whole, Forgotten;
    var all := b + more;
    var w := if |all| > 64 then Whole(|all|) else 0;
    StandsOn(q, b, m, more, w);
    ToppedAccounts(t, |m|, |more|);
  }

  // memcpy (&to[at], from, ...).
  method Copy(to: array<Byte>, at: nat, from: seq<Byte>)
    requires at + |from| <= to.Length
    modifies to
    ensures to[..at + |from|] == old(to[..at]) + from
  {
    forall i | 0 <= i < |from| {
      to[at + i] := from[i];
    }
  }

  class Context {
    var A: Word
    var B: Word
    var C: Word
    var D: Word
    var total: (nat, nat)
    var buflen: nat
    const buffer: array<Byte>
    ghost var message: seq<Byte>
    ghost var lost: nat    // forgotten carries

    ghost function Count(): Tally
      reads this
    {
      Tally(total, buflen, lost)
    }

    ghost predicate Valid()
      reads this, buffer
    {
      && buffer.Length == 128 && buflen <= 64
      && Stands(Quad(A, B, C, D), buffer[..buflen], message)
      && TallyOk(Count(), |message|)
    }

    constructor ()
      ensures Valid() && fresh(buffer) && message == [] && Count() == Tally((0, 0), 0, 0)
    {
      A, B, C, D := 0x67452301, 0xefcdab89, 0x98badcfe, 0x10325476;
      total := (0, 0);
      buflen := 0;
      buffer := new Byte[128](i => 0);
      message, lost := [], 0;
    }

    method ProcessBlock(bytes: seq<Byte>)
      requires |bytes| % 64 == 0
      modifies this`A, this`B, this`C, this`D, this`total, this`lost
      ensures Quad(A, B, C, D) == Blocks(old(Quad(A, B, C, D)), bytes)
      ensures total == Counted(old(total), |bytes|) && lost == old(lost) + Forgotten(old(total), |bytes|)
    {
      hide Compressed, Words, Counted, Forgotten, Blocks;
      ghost var q := Quad(A, B, C, D);
      EmptyBlocks(q);
      lost := lost + Forgotten(total, |bytes|);
      total := Counted(total, |bytes|);
      var i := 0;
      while i < |bytes|
        invariant i <= |bytes| && i % 64 == 0
        invariant Quad(A, B, C, D) == Blocks(q, bytes[..i])
        modifies this`A, this`B, this`C, this`D
      {
        OneMoreBlock(q, bytes, i);
        A, B, C, D := Absorb(A, B, C, D, Words(bytes[i..i + 64]));
        i := i + 64;
      }
      assert bytes[..i] == bytes;
    }

    // Absorbs the whole blocks of an overfull buffer and moves the remainder to its front.
    method Drain()
      requires buffer.Length == 128 && 64 < buflen <= 128
      modifies this`A, this`B, this`C, this`D, this`total, this`lost, this`buflen, buffer
      ensures buflen == old(buflen) - Whole(old(buflen)) <= 64
      ensures Quad(A, B, C, D) == Blocks(old(Quad(A, B, C, D)), old(buffer[..Whole(buflen)]))
      ensures Count() == Topped(old(Count()), 0)
      ensures buffer[..buflen] == old(buffer[Whole(buflen)..buflen])
    {
      hide Counted, Forgotten, Blocks, Whole;
      var whole := Whole(buflen);
      ProcessBlock(buffer[..whole]);
      Copy(buffer, 0, buffer[whole..buflen]);
      buflen := buflen % 64;
    }

    // The first branch of the source's function: top up the buffer, drain it when over 64.
    method TopUp(bytes: seq<Byte>)
      requires buffer.Length == 128 && buflen + |bytes| <= 128
      modifies this`A, this`B, this`C, this`D, this`total, this`lost, this`buflen, buffer
      ensures var all := old(buffer[..buflen]) + bytes;
        var w := if |all| > 64 then Whole(|all|) else 0;
        && buflen == |all| - w && buffer[..buflen] == all[w..]
        && Quad(A, B, C, D) == Blocks(old(Quad(A, B, C, D)), all[..w])
        && Count() == Topped(old(Count()), |bytes|)
    {
      hide Counted, Forgotten, Blocks, Whole;
      ghost var all := buffer[..buflen] + bytes;
      Copy(buffer, buflen, bytes);
      buflen := buflen + |bytes|;
      if buflen > 64 {
        ghost var w := Whole(|all|);
        assert buffer[..buflen] == all && buffer[..w] == all[..w] && buffer[w..buflen] == all[w..];
        Drain();
      } else {
        EmptyBlocks(Quad(A, B, C, D));
        assert all[..0] == [] && all[0..] == all;
      }
    }

    method ProcessBytes(bytes: seq<Byte>)
      requires Valid()
      modifies this, buffer
      ensures Valid() && message == old(message) + bytes
      ensures Count() == Fed(old(Count()), |bytes|)
    {
      hide Stands, Counted, Blocks, Whole, Accounts, Topped;
      var rest := bytes;
      if buflen != 0 {
        var leftOver := buflen;
        var add := if 128 - leftOver > |rest| then |rest| else 128 - leftOver;
        StandsAfter(Quad(A, B, C, D), buffer[..buflen], message, rest[..add], Count());
        TopUp(rest[..add]);
        message := message + rest[..add];
        rest := rest[add..];
        assert bytes[..add] + rest == bytes;
        assert rest == [] || buflen == 0;
      }
      if |rest| > 0 {
        FromEmpty(rest);
        assert message == old(message) + bytes;
      } else if bytes == [] {
        ToppedByNothing(Count());
      }
    }

    // The rest of it: whole blocks straight from the caller's bytes, the remainder buffered.
    method FromEmpty(bytes: seq<Byte>)
      requires Valid() && buflen == 0 && |bytes| > 0
      modifies this, buffer
      ensures Valid() && message == old(message) + bytes
      ensures Count() == Topped(old(Count()), |bytes|)
    {
      hide Stands, Counted, Forgotten, Blocks, Whole, Accounts;
      var rest := bytes;
      var whole := if |rest| > 64 then Whole(|rest|) else 0;
      assert buffer[..0] == [] && [] + bytes == bytes;
      StandsAfter(Quad(A, B, C, D), [], message, bytes, Count());
      if |rest| > 64 {
        ProcessBlock(rest[..whole]);
        rest := rest[whole..];
      } else {
        assert Stands(Quad(A, B, C, D), rest, message + bytes) by { EmptyBlocks(Quad(A, B, C, D)); }
      }
      if |rest| > 0 {
        Copy(buffer, 0, rest);
      }
      buflen := |rest|;
      assert buffer[..buflen] == rest;
      message := message + bytes;
    }

    method Finish() returns (digest: seq<bv8>)
      requires Valid()
      modifies this, buffer
      ensures digest == Code(old(message), Counted(old(total), old(buflen)))
      ensures old(lost) % TWO29 == 0 ==> digest == Digest(old(message))
    {
      hide Stands, Counted, Blocks, Accounts, LittleEndian, Suffix, Serialized, Code, Digest;
      ghost var q, m, tail := Quad(A, B, C, D), message, buffer[..buflen];
      var bytes := buflen;
      AccountsOn(total, lost, |m| - bytes, bytes);
      total := Counted(total, bytes);
      LastBlocks(q, tail, m, total);
      if lost % TWO29 == 0 {
        CodeIsDigest(m, total, lost);
      }
      var pad := if bytes >= 56 then 64 + 56 - bytes else 56 - bytes;
      Copy(buffer, bytes, Fill(pad));
      Copy(buffer, bytes + pad, LittleEndian(LowBits(total), 4));
      Copy(buffer, bytes + pad + 4, LittleEndian(HighBits(total), 4));
      assert buffer[..bytes + pad + 8] == tail + Suffix(pad, total) by {
        SuffixParts(tail, pad, total);
      }
      ProcessBlock(buffer[..bytes + pad + 8]);
      digest := Serialized(Quad(A, B, C, D));
    }
  }

  lemma ToppedByNothing(t: Tally)
    requires t.buflen <= 64
    ensures Topped(t, 0) == t
  {
  }

  // What comes out for the pieces: the digest of the message with the length that was counted.
  function CodeOf(pieces: seq<seq<Byte>>): (d: seq<bv8>)
    ensures |d| == 16
  {
    var t := FedAll(pieces);
    Code(Joint(pieces), Counted(t.total, t.buflen))
  }

  // A message in any number of pieces of any size: its MD5, if the carries that were forgotten do
  // not show in the length.
  method DigestOfPieces(pieces: seq<seq<Byte>>) returns (digest: seq<bv8>)
    ensures digest == CodeOf(pieces)
    ensures FedAll(pieces).lost % TWO29 == 0 ==> digest == Digest(Joint(pieces))
  {
    hide Digest, Code, Fed, Counted;
    var context := new Context();
    for i := 0 to |pieces|
      invariant context.Valid() && fresh(context) && fresh(context.buffer)
      invariant context.message == Joint(pieces[..i]) && context.Count() == FedAll(pieces[..i])
    {
      assert pieces[..i + 1][..i] == pieces[..i];
      context.ProcessBytes(pieces[i]);
    }
    assert pieces[..|pieces|] == pieces;
    digest := context.Finish();
  }

  // The MD5 of every message whose pieces are shorter than 2^32 bytes.
  lemma ShortPiecesDigest(pieces: seq<seq<Byte>>)
    requires forall p <- pieces :: |p| < TWO32
    ensures CodeOf(pieces) == Digest(Joint(pieces))
  {
    hide Digest, Code, Fed, Counted, Accounts;
    ShortPieces(pieces);
    PiecesAccount(pieces);
    var t := FedAll(pieces);
    AccountsOn(t.total, t.lost, |Joint(pieces)| - t.buflen, t.buflen);
    CodeIsDigest(Joint(pieces), Counted(t.total, t.buflen), 0);
  }

  function Joint(pieces: seq<seq<Byte>>): seq<Byte> {
    if |pieces| == 0 then [] else Joint(pieces[..|pieces| - 1]) + pieces[|pieces| - 1]
  }
}
