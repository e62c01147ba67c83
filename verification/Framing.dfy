/** serverlib.c, buffer.c, handler.c: messages on the wire. A message is a 16-bit length, a 16-bit
    tag and the body; it is queued in chunks, written in arbitrary portions, read in arbitrary
    pieces and dispatched. */
module Framing {
  import opened Bytes

  datatype Message = Message(tag: nat, body: seq<Byte>)

  predicate Sendable(m: Message) { m.tag < 0x1_0000 && |m.body| < 0x1_0000 }

  function Frame(m: Message): seq<Byte> {
    LittleEndian(|m.body|, 2) + LittleEndian(m.tag, 2) + m.body
  }

  function Wire(ms: seq<Message>): seq<Byte> {
    if ms == [] then [] else Wire(ms[..|ms| - 1]) + Frame(ms[|ms| - 1])
  }

  // --- What a receiver makes of a byte stream ----------------------------------------------

  // Two bytes read with memcpy and swapped into host order.
  function Short(s: seq<Byte>, i: nat): nat
    requires i + 2 <= |s|
  {
    s[i] as int + 256 * s[i + 1] as int
  }

  predicate Complete(s: seq<Byte>) {
    |s| >= 4 && |s| >= 4 + Short(s, 0)
  }

  datatype Split = Split(messages: seq<Message>, rest: seq<Byte>)

  // All complete messages, and the bytes behind the last of them.
  function Deframe(s: seq<Byte>): Split {
    if !Complete(s) then Split([], s)
    else
      var n := 4 + Short(s, 0);
      var later := Deframe(s[n..]);
      Split([Message(Short(s, 2), s[4..n])] + later.messages, later.rest)
  }

  lemma FrameHeader(m: Message)
    requires Sendable(m)
    ensures var f := Frame(m);
      && |f| == 4 + |m.body| && Short(f, 0) == |m.body| && Short(f, 2) == m.tag && f[4..] == m.body
      && f[0] as int == |m.body| % 256 && f[1] as int == |m.body| / 256 && f[2] as int == m.tag % 256 && f[3] as int == m.tag / 256
  {
    TwoBytes(|m.body|);
    TwoBytes(m.tag);
  }

  lemma TwoBytes(n: nat)
    requires n < 0x1_0000
    ensures LittleEndian(n, 2) == [n % 256, n / 256]
  {
    assert LittleEndian(n / 256, 1) == [n / 256];
  }

  lemma FrameComesBack(m: Message, t: seq<Byte>)
    requires Sendable(m)
    ensures Deframe(Frame(m) + t) == Split([m] + Deframe(t).messages, Deframe(t).rest)
  {
    hide Frame;
    FrameHeader(m);
    var f := Frame(m);
    var s := f + t;
    assert Short(s, 0) == Short(f, 0) && Short(s, 2) == Short(f, 2);
    assert s[4..|f|] == f[4..] && s[|f|..] == t;
  }

  // Reading may stop anywhere: what is left over is kept in front of what comes next.
  lemma {:induction false} DeframeInPieces(a: seq<Byte>, b: seq<Byte>)
    ensures var first := Deframe(a);
      Deframe(a + b) == Split(first.messages + Deframe(first.rest + b).messages, Deframe(first.rest + b).rest)
    decreases |a|
  {
    hide Deframe, Short;
    DeframeOnce(a);
    if Complete(a) {
      var n := 4 + Short(a, 0);
      var s := a + b;
      SameHeader(a, b);
      assert s[4..n] == a[4..n] && s[n..] == a[n..] + b;
      DeframeStep(a);
      DeframeStep(s);
      DeframeInPieces(a[n..], b);
      var m, later := Message(Short(a, 2), a[4..n]), Deframe(a[n..]);
      assert [m] + (later.messages + Deframe(later.rest + b).messages)
          == [m] + later.messages + Deframe(later.rest + b).messages;
    }
  }

  lemma SameHeader(a: seq<Byte>, b: seq<Byte>)
    requires |a| >= 4
    ensures Short(a + b, 0) == Short(a, 0) && Short(a + b, 2) == Short(a, 2)
  {
  }

  lemma DeframeStep(s: seq<Byte>)
    requires Complete(s)
    ensures var n := 4 + Short(s, 0);
      Deframe(s) == Split([Message(Short(s, 2), s[4..n])] + Deframe(s[n..]).messages, Deframe(s[n..]).rest)
  {
  }

  lemma {:induction false} WireComesBack(ms: seq<Message>, t: seq<Byte>)
    requires forall m <- ms :: Sendable(m)
    ensures Deframe(Wire(ms) + t) == Split(ms + Deframe(t).messages, Deframe(t).rest)
    decreases |ms|
  {
    hide Frame, Deframe;
    if ms == [] {
      assert Wire(ms) + t == t;
    } else {
      var front, m := ms[..|ms| - 1], ms[|ms| - 1];
      WireComesBack(front, Frame(m) + t);
      FrameComesBack(m, t);
      assert Wire(ms) + t == Wire(front) + (Frame(m) + t);
      assert ms == front + [m];
    }
  }

  lemma DeframeOnce(s: seq<Byte>)
    ensures !Complete(Deframe(s).rest) && (!Complete(s) ==> Deframe(s) == Split([], s))
  {
  }

  // Whatever has arrived of a message sequence yields a prefix of exactly these messages, every
  // one of them that has arrived completely, and all of them once everything has arrived.
  lemma ArrivedIsPrefix(ms: seq<Message>, arrived: seq<Byte>, missing: seq<Byte>)
    requires (forall m <- ms :: Sendable(m)) && arrived + missing == Wire(ms)
    ensures Deframe(arrived).messages <= ms
    ensures forall k :: 0 <= k <= |ms| && |Wire(ms[..k])| <= |arrived| ==> k <= |Deframe(arrived).messages|
    ensures missing == [] ==> Deframe(arrived) == Split(ms, [])
  {
    hide Frame, Deframe;
    WireComesBack(ms, []);
    assert Wire(ms) + [] == Wire(ms);
    DeframeNothing();
    DeframeInPieces(arrived, missing);
    var first := Deframe(arrived);
    assert ms == first.messages + Deframe(first.rest + missing).messages;
    if missing == [] {
      assert arrived == Wire(ms);
    }
    forall k | 0 <= k <= |ms| && |Wire(ms[..k])| <= |arrived| ensures k <= |Deframe(arrived).messages| {
      WirePrefix(ms, k);
      var tail := arrived[|Wire(ms[..k])|..];
      assert Wire(ms)[..|Wire(ms[..k])|] == Wire(ms[..k]);
      assert arrived == Wire(ms[..k]) + tail;
      WireComesBack(ms[..k], tail);
    }
  }

  lemma DeframeNothing()
    ensures Deframe([]) == Split([], [])
  {
  }

  lemma {:induction false} WirePrefix(ms: seq<Message>, k: nat)
    requires k <= |ms|
    ensures Wire(ms[..k]) <= Wire(ms)
  {
    if k < |ms| {
      var front := ms[..|ms| - 1];
      WirePrefix(front, k);
      assert front[..k] == ms[..k];
    } else {
      assert ms[..k] == ms;
    }
  }
}
