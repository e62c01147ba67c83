/** handler.c: the input buffer of a connection, cut into messages that are dispatched in place. */
module Receiver {
  import opened Bytes
  import opened Framing

  // The tags an unregistered connection may send.
  predicate LoginTag(tag: nat) {
    tag == 2 || tag == 6 || tag == 7 || tag == 10010 || tag == 10011 || tag == 0 || tag == 4 || tag == 300 || tag == 11
  }

  // What a handler does to its packet, byte by byte: it may cut and change it in place.
  type Edit = (nat, Byte) -> Byte

  // A header that announces more than the server takes from a client.
  predicate TooLong(s: seq<Byte>, max: nat) { |s| >= 4 && Short(s, 0) > max }

  // The messages seen and the bytes still in the buffer are exactly what has been received.
  ghost predicate Accounts(received: seq<Byte>, seen: seq<Message>, rest: seq<Byte>) {
    Deframe(received) == Split(seen + Deframe(rest).messages, Deframe(rest).rest)
  }

  lemma AccountsForFirst(received: seq<Byte>, seen: seq<Message>, rest: seq<Byte>)
    requires Accounts(received, seen, rest) && Complete(rest)
    ensures var n := 4 + Short(rest, 0); var m := Message(Short(rest, 2), rest[4..n]);
      && Accounts(received, seen + [m], rest[n..])
      && |seen| < |Deframe(received).messages| && Deframe(received).messages[|seen|] == m
  {
    hide Deframe;
    var n := 4 + Short(rest, 0);
    var m := Message(Short(rest, 2), rest[4..n]);
    DeframeStep(rest);
    assert seen + ([m] + Deframe(rest[n..]).messages) == seen + [m] + Deframe(rest[n..]).messages;
  }

  lemma AccountsForRest(received: seq<Byte>, seen: seq<Message>, rest: seq<Byte>)
    requires Accounts(received, seen, rest)
    ensures seen <= Deframe(received).messages
    ensures !Complete(rest) ==> Deframe(received) == Split(seen, rest)
  {
    hide Deframe;
    DeframeOnce(rest);
    assert seen + [] == seen;
  }

  lemma SliceOfSlice(s: seq<Byte>, a: nat, b: nat, i: nat, j: nat)
    requires a + i <= a + j <= b <= |s|
    ensures s[a..b][i..j] == s[a + i..a + j]
  {
    var t, u := s[a..b], s[a + i..a + j];
    assert |t[i..j]| == |u|;
    forall k | 0 <= k < j - i ensures t[i..j][k] == u[k] {
      assert t[i..j][k] == t[i + k];
    }
  }

  lemma AccountsForMore(received: seq<Byte>, seen: seq<Message>, rest: seq<Byte>, more: seq<Byte>)
    requires Deframe(received) == Split(seen, rest)
    ensures Accounts(received + more, seen, rest + more)
  {
    hide Deframe;
    DeframeInPieces(received, more);
  }

  class Buffer {
    var data: array<Byte>
    var datasize: nat
    var datamax: nat
    var consumed: nat
    ghost var received: seq<Byte>
    // The packets handed to handlers, in order.
    var seen: seq<Message>

    // One byte more than datamax is allocated, for the terminator.
    ghost predicate Sized()
      reads this
    {
      data.Length == datamax + 1 && datamax >= 4 && consumed <= datasize <= datamax
    }

    ghost predicate Balanced()
      reads this, data
      requires Sized()
    {
      Accounts(received, seen, data[consumed..datasize])
    }

    // Between two calls no complete message is left, and what is left starts the buffer.
    ghost predicate Valid()
      reads this, data
    {
      Sized() && consumed == 0 && Deframe(received) == Split(seen, data[..datasize])
    }

    constructor ()
      ensures Valid() && fresh(data) && received == [] && seen == []
    {
      data := new Byte[5];
      datasize, datamax, consumed := 0, 4, 0;
      received, seen := [], [];
    }

    // Any handler, seen from here: it gets a terminated packet and keeps to it.
    method Handler(at: nat, len: nat, edit: Edit)
      requires at + len < data.Length && data[at + len] == 0
      modifies data
      ensures data[..at] == old(data[..at]) && data[at + len..] == old(data[at + len..])
    {
      for i := 0 to len
        invariant data[..at] == old(data[..at]) && data[at + len..] == old(data[at + len..])
      {
        data[at + i] := edit(i, data[at + i]);
      }
    }

    // dispatch_command: a terminator behind the packet while the handler runs.
    method Dispatch(tag: nat, at: nat, len: nat, edit: Edit)
      requires at + len < data.Length
      modifies data, this`seen
      ensures data[..at] == old(data[..at]) && data[at + len..] == old(data[at + len..])
      ensures seen == old(seen) + [Message(tag, old(data[at..at + len]))]
    {
      seen := seen + [Message(tag, data[at..at + len])];
      var byte := data[at + len];
      data[at + len] := 0;
      Handler(at, len, edit);
      assert data[at + len + 1..] == data[at + len..][1..];
      data[at + len] := byte;
      assert data[at + len..] == [byte] + data[at + len + 1..];
    }

    method Short16(i: nat) returns (n: nat)
      requires i + 2 <= data.Length
      ensures forall from, to :: 0 <= from <= i && i + 2 <= to <= data.Length ==> n == Short(data[from..to], i - from)
    {
      n := data[i] as int + 256 * data[i + 1] as int;
    }

    // The loop over complete messages, and the shift of what is left.
    method Process(registered: bool, edit: Edit) returns (ok: bool)
      requires Sized() && consumed == 0 && Balanced()
      modifies this, data
      ensures data == old(data) && received == old(received)
      ensures ok ==> Valid()
      ensures old(seen) <= seen <= Deframe(received).messages
      ensures !ok ==> !registered && |seen| < |Deframe(received).messages|
                      && Deframe(received).messages[|seen|].tag !in {0, 2, 4, 6, 7, 11, 300, 10010, 10011}
      ensures !registered ==> forall i :: |old(seen)| <= i < |seen| ==> seen[i].tag in {0, 2, 4, 6, 7, 11, 300, 10010, 10011}
    {
      hide Deframe, Accounts, Short;
      ok := true;
      while consumed < datasize
        invariant Sized() && Balanced()
        invariant data == old(data) && received == old(received) && datasize == old(datasize) && datamax == old(datamax)
        invariant old(seen) <= seen
        invariant !registered ==> forall i :: |old(seen)| <= i < |seen| ==> LoginTag(seen[i].tag)
        decreases datasize - consumed
      {
        AccountsForRest(received, seen, data[consumed..datasize]);
        if datasize - consumed < 4 {
          break;
        }
        var len := Short16(consumed);
        var tag := Short16(consumed + 2);
        if consumed + 4 + len > datasize {
          break;
        }
        AccountsForFirst(received, seen, data[consumed..datasize]);
        if !registered && !LoginTag(tag) {
          return false;
        }
        TakePacket(tag, len, edit);
      }
      AccountsForRest(received, seen, data[consumed..datasize]);
      assert !Complete(data[consumed..datasize]);
      Shift();
    }

    method TakePacket(tag: nat, len: nat, edit: Edit)
      requires Sized() && consumed + 4 + len <= datasize
      modifies data, this`seen, this`consumed
      ensures consumed == old(consumed) + 4 + len
      ensures data[consumed..datasize] == old(data[consumed..datasize])[4 + len..]
      ensures seen == old(seen) + [Message(tag, old(data[consumed..datasize])[4..4 + len])]
    {
      var at := consumed + 4;
      ghost var rest, behind := data[consumed..datasize], data[at + len..];
      SliceOfSlice(data[..], consumed, datasize, 4, 4 + len);
      assert data[..][consumed..datasize] == rest && data[..][at..at + len] == data[at..at + len];
      assert rest[4 + len..] == behind[..datasize - at - len];
      Dispatch(tag, at, len, edit);
      assert data[at + len..datasize] == data[at + len..][..datasize - at - len];
      consumed := at + len;
    }

    // memmove (data, data + consumed, n)
    method Shift()
      requires Sized()
      modifies this`datasize, this`consumed, data
      ensures Sized() && consumed == 0 && data[..datasize] == old(data[consumed..datasize])
    {
      if consumed > 0 {
        var n := datasize - consumed;
        ghost var rest := data[consumed..datasize];
        forall i | 0 <= i < n {
          data[i] := data[consumed + i];
        }
        assert data[..n] == rest;
        datasize := n;
        consumed := 0;
      }
    }

    // safe_realloc
    method Resize(max: nat)
      requires Sized() && datamax <= max
      modifies this`data, this`datamax
      ensures Sized() && datamax == max && (fresh(data) || data == old(data))
      ensures data[consumed..datasize] == old(data[consumed..datasize])
    {
      var bigger := new Byte[max + 1];
      forall i | 0 <= i < datasize {
        bigger[i] := data[i];
      }
      data, datamax := bigger, max;
    }

    // One read into the buffer: as much as asked for, has arrived and the system hands over at once.
    method Read(net: seq<Byte>, want: nat, size: nat) returns (n: nat)
      requires Sized() && consumed == 0 && datasize + want <= datamax
      modifies this`datasize, this`received, data
      ensures n <= |net| && n <= want && n <= size && (n == want || n == |net| || n == size)
      ensures Sized() && datasize == old(datasize) + n && received == old(received) + net[..n]
      ensures data[..datasize] == old(data[..datasize]) + net[..n]
    {
      n := if want < |net| then want else |net|;
      n := if n < size then n else size;
      forall i | 0 <= i < n {
        data[datasize + i] := net[i];
      }
      datasize := datasize + n;
      received := received + net[..n];
    }

    // A server link: the decompressor hands over bytes, however many there are.
    method ReceiveServer(bytes: seq<Byte>, edit: Edit) returns (ok: bool)
      requires Valid()
      modifies this, data
      ensures ok && Valid() && received == old(received) + bytes
      ensures fresh(data) || data == old(data)
    {
      hide Deframe, Accounts;
      ghost var rest, before := data[..datasize], received;
      ghost var first := data;
      while datamax - datasize <= |bytes|
        invariant Sized() && data[..datasize] == rest && consumed == 0 && received == before && seen == old(seen)
        invariant fresh(data) || data == first
        decreases datasize + |bytes| - datamax
      {
        Resize(datamax + 2048);
        assert data[0..datasize] == data[..datasize];
      }
      var n := Read(bytes, |bytes|, |bytes|);
      assert bytes[..n] == bytes;
      AccountsForMore(before, seen, rest, bytes);
      assert data[consumed..datasize] == rest + bytes;
      ok := Process(true, edit);
    }

    // The first part of the client branch: the four bytes of the header, in as many reads as it takes.
    method ReadHeader(net: seq<Byte>, sizes: nat -> nat)
      returns (rest: seq<Byte>, turns: nat, whole: bool, ghost taken: seq<Byte>)
      requires Sized() && consumed == 0
      modifies this`datasize, this`received, data
      ensures Sized() && whole == (datasize >= 4) && net == taken + rest
      ensures received == old(received) + taken && data[..datasize] == old(data[..datasize]) + taken
      ensures old(datasize) <= 4 ==> datasize <= 4
      ensures old(datasize) >= 4 ==> taken == []
      ensures old(datasize) < 4 && net != [] && sizes(0) > 0 ==> taken != []
    {
      rest, turns, taken := net, 0, [];
      while datasize < 4
        invariant Sized() && net == taken + rest
        invariant received == old(received) + taken && data[..datasize] == old(data[..datasize]) + taken
        invariant old(datasize) <= 4 ==> datasize <= 4
        invariant old(datasize) >= 4 ==> taken == []
        invariant (turns == 0 ==> rest == net && datasize == old(datasize)) && (turns > 0 ==> taken != [])
      {
        var n := Read(rest, 4 - datasize, sizes(turns));
        if n == 0 {
          assert rest[..0] == [];
          return rest, turns, false, taken;
        }
        taken := taken + rest[..n];
        rest := rest[n..];
        turns := turns + 1;
      }
      whole := true;
    }

    // The second part of the client branch: make room for the body and read some of it.
    method ReadBody(net: seq<Byte>, len: nat, size: nat) returns (n: nat)
      requires Sized() && consumed == 0 && datasize <= 4 + len
      modifies this`datasize, this`received, this`data, this`datamax, data
      ensures Sized() && (fresh(data) || data == old(data))
      ensures n <= |net| && datasize <= 4 + len && received == old(received) + net[..n]
      ensures data[..datasize] == old(data[..datasize]) + net[..n]
      ensures n == 0 <==> old(datasize) == 4 + len || net == [] || size == 0
    {
      ghost var start := data[..datasize];
      if datamax < 4 + len {
        Resize(4 + len);
        assert data[0..datasize] == data[..datasize];
      }
      n := Read(net, len + 4 - datasize, size);
    }

    // handle_connection for a client: one message at most, even when more has arrived. It ends the
    // connection on a message that is too long or not allowed before registration.
    method ReceiveClient(net: seq<Byte>, sizes: nat -> nat, maxLength: nat, registered: bool, edit: Edit)
      returns (rest: seq<Byte>, ok: bool, ghost taken: seq<Byte>)
      requires Valid()
      modifies this, data
      ensures fresh(data) || data == old(data)
      ensures net == taken + rest && received == old(received) + taken
      ensures ok ==> Valid()
      ensures old(seen) <= seen <= Deframe(received).messages && |seen| <= |old(seen)| + 1
      ensures ok && net != [] && (forall j :: sizes(j) > 0) ==> taken != []
      ensures !ok ==> seen == old(seen)
      ensures ok ==> !TooLong(Deframe(received).rest, maxLength)
      ensures !ok && registered ==> TooLong(Deframe(received).rest, maxLength)
      ensures !ok && !TooLong(Deframe(received).rest, maxLength) ==>
        |seen| < |Deframe(received).messages|
        && Deframe(received).messages[|seen|].tag !in {0, 2, 4, 6, 7, 11, 300, 10010, 10011}
      ensures !registered ==> forall i :: |old(seen)| <= i < |seen| ==> seen[i].tag in {0, 2, 4, 6, 7, 11, 300, 10010, 10011}
    {
      hide Deframe, Accounts, Short;
      ghost var start, before := data[..datasize], received;
      DeframeOnce(before);
      var turns, whole;
      rest, turns, whole, taken := ReadHeader(net, sizes);
      ok := true;
      AccountsForMore(before, seen, start, taken);
      AccountsForRest(received, seen, start + taken);
      if !whole {
        NoLongRest(received, seen, start + taken, maxLength);
        return;
      }
      var len := Short16(0);
      ghost var header := start + taken;
      assert data[0..datasize] == header && len == Short(header, 0);
      assert |start| >= 4 ==> header == start;
      if len > 0 {
        if len > maxLength {
          ok := false;
          return;
        }
        NoLongRest(received, seen, header, maxLength);
        var n := ReadBody(rest, len, sizes(turns));
        if n == 0 {
          assert rest[..0] == [] && received + [] == received;
          return;
        }
        SameHeader(header, rest[..n]);
        assert header + rest[..n] == start + (taken + rest[..n]);
        taken := taken + rest[..n];
        rest := rest[n..];
      }
      ok := FinishClient(before, start, taken, registered, edit, maxLength);
    }

    // The common part, once at most one message is there.
    method FinishClient(ghost before: seq<Byte>, ghost start: seq<Byte>, ghost more: seq<Byte>, registered: bool, edit: Edit,
                        ghost maxLength: nat)
      returns (ok: bool)
      requires Sized() && consumed == 0 && data[..datasize] == start + more && received == before + more
      requires Deframe(before) == Split(seen, start)
      requires datasize < 4 || (datasize <= 4 + Short(data[..datasize], 0) && Short(data[..datasize], 0) <= maxLength)
      modifies this, data
      ensures data == old(data) && received == old(received)
      ensures ok ==> Valid()
      ensures old(seen) <= seen <= Deframe(received).messages && |seen| <= |old(seen)| + 1
      ensures !TooLong(Deframe(received).rest, maxLength)
      ensures !ok ==> seen == old(seen) && !registered && |seen| < |Deframe(received).messages|
                      && Deframe(received).messages[|seen|].tag !in {0, 2, 4, 6, 7, 11, 300, 10010, 10011}
      ensures !registered ==> forall i :: |old(seen)| <= i < |seen| ==> seen[i].tag in {0, 2, 4, 6, 7, 11, 300, 10010, 10011}
    {
      hide Deframe, Accounts, Short;
      AccountsForMore(before, seen, start, more);
      assert data[consumed..datasize] == start + more;
      OneAtMost(received, seen, start + more);
      NoLongRest(received, seen, start + more, maxLength);
      ok := Process(registered, edit);
    }
  }

  lemma NoLongRest(received: seq<Byte>, seen: seq<Message>, rest: seq<Byte>, maxLength: nat)
    requires Accounts(received, seen, rest)
    requires |rest| < 4 || (|rest| <= 4 + Short(rest, 0) && Short(rest, 0) <= maxLength)
    ensures !TooLong(Deframe(received).rest, maxLength)
  {
    hide Deframe, Short;
    DeframeOnce(rest);
    DeframeNothing();
    if Complete(rest) {
      DeframeStep(rest);
      assert rest[4 + Short(rest, 0)..] == [];
    }
  }

  lemma OneAtMost(received: seq<Byte>, seen: seq<Message>, rest: seq<Byte>)
    requires (|rest| < 4 || |rest| <= 4 + Short(rest, 0)) && Accounts(received, seen, rest)
    ensures |Deframe(received).messages| <= |seen| + 1
  {
    hide Deframe, Short;
    DeframeOnce(rest);
    DeframeNothing();
    if Complete(rest) {
      DeframeStep(rest);
      assert rest[4 + Short(rest, 0)..] == [];
    }
  }
}
