/** buffer.c: the chunked output queue of a connection. */
module SendQueue {
  import opened Bytes
  import opened Framing

  const BUFFER_SIZE: nat := 2048

  // data holds the datasize bytes in use.
  datatype Chunk = Chunk(data: seq<Byte>, datamax: nat, consumed: nat)

  predicate ChunkOk(c: Chunk) {
    |c.data| <= c.datamax && c.consumed < |c.data|
  }

  function Left(c: Chunk): seq<Byte>
    requires ChunkOk(c)
  {
    c.data[c.consumed..]
  }

  predicate AllOk(cs: seq<Chunk>) {
    forall i :: 0 <= i < |cs| ==> ChunkOk(cs[i])
  }

  // A list of chunks, only the first of which may have been written in part.
  predicate QueueOk(cs: seq<Chunk>) {
    AllOk(cs) && forall i :: 0 < i < |cs| ==> cs[i].consumed == 0
  }

  // The bytes still to be written.
  function Pending(cs: seq<Chunk>): seq<Byte>
    requires AllOk(cs)
  {
    if cs == [] then [] else Left(cs[0]) + Pending(cs[1..])
  }

  lemma {:induction false} PendingOf(a: seq<Chunk>, b: seq<Chunk>)
    requires AllOk(a) && AllOk(b)
    ensures AllOk(a + b) && Pending(a + b) == Pending(a) + Pending(b)
  {
    hide ChunkOk, Left;
    if a == [] {
      assert a + b == b;
    } else {
      assert (a + b)[0] == a[0] && (a + b)[1..] == a[1..] + b;
      PendingOf(a[1..], b);
    }
  }

  lemma PendingOne(c: Chunk)
    requires ChunkOk(c)
    ensures Pending([c]) == Left(c)
  {
    assert [c][1..] == [];
  }

  // The queue with the last chunk exchanged or one chunk more.
  lemma PendingAtEnd(front: seq<Chunk>, c: Chunk)
    requires AllOk(front) && ChunkOk(c)
    ensures AllOk(front + [c]) && Pending(front + [c]) == Pending(front) + Left(c)
  {
    PendingOf(front, [c]);
    PendingOne(c);
  }

  class Queue {
    var chunks: seq<Chunk>

    ghost predicate Valid()
      reads this
    {
      QueueOk(chunks)
    }

    ghost function Contents(): seq<Byte>
      reads this
      requires Valid()
    {
      Pending(chunks)
    }

    constructor ()
      ensures Valid() && Contents() == []
    {
      chunks := [];
    }

    // buffer_queue: fill the last chunk, then allocate as many as it takes.
    method Enqueue(d: seq<Byte>)
      requires Valid()
      modifies this
      ensures Valid() && Contents() == old(Contents()) + d
    {
      hide Left, Pending, QueueOk, AllOk;
      var i := 0;
      assert d[..0] == [] && old(Contents()) + [] == old(Contents());
      while i < |d|
        invariant 0 <= i <= |d| && Valid() && Contents() == old(Contents()) + d[..i]
      {
        if chunks != [] {
          LastOk(chunks);
        }
        if chunks == [] || |chunks[|chunks| - 1].data| == chunks[|chunks| - 1].datamax {
          var count := if |d| - i > BUFFER_SIZE then BUFFER_SIZE else |d| - i;
          var c := Chunk(d[i..i + count], BUFFER_SIZE, 0);
          ChunkAdded(chunks, c);
          chunks := chunks + [c];
          assert d[..i] + d[i..i + count] == d[..i + count];
          i := i + count;
        } else {
          var last := chunks[|chunks| - 1];
          var count := if |d| - i > last.datamax - |last.data| then last.datamax - |last.data| else |d| - i;
          var c := last.(data := last.data + d[i..i + count]);
          LastFilled(chunks, d[i..i + count]);
          chunks := chunks[..|chunks| - 1] + [c];
          assert d[..i] + d[i..i + count] == d[..i + count];
          i := i + count;
        }
      }
      assert d[..i] == d;
    }

    // write() took the first n bytes of the first chunk; buffer_consume drops the chunk once it is used up.
    method Write(n: nat) returns (written: seq<Byte>)
      requires Valid() && chunks != [] && 0 < n <= |Left(chunks[0])|
      modifies this
      ensures Valid() && |written| == n && written + Contents() == old(Contents())
    {
      var c := chunks[0];
      written := c.data[c.consumed..c.consumed + n];
      var now := c.(consumed := c.consumed + n);
      if now.consumed >= |now.data| {
        chunks := chunks[1..];
        assert written == Left(c);
      } else {
        ghost var before := chunks;
        chunks := [now] + chunks[1..];
        assert chunks[1..] == before[1..];
        assert written + Left(now) == Left(c);
      }
    }

    // buffer_size
    method Size() returns (n: nat)
      requires Valid()
      ensures n == |Contents()|
    {
      n := 0;
      var i := 0;
      assert chunks[0..] == chunks;
      while i < |chunks|
        invariant 0 <= i <= |chunks| && n + |Pending(chunks[i..])| == |Contents()|
      {
        assert chunks[i..][1..] == chunks[i + 1..] && ChunkOk(chunks[i]);
        n := n + |chunks[i].data| - chunks[i].consumed;
        i := i + 1;
      }
    }

    // buffer_append: more goes behind this queue; all of it still unwritten.
    method Append(more: Queue)
      requires Valid() && more != this && more.Valid() && (more.chunks == [] || more.chunks[0].consumed == 0)
      modifies this
      ensures Valid() && Contents() == old(Contents()) + more.Contents()
    {
      PendingOf(chunks, more.chunks);
      chunks := chunks + more.chunks;
    }

    // send_cmd and queue_data
    method SendCmd(m: Message)
      requires Valid() && Sendable(m)
      modifies this
      ensures Valid() && Contents() == old(Contents()) + Frame(m)
    {
      Enqueue(LittleEndian(|m.body|, 2) + LittleEndian(m.tag, 2) + m.body);
    }
  }

  lemma LastOk(cs: seq<Chunk>)
    requires QueueOk(cs) && cs != []
    ensures |cs[|cs| - 1].data| <= cs[|cs| - 1].datamax
  {
  }

  lemma ChunkAdded(cs: seq<Chunk>, c: Chunk)
    requires QueueOk(cs) && ChunkOk(c) && c.consumed == 0
    ensures QueueOk(cs + [c]) && Pending(cs + [c]) == Pending(cs) + c.data
  {
    PendingAtEnd(cs, c);
    assert Left(c) == c.data;
  }

  lemma LastFilled(cs: seq<Chunk>, more: seq<Byte>)
    requires cs != [] && QueueOk(cs) && |cs[|cs| - 1].data| + |more| <= cs[|cs| - 1].datamax
    ensures var last := cs[|cs| - 1];
      var now := cs[..|cs| - 1] + [last.(data := last.data + more)];
      QueueOk(now) && Pending(now) == Pending(cs) + more
  {
    var front, last := cs[..|cs| - 1], cs[|cs| - 1];
    var c := last.(data := last.data + more);
    assert cs == front + [last];
    PendingAtEnd(front, last);
    PendingAtEnd(front, c);
    assert Left(c) == Left(last) + more;
  }
}
