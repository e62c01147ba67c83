/** serverlib.c, buffer.c, handler.c together: what is sent on a connection is what is dispatched at
    its other end, whatever the portions it is written and read in. */
module Delivery {
  import opened Bytes
  import opened Framing
  import opened SendQueue
  import opened Receiver

  // The sender queues a message, the sender's socket takes up to n bytes, or up to n bytes arrive.
  datatype Event = Send(message: Message) | Write(n: nat) | Arrive(n: nat)

  function Sent(events: seq<Event>): seq<Message> {
    if events == [] then []
    else
      var front, e := Sent(events[..|events| - 1]), events[|events| - 1];
      if e.Send? then front + [e.message] else front
  }

  // The header at the end of what has arrived announces the next message.
  lemma NextHeader(ms: seq<Message>, arrived: seq<Byte>, missing: seq<Byte>)
    requires (forall m <- ms :: Sendable(m)) && arrived + missing == Wire(ms) && |Deframe(arrived).rest| >= 4
    ensures var k := |Deframe(arrived).messages|;
      k < |ms| && Short(Deframe(arrived).rest, 0) == |ms[k].body|
  {
    hide Frame, Deframe, Short;
    WireComesBack(ms, []);
    assert Wire(ms) + [] == Wire(ms);
    DeframeNothing();
    DeframeInPieces(arrived, missing);
    var first := Deframe(arrived);
    var s := first.rest + missing;
    assert ms == first.messages + Deframe(s).messages && Deframe(s).rest == [];
    SameHeader(first.rest, missing);
    DeframeOnce(s);
    assert Complete(s);
    DeframeStep(s);
  }

  // How much of what is there moves on.
  function Portion(n: nat, there: nat): (k: nat)
    ensures k <= there
  {
    if n < there then n else there
  }

  // Every byte of what has been sent is with the receiver, on the network or in the queue.
  ghost predicate Conserved(sent: seq<Message>, received: seq<Byte>, net: seq<Byte>, queued: seq<Byte>) {
    received + (net + queued) == Wire(sent)
  }

  predicate Fits(m: Message, client: bool, maxLength: nat) {
    Sendable(m) && (client ==> |m.body| <= maxLength)
  }

  lemma NotTooLong(ms: seq<Message>, arrived: seq<Byte>, missing: seq<Byte>, maxLength: nat)
    requires (forall m <- ms :: Fits(m, true, maxLength)) && arrived + missing == Wire(ms)
    ensures !TooLong(Deframe(arrived).rest, maxLength)
  {
    hide Deframe, Wire, Short;
    if |Deframe(arrived).rest| >= 4 {
      NextHeader(ms, arrived, missing);
      assert Fits(ms[|Deframe(arrived).messages|], true, maxLength);
    }
  }

  method WriteSome(queue: Queue, n: nat) returns (written: seq<Byte>)
    requires queue.Valid()
    modifies queue
    ensures queue.Valid() && written + queue.Contents() == old(queue.Contents())
  {
    written := [];
    if queue.chunks != [] {
      var k := Portion(n, |Left(queue.chunks[0])|);
      if k > 0 {
        written := queue.Write(k);
      }
    }
  }

  // client tells a client's socket, read one message at a time, from a server link.
  method ArriveSome(buffer: Buffer, net: seq<Byte>, n: nat, client: bool, maxLength: nat, sizes: nat -> nat,
                    edit: Edit, ghost sent: seq<Message>, ghost queued: seq<Byte>)
    returns (rest: seq<Byte>)
    requires buffer.Valid() && Conserved(sent, buffer.received, net, queued)
    requires forall m <- sent :: Fits(m, client, maxLength)
    modifies buffer, buffer.data
    ensures buffer.Valid() && (fresh(buffer.data) || buffer.data == old(buffer.data))
    ensures Conserved(sent, buffer.received, rest, queued)
  {
    hide Deframe, Wire, Frame, Short, TooLong;
    var k := Portion(n, |net|);
    ghost var before := buffer.received;
    assert net == net[..k] + net[k..];
    rest := net[k..];
    if client {
      var left, ok;
      ghost var taken;
      left, ok, taken := buffer.ReceiveClient(net[..k], sizes, maxLength, true, edit);
      rest := left + rest;
      assert net == taken + rest;
      assert before + (taken + rest + queued) == before + taken + (rest + queued);
      NotTooLong(sent, buffer.received, rest + queued, maxLength);
    } else {
      var ok := buffer.ReceiveServer(net[..k], edit);
      assert before + (net[..k] + rest + queued) == before + net[..k] + (rest + queued);
    }
  }

  // Any interleaving of sending, writing and arriving.
  method Run(events: seq<Event>, client: bool, maxLength: nat, sizes: nat -> nat, edit: Edit)
    returns (seen: seq<Message>, drained: bool)
    requires forall e <- events :: e.Send? ==> Fits(e.message, client, maxLength)
    ensures seen <= Sent(events)
    ensures drained ==> seen == Sent(events)
  {
    hide Deframe, Wire, Frame, Short, Pending, QueueOk;
    var queue := new Queue();
    var buffer := new Buffer();
    var net: seq<Byte> := [];
    WireNothing();
    for i := 0 to |events|
      invariant queue.Valid() && buffer.Valid() && fresh(queue) && fresh(buffer) && fresh(buffer.data)
      invariant forall m <- Sent(events[..i]) :: Fits(m, client, maxLength)
      invariant Conserved(Sent(events[..i]), buffer.received, net, queue.Contents())
    {
      ghost var sent, queued := Sent(events[..i]), queue.Contents();
      assert events[..i + 1][..i] == events[..i];
      match events[i] {
        case Send(m) =>
          queue.SendCmd(m);
          WireMore(sent, m);
          assert buffer.received + (net + queued) + Frame(m) == buffer.received + (net + (queued + Frame(m)));
        case Write(n) =>
          var written := WriteSome(queue, n);
          assert net + (written + queue.Contents()) == net + written + queue.Contents();
          net := net + written;
        case Arrive(n) =>
          net := ArriveSome(buffer, net, n, client, maxLength, sizes, edit, sent, queued);
      }
    }
    assert events[..|events|] == events;
    ArrivedIsPrefix(Sent(events), buffer.received, net + queue.Contents());
    seen, drained := buffer.seen, net == [] && queue.chunks == [];
    if drained {
      PendingNothing();
    }
  }

  lemma PendingNothing()
    ensures Pending([]) == []
  {
  }

  lemma WireNothing()
    ensures Wire([]) == []
  {
  }

  lemma WireMore(ms: seq<Message>, m: Message)
    ensures Wire(ms + [m]) == Wire(ms) + Frame(m)
  {
    assert (ms + [m])[..|ms|] == ms;
  }
}
