/** Every run of one server's search table: connections come and go, the clock moves,
    peers send what they like. Each search that was asked for is ended exactly once. */
module SearchLifetimes {
  import opened Options
  import opened PendingSearches

  datatype Server = Server(servers: seq<Con>, clients: set<Con>, table: seq<DSearch>, now: int)

  datatype Event<H> =
    | Linked(con: Con)
    | Connected(con: Con)
    | Clock(now: int)
    | LocalRequest(con: Con, nick: string, id: string, answer: Answer<H>)
    | RemoteRequest(con: Con, asked: Asked<H>)
    | ResultArrives(id: string, hit: H, userKnown: bool)
    | EndArrives(id: string)
    | Closed(con: Con)

  predicate Enabled<H>(s: Server, e: Event<H>) {
    match e
    case Linked(con) => con.Peer? && con !in s.servers
    case Connected(con) => con.Client?
    case LocalRequest(con, _, _, _) => con in s.clients
    case RemoteRequest(con, _) => con in s.servers
    case Closed(con) => con in s.servers || con in s.clients
    case _ => true
  }

  function Without(servers: seq<Con>, con: Con): seq<Con> {
    if servers == [] then []
    else if servers[0] == con then servers[1..]
    else [servers[0]] + Without(servers[1..], con)
  }

  function Handle<H>(s: Server, e: Event<H>, timeout: int): Reply<H> {
    match e
    case LocalRequest(con, nick, id, answer) => OnSearch(s.table, s.servers, con, nick, id, s.now, answer)
    case RemoteRequest(con, asked) => OnRemoteSearch(s.table, s.servers, con, s.now, asked)
    case ResultArrives(id, hit, userKnown) => OnResult(s.table, id, hit, userKnown, s.now, timeout)
    case EndArrives(id) => OnEnd(s.table, id, s.now, timeout)
    case Closed(con) => OnClose(s.table, con)
    case _ => Reply(s.table, [])
  }

  function Next<H>(s: Server, e: Event<H>, timeout: int): Server {
    var s' := s.(table := Handle(s, e, timeout).table);
    match e
    case Linked(con) => s'.(servers := s.servers + [con])
    case Connected(con) => s'.(clients := s.clients + {con})
    case Clock(now) => s'.(now := now)
    case Closed(con) => s'.(servers := Without(s.servers, con), clients := s.clients - {con})
    case _ => s'
  }

  // --- What always holds ----------------------------------------------------------

  predicate Live(s: Server, con: Con) {
    con in s.servers || con in s.clients
  }

  // An entry still waits for at least one answer, never for more than there are
  // peers, and somebody is there to be told.
  predicate EntryOk(s: Server, d: DSearch) {
    0 <= d.count < d.numServers <= |s.servers| && Live(s, d.con)
  }

  predicate NoTwins(servers: seq<Con>) {
    servers == [] || (servers[0] !in servers[1..] && NoTwins(servers[1..]))
  }

  predicate Sound(s: Server) {
    && NoTwins(s.servers)
    && (forall con :: con in s.servers ==> con.Peer?)
    && (forall con :: con in s.clients ==> con.Client?)
    && forall d :: d in s.table ==> EntryOk(s, d)
  }

  lemma {:induction false} WithoutIsGone(servers: seq<Con>, con: Con)
    requires NoTwins(servers)
    ensures NoTwins(Without(servers, con)) && con !in Without(servers, con)
    ensures forall c :: c != con ==> (c in Without(servers, con) <==> c in servers)
    ensures |Without(servers, con)| == |servers| - (if con in servers then 1 else 0)
  {
    if servers != [] {
      WithoutIsGone(servers[1..], con);
    }
  }

  lemma {:induction false} AddedHasNoTwin(servers: seq<Con>, con: Con)
    requires NoTwins(servers) && con !in servers
    ensures NoTwins(servers + [con])
  {
    if servers != [] {
      AddedHasNoTwin(servers[1..], con);
      assert (servers + [con])[1..] == servers[1..] + [con];
    }
  }

  lemma {:induction false} FindKeepsEntries<H>(table: seq<DSearch>, id: string, now: int, timeout: int)
    ensures forall d :: d in Find<H>(table, id, now, timeout).table ==> d in table
  {
    if table != [] && table[0].id != id {
      FindKeepsEntries<H>(table[1..], id, now, timeout);
    }
  }

  lemma {:induction false} CloseKeepsEntries<H>(table: seq<DSearch>, closing: Con)
    ensures forall d :: d in OnClose<H>(table, closing).table ==>
              exists d0 :: d0 in table && d == Fewer(d0, closing) && !Leaves(d0, closing)
  {
    if table != [] {
      CloseKeepsEntries<H>(table[1..], closing);
    }
  }

  lemma EndKeepsEntries<H>(table: seq<DSearch>, id: string, now: int, timeout: int)
    ensures forall d :: d in OnEnd<H>(table, id, now, timeout).table ==>
              d in table || exists d0 :: d0 in table && d == d0.(count := d0.count + 1) && d.count != d.numServers
  {
    FindKeepsEntries<H>(table, id, now, timeout);
    var scan: Scan<H> := Find(table, id, now, timeout);
    if scan.at != -1 {
      assert scan.table[scan.at] in scan.table;
    }
  }

  // Every event keeps the table sound.
  lemma StaysSound<H>(s: Server, e: Event<H>, timeout: int)
    requires Sound(s) && Enabled(s, e)
    ensures Sound(Next(s, e, timeout))
  {
    match e
    case Linked(con) => AddedHasNoTwin(s.servers, con);
    case ResultArrives(id, _, _) => FindKeepsEntries<H>(s.table, id, s.now, timeout);
    case EndArrives(id) => EndKeepsEntries<H>(s.table, id, s.now, timeout);
    case Closed(con) =>
      WithoutIsGone(s.servers, con);
      CloseKeepsEntries<H>(s.table, con);
    case _ =>
  }

  // --- Every request is ended exactly once ------------------------------------------
  // Counted for one end packet at a time: how often was it sent, owed, asked for?

  predicate IsEnd<H>(p: Packet<H>) {
    p.msg.SearchEnd? || p.msg.RemoteEnd?
  }

  function Times<H(==)>(sent: seq<Packet<H>>, p: Packet<H>): nat {
    if sent == [] then 0
    else
      var rest := Times(sent[1..], p);
      if sent[0] == p then 1 + rest else rest
  }

  // The ends still owed for the searches in a table.
  function Owed<H(==)>(table: seq<DSearch>, p: Packet<H>): nat {
    if table == [] then 0
    else
      var rest := Owed(table[1..], p);
      if EndTo<H>(table[0].con, table[0].id) == p then 1 + rest else rest
  }

  // The end a request asks for.
  function Wants<H>(e: Event<H>): Option<Packet<H>> {
    match e
    case LocalRequest(con, _, id, _) => Some(EndTo<H>(con, id))
    case RemoteRequest(con, TooShort(None)) => None
    case RemoteRequest(con, TooShort(Some(id))) => Some(EndTo<H>(con, id))
    case RemoteRequest(con, UnknownUser(id)) => Some(EndTo<H>(con, id))
    case RemoteRequest(con, Known(_, id, _)) => Some(EndTo<H>(con, id))
    case _ => None
  }

  function Requested<H(==)>(e: Event<H>, p: Packet<H>): nat {
    if Wants(e) == Some(p) then 1 else 0
  }

  // Ends nobody is left to receive.
  function Forgiven<H(==)>(s: Server, e: Event<H>, p: Packet<H>): nat {
    if e == Closed(p.to) then Owed(s.table, p) else 0
  }

  lemma {:induction false} TimesInBoth<H>(a: seq<Packet<H>>, b: seq<Packet<H>>, p: Packet<H>)
    ensures Times(a + b, p) == Times(a, p) + Times(b, p)
  {
    if a == [] {
      assert a + b == b;
    } else {
      TimesInBoth(a[1..], b, p);
      assert (a + b)[1..] == a[1..] + b;
    }
  }

  lemma {:induction false} OwedInBoth<H>(a: seq<DSearch>, b: seq<DSearch>, p: Packet<H>)
    ensures Owed(a + b, p) == Owed(a, p) + Owed(b, p)
  {
    if a == [] {
      assert a + b == b;
    } else {
      OwedInBoth(a[1..], b, p);
      assert (a + b)[1..] == a[1..] + b;
    }
  }

  lemma {:induction false} NeverIn<H>(sent: seq<Packet<H>>, p: Packet<H>)
    requires p !in sent
    ensures Times(sent, p) == 0
  {
    if sent != [] {
      NeverIn(sent[1..], p);
    }
  }

  lemma {:induction false} PassMessageSends<H>(servers: seq<Con>, con: Con, msg: Msg<H>)
    ensures forall p :: p in PassMessage(servers, con, msg) ==> p.msg == msg && p.to in servers && p.to != con
  {
    if servers != [] {
      PassMessageSends(servers[1..], con, msg);
    }
  }

  lemma {:induction false} FindSettles<H>(table: seq<DSearch>, id: string, now: int, timeout: int, p: Packet<H>)
    ensures var r: Scan<H> := Find(table, id, now, timeout);
            Times(r.sent, p) + Owed(r.table, p) == Owed(table, p)
  {
    if table != [] && table[0].id != id {
      FindSettles(table[1..], id, now, timeout, p);
      var r: Scan<H> := Find(table[1..], id, now, timeout);
      assert ([table[0]] + r.table)[1..] == r.table;
      assert ([EndTo<H>(table[0].con, table[0].id)] + r.sent)[1..] == r.sent;
    }
  }

  lemma {:induction false} CloseSettles<H>(table: seq<DSearch>, closing: Con, p: Packet<H>)
    ensures var r: Reply<H> := OnClose(table, closing);
            Times(r.sent, p) + Owed(r.table, p) + (if closing == p.to then Owed(table, p) else 0) == Owed(table, p)
  {
    if table != [] {
      CloseSettles(table[1..], closing, p);
      var d, r: Reply<H> := table[0], OnClose(table[1..], closing);
      assert ([Fewer(d, closing)] + r.table)[1..] == r.table;
      assert ([EndTo<H>(d.con, d.id)] + r.sent)[1..] == r.sent;
    }
  }

  lemma SearchSettles<H>(table: seq<DSearch>, servers: seq<Con>, con: Con, nick: string, id: string, now: int,
                         a: Answer<H>, p: Packet<H>)
    requires IsEnd(p)
    ensures var r := OnSearch(table, servers, con, nick, id, now, a);
            Times(r.sent, p) + Owed(r.table, p) == Owed(table, p) + (if EndTo<H>(con, id) == p then 1 else 0)
  {
    if a.Searched? {
      var results := Deliver(con, id, a.hits);
      NeverIn(results, p);
      TimesInBoth(results, [EndTo<H>(con, id)], p);
      if AsksOthers(servers, con, a) {
        var asking := PassMessage(servers, con, RemoteSearch(nick, id, a.request));
        PassMessageSends<H>(servers, con, RemoteSearch(nick, id, a.request));
        NeverIn(asking, p);
        TimesInBoth(results, asking, p);
        OwedInBoth(table, [Entered<H>(servers, con, nick, id, now)], p);
      }
    }
  }

  lemma ResultSettles<H>(table: seq<DSearch>, id: string, hit: H, userKnown: bool, now: int, timeout: int, p: Packet<H>)
    requires IsEnd(p)
    ensures var r := OnResult(table, id, hit, userKnown, now, timeout);
            Times(r.sent, p) + Owed(r.table, p) == Owed(table, p)
  {
    FindSettles(table, id, now, timeout, p);
    var scan: Scan<H> := Find(table, id, now, timeout);
    if scan.at != -1 {
      TimesInBoth(scan.sent, [ResultTo(scan.table[scan.at].con, id, hit)], p);
    }
  }

  lemma SwapEntry<H>(table: seq<DSearch>, at: nat, d: DSearch, p: Packet<H>)
    requires at < |table|
    ensures Owed(table, p) == Owed(table[..at], p) + Owed(table[at + 1..], p)
                              + (if EndTo<H>(table[at].con, table[at].id) == p then 1 else 0)
    ensures Owed(table[..at] + table[at + 1..], p) == Owed(table[..at], p) + Owed(table[at + 1..], p)
    ensures d.con == table[at].con && d.id == table[at].id ==> Owed(table[at := d], p) == Owed(table, p)
  {
    var before, after := table[..at], table[at + 1..];
    assert table == before + ([table[at]] + after);
    assert table[at := d] == before + ([d] + after);
    assert ([table[at]] + after)[1..] == after && ([d] + after)[1..] == after;
    OwedInBoth(before, [table[at]] + after, p);
    OwedInBoth(before, [d] + after, p);
    OwedInBoth(before, after, p);
  }

  lemma OneEnd<H>(p: Packet<H>)
    ensures forall q: Packet<H> :: Times([q], p) == if q == p then 1 else 0
  {}

  lemma EndSettles<H>(table: seq<DSearch>, id: string, now: int, timeout: int, p: Packet<H>)
    ensures var r: Reply<H> := OnEnd(table, id, now, timeout);
            Times(r.sent, p) + Owed(r.table, p) == Owed(table, p)
  {
    hide Find, Times, Owed;
    FindSettles(table, id, now, timeout, p);
    OneEnd(p);
    var scan: Scan<H> := Find(table, id, now, timeout);
    if scan.at != -1 {
      var d := scan.table[scan.at];
      SwapEntry(scan.table, scan.at, d.(count := d.count + 1), p);
      TimesInBoth(scan.sent, [EndTo<H>(d.con, d.id)], p);
    }
  }

  // What is asked for and what is sent balance at every event.
  lemma EventSettles<H>(s: Server, e: Event<H>, timeout: int, p: Packet<H>)
    requires Sound(s) && Enabled(s, e) && IsEnd(p)
    ensures Times(Handle(s, e, timeout).sent, p) + Owed(Next(s, e, timeout).table, p) + Forgiven(s, e, p)
         == Owed(s.table, p) + Requested(e, p)
  {
    match e
    case LocalRequest(con, nick, id, answer) => SearchSettles(s.table, s.servers, con, nick, id, s.now, answer, p);
    case RemoteRequest(con, Known(nick, id, answer)) => SearchSettles(s.table, s.servers, con, nick, id, s.now, answer, p);
    case RemoteRequest(con, asked) =>
    case ResultArrives(id, hit, userKnown) => ResultSettles(s.table, id, hit, userKnown, s.now, timeout, p);
    case EndArrives(id) => EndSettles(s.table, id, s.now, timeout, p);
    case Closed(con) => CloseSettles(s.table, con, p);
    case _ =>
  }

  // --- Whole runs ----------------------------------------------------------------------

  function ServerAfter<H>(events: seq<Event<H>>, timeout: int): Server {
    if events == [] then Server([], {}, [], 0)
    else Next(ServerAfter(events[..|events| - 1], timeout), events[|events| - 1], timeout)
  }

  function SentBy<H>(events: seq<Event<H>>, timeout: int): seq<Packet<H>> {
    if events == [] then []
    else
      var rest := events[..|events| - 1];
      SentBy(rest, timeout) + Handle(ServerAfter(rest, timeout), events[|events| - 1], timeout).sent
  }

  function RequestedBy<H(==)>(events: seq<Event<H>>, p: Packet<H>): nat {
    if events == [] then 0 else RequestedBy(events[..|events| - 1], p) + Requested(events[|events| - 1], p)
  }

  function ForgivenBy<H(==)>(events: seq<Event<H>>, timeout: int, p: Packet<H>): nat {
    if events == [] then 0
    else
      var rest := events[..|events| - 1];
      ForgivenBy(rest, timeout, p) + Forgiven(ServerAfter(rest, timeout), events[|events| - 1], p)
  }

  // Every event of the run can happen where it does.
  predicate Possible<H>(events: seq<Event<H>>, timeout: int) {
    events == [] || (
      var rest := events[..|events| - 1];
      Possible(rest, timeout) && Enabled(ServerAfter(rest, timeout), events[|events| - 1]))
  }

  lemma {:induction false} AlwaysSound<H>(events: seq<Event<H>>, timeout: int)
    requires Possible(events, timeout)
    ensures Sound(ServerAfter(events, timeout))
  {
    if events != [] {
      var rest := events[..|events| - 1];
      AlwaysSound(rest, timeout);
      StaysSound(ServerAfter(rest, timeout), events[|events| - 1], timeout);
    }
  }

  // Over every run every end asked for has been sent once, or is still owed, or went
  // with the connection that asked.
  lemma {:induction false} EveryRequestEndsOnce<H>(events: seq<Event<H>>, timeout: int, p: Packet<H>)
    requires Possible(events, timeout) && IsEnd(p)
    ensures Times(SentBy(events, timeout), p) + Owed(ServerAfter(events, timeout).table, p) + ForgivenBy(events, timeout, p)
         == RequestedBy(events, p)
    ensures Closed(p.to) !in events ==> ForgivenBy(events, timeout, p) == 0
  {
    if events != [] {
      var rest, e := events[..|events| - 1], events[|events| - 1];
      var s := ServerAfter(rest, timeout);
      EveryRequestEndsOnce(rest, timeout, p);
      AlwaysSound(rest, timeout);
      EventSettles(s, e, timeout, p);
      TimesInBoth(SentBy(rest, timeout), Handle(s, e, timeout).sent, p);
      assert e in events;
      assert forall x :: x in rest ==> x in events;
    }
  }
}
