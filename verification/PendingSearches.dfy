/** search.c: one server's table of searches that wait for answers from its peers. */
module PendingSearches {
  import opened Options

  // A connection is a client of this server or a link to a peer server.
  datatype Con = Client(n: nat) | Peer(n: nat)

  datatype DSearch = DSearch(
    con: Con,          // who asked
    nick: string,
    id: string,
    count: int,        // peers that have answered
    numServers: int,   // peers that were asked
    timestamp: int)

  datatype Msg<H> =
    | SearchEnd
    | SearchResult(hit: H)
    | RemoteSearch(nick: string, id: string, request: string)
    | RemoteResult(id: string, hit: H)
    | RemoteEnd(id: string)

  datatype Packet<H> = Packet(to: Con, msg: Msg<H>)

  // What the parser and the local file index made of a request.
  datatype Answer<H> =
    | Refused
    | Searched(maxResults: int, localOnly: bool, hits: seq<H>, request: string)

  // What remote_search() finds in the message it is handed.
  datatype Asked<H> =
    | TooShort(partialId: Option<string>)
    | UnknownUser(strayId: string)
    | Known(nick: string, id: string, answer: Answer<H>)

  datatype Reply<H> = Reply(table: seq<DSearch>, sent: seq<Packet<H>>)

  datatype Scan<H> = Scan(table: seq<DSearch>, at: int, sent: seq<Packet<H>>)

  // --- What the handlers compute ------------------------------------------------

  function EndTo<H>(con: Con, id: string): Packet<H> {
    Packet(con, if con.Client? then SearchEnd else RemoteEnd(id))
  }

  function ResultTo<H>(con: Con, id: string, hit: H): Packet<H> {
    Packet(con, if con.Client? then SearchResult(hit) else RemoteResult(id, hit))
  }

  function Deliver<H>(con: Con, id: string, hits: seq<H>): seq<Packet<H>> {
    seq(|hits|, i requires 0 <= i < |hits| => ResultTo(con, id, hits[i]))
  }

  // pass_message(): to every server but the one it came from.
  function PassMessage<H>(servers: seq<Con>, con: Con, msg: Msg<H>): seq<Packet<H>> {
    if servers == [] then []
    else
      var rest := PassMessage(servers[1..], con, msg);
      if servers[0] != con then [Packet(servers[0], msg)] + rest else rest
  }

  predicate Expired(d: DSearch, now: int, timeout: int) {
    d.timestamp + timeout < now
  }

  // Everything stale in front of the entry looked for is ended and dropped.
  function Find<H>(table: seq<DSearch>, id: string, now: int, timeout: int): (r: Scan<H>)
    ensures r.at == -1 || (0 <= r.at < |r.table| && r.table[r.at].id == id)
    ensures |r.table| <= |table|
  {
    if table == [] then Scan([], -1, [])
    else if table[0].id == id then Scan(table, 0, [])
    else
      var r: Scan<H> := Find(table[1..], id, now, timeout);
      if Expired(table[0], now, timeout) then
        Scan(r.table, r.at, [EndTo(table[0].con, table[0].id)] + r.sent)
      else
        Scan([table[0]] + r.table, if r.at == -1 then -1 else r.at + 1, r.sent)
  }

  predicate AsksOthers<H>(servers: seq<Con>, con: Con, a: Answer<H>) {
    && a.Searched?
    && |a.hits| < a.maxResults
    && !a.localOnly
    && (if con.Peer? then |servers| > 1 else servers != [])
  }

  function Entered<H>(servers: seq<Con>, con: Con, nick: string, id: string, now: int): DSearch {
    DSearch(con, nick, id, 0, if con.Peer? then |servers| - 1 else |servers|, now)
  }

  function OnSearch<H>(table: seq<DSearch>, servers: seq<Con>, con: Con, nick: string, id: string,
                       now: int, a: Answer<H>): Reply<H> {
    match a
    case Refused => Reply(table, [EndTo(con, id)])
    case Searched(_, _, hits, request) =>
      if AsksOthers(servers, con, a) then
        Reply(table + [Entered<H>(servers, con, nick, id, now)],
              Deliver(con, id, hits) + PassMessage(servers, con, RemoteSearch(nick, id, request)))
      else
        Reply(table, Deliver(con, id, hits) + [EndTo(con, id)])
  }

  function OnRemoteSearch<H>(table: seq<DSearch>, servers: seq<Con>, con: Con, now: int, asked: Asked<H>): Reply<H> {
    match asked
    case TooShort(None) => Reply(table, [])
    case TooShort(Some(id)) => Reply(table, [Packet(con, RemoteEnd(id))])
    case UnknownUser(id) => Reply(table, [Packet(con, RemoteEnd(id))])
    case Known(nick, id, answer) => OnSearch(table, servers, con, nick, id, now, answer)
  }

  function OnResult<H>(table: seq<DSearch>, id: string, hit: H, userKnown: bool, now: int, timeout: int): Reply<H> {
    var scan: Scan<H> := Find(table, id, now, timeout);
    if scan.at == -1 || (scan.table[scan.at].con.Client? && !userKnown) then Reply(scan.table, scan.sent)
    else Reply(scan.table, scan.sent + [ResultTo(scan.table[scan.at].con, id, hit)])
  }

  function OnEnd<H>(table: seq<DSearch>, id: string, now: int, timeout: int): Reply<H> {
    var scan: Scan<H> := Find(table, id, now, timeout);
    if scan.at == -1 then Reply(scan.table, scan.sent)
    else
      var d := scan.table[scan.at];
      if d.count + 1 == d.numServers then
        Reply(scan.table[..scan.at] + scan.table[scan.at + 1..], scan.sent + [EndTo(d.con, d.id)])
      else
        Reply(scan.table[scan.at := d.(count := d.count + 1)], scan.sent)
  }

  // One fewer answer to wait for when the closing connection is a server's.
  function Fewer(d: DSearch, closing: Con): DSearch {
    if closing.Peer? then d.(numServers := d.numServers - 1) else d
  }

  predicate Leaves(d: DSearch, closing: Con) {
    d.con == closing || Fewer(d, closing).count >= Fewer(d, closing).numServers
  }

  function OnClose<H>(table: seq<DSearch>, closing: Con): Reply<H> {
    if table == [] then Reply([], [])
    else
      var d := table[0];
      var rest: Reply<H> := OnClose(table[1..], closing);
      if !Leaves(d, closing) then rest.(table := [Fewer(d, closing)] + rest.table)
      else if d.con == closing then rest
      else rest.(sent := [EndTo(d.con, d.id)] + rest.sent)
  }

  // --- The handlers -----------------------------------------------------------------

  class Searches<H> {
    const timeout: int
    var servers: seq<Con>
    var remoteSearch: seq<DSearch>
    var currentTime: int
    var outbox: seq<Packet<H>>

    constructor (searchTimeout: int)
      ensures timeout == searchTimeout && servers == [] && remoteSearch == [] && outbox == []
    {
      timeout := searchTimeout;
      servers, remoteSearch, outbox := [], [], [];
    }

    method FindSearch(id: string) returns (at: int)
      modifies `remoteSearch, `outbox
      ensures FoundBy(Find(old(remoteSearch), id, currentTime, timeout), old(outbox), at, remoteSearch, outbox)
    {
      hide Find, EndTo, ScanGoesOn, FoundBy;
      var list := 0;
      ghost var was := Find<H>(remoteSearch, id, currentTime, timeout);
      ghost var out := outbox;
      ScanStarts<H>(was, out);
      assert remoteSearch[0..] == remoteSearch && remoteSearch[..0] == [];
      while list < |remoteSearch|
        invariant 0 <= list <= |remoteSearch|
        invariant ScanGoesOn(was, out, remoteSearch[..list], Find(remoteSearch[list..], id, currentTime, timeout), outbox)
        decreases |remoteSearch| - list
      {
        var ds := remoteSearch[list];
        ghost var rest := remoteSearch[list..];
        if ds.id == id {
          assert remoteSearch[..list] + rest == remoteSearch;
          ScanStops<H>(was, out, remoteSearch[..list], rest, id, currentTime, timeout, outbox);
          return list;
        }
        ScanOne(was, out, remoteSearch[..list], rest, id, currentTime, timeout, outbox);
        if ds.timestamp + timeout < currentTime {
          outbox := outbox + [EndTo(ds.con, ds.id)];
          remoteSearch := Unlinked(remoteSearch, list);
        } else {
          assert remoteSearch[..list + 1] == remoteSearch[..list] + [ds];
          list := list + 1;
        }
      }
      assert remoteSearch[list..] == [] && remoteSearch[..list] + [] == remoteSearch;
      ScanStops<H>(was, out, remoteSearch[..list], [], id, currentTime, timeout, outbox);
      at := -1;
    }

    // pass_message_args(): queue a message for every peer but one.
    method PassToServers(con: Con, msg: Msg<H>)
      modifies `outbox
      ensures outbox == old(outbox) + PassMessage(servers, con, msg)
    {
      var list := 0;
      while list < |servers|
        invariant 0 <= list <= |servers|
        invariant outbox + PassMessage(servers[list..], con, msg) == old(outbox) + PassMessage(servers, con, msg)
      {
        assert servers[list..][1..] == servers[list + 1..];
        if servers[list] != con {
          outbox := outbox + [Packet(servers[list], msg)];
        }
        list := list + 1;
      }
    }

    // search_internal(), after the request has been parsed and looked up locally.
    method SearchInternal(con: Con, nick: string, id: string, answer: Answer<H>)
      modifies `remoteSearch, `outbox
      ensures ReplyIs(OnSearch(old(remoteSearch), servers, con, nick, id, currentTime, answer), old(outbox), remoteSearch, outbox)
    {
      var done := true;
      if answer.Searched? {
        var n := |answer.hits|;
        outbox := outbox + Deliver(con, id, answer.hits);
        if n < answer.maxResults && !answer.localOnly
           && ((con.Peer? && |servers| > 1) || (con.Client? && servers != [])) {
          var numServers := |servers|;
          if con.Peer? {
            numServers := numServers - 1;
          }
          remoteSearch := remoteSearch + [DSearch(con, nick, id, 0, numServers, currentTime)];
          PassToServers(con, RemoteSearch(nick, id, answer.request));
          done := false;
        }
      }
      if done {
        outbox := outbox + [if con.Client? then Packet(con, SearchEnd) else Packet(con, RemoteEnd(id))];
      }
    }

    method RemoteSearchRequest(con: Con, asked: Asked<H>)
      requires con.Peer?
      modifies `remoteSearch, `outbox
      ensures ReplyIs(OnRemoteSearch(old(remoteSearch), servers, con, currentTime, asked), old(outbox), remoteSearch, outbox)
    {
      match asked {
        case TooShort(partialId) =>
          if partialId.Some? {
            outbox := outbox + [Packet(con, RemoteEnd(partialId.value))];
          }
        case UnknownUser(strayId) =>
          outbox := outbox + [Packet(con, RemoteEnd(strayId))];
        case Known(nick, id, answer) =>
          SearchInternal(con, nick, id, answer);
      }
    }

    // A line that does not split into eight fields is dropped.
    method RemoteSearchResult(fields: nat, id: string, hit: H, userKnown: bool)
      modifies `remoteSearch, `outbox
      ensures fields != 8 ==> remoteSearch == old(remoteSearch) && outbox == old(outbox)
      ensures fields == 8 ==>
        ReplyIs(OnResult(old(remoteSearch), id, hit, userKnown, currentTime, timeout), old(outbox), remoteSearch, outbox)
    {
      if fields != 8 {
        return;
      }
      var at := FindSearch(id);
      if at != -1 {
        var search := remoteSearch[at];
        if search.con.Client? {
          if userKnown {
            outbox := outbox + [Packet(search.con, SearchResult(hit))];
          }
        } else {
          outbox := outbox + [Packet(search.con, RemoteResult(id, hit))];
        }
      }
    }

    method RemoteSearchEnd(id: string)
      modifies `remoteSearch, `outbox
      ensures ReplyIs(OnEnd(old(remoteSearch), id, currentTime, timeout), old(outbox), remoteSearch, outbox)
    {
      var at := FindSearch(id);
      if at != -1 {
        var search := remoteSearch[at];
        search := search.(count := search.count + 1);
        remoteSearch := remoteSearch[at := search];
        if search.count == search.numServers {
          outbox := outbox + [EndTo(search.con, search.id)];
          remoteSearch := remoteSearch[..at] + remoteSearch[at + 1..];
        }
      }
    }

    method CancelSearch(closing: Con)
      modifies `remoteSearch, `outbox
      ensures ReplyIs(OnClose(old(remoteSearch), closing), old(outbox), remoteSearch, outbox)
    {
      var list := 0;
      ghost var was := OnClose<H>(remoteSearch, closing);
      ghost var out := outbox;
      while list < |remoteSearch|
        invariant 0 <= list <= |remoteSearch|
        invariant CloseGoesOn(was, out, remoteSearch[..list], OnClose(remoteSearch[list..], closing), outbox)
        decreases |remoteSearch| - list
      {
        var d := remoteSearch[list];
        CloseOne(was, out, remoteSearch[..list], remoteSearch[list..], closing, outbox);
        if closing.Peer? {
          d := d.(numServers := d.numServers - 1);
        }
        if d.con == closing || d.count >= d.numServers {
          if d.con != closing {
            outbox := outbox + [EndTo(d.con, d.id)];
          }
          remoteSearch := Unlinked(remoteSearch, list);
        } else {
          remoteSearch := Stored(remoteSearch, list, d);
          list := list + 1;
        }
      }
    }
  }

  ghost predicate ReplyIs<H>(r: Reply<H>, out: seq<Packet<H>>, table: seq<DSearch>, outbox: seq<Packet<H>>) {
    table == r.table && outbox == out + r.sent
  }

  function Stored(table: seq<DSearch>, i: nat, d: DSearch): (r: seq<DSearch>)
    requires i < |table|
    ensures |r| == |table| && r[..i + 1] == table[..i] + [d] && r[i + 1..] == table[i..][1..]
  {
    table[i := d]
  }

  ghost predicate CloseGoesOn<H>(was: Reply<H>, out: seq<Packet<H>>, kept: seq<DSearch>, rest: Reply<H>, outbox: seq<Packet<H>>) {
    was.table == kept + rest.table && out + was.sent == outbox + rest.sent
  }

  lemma CloseOne<H>(was: Reply<H>, out: seq<Packet<H>>, kept: seq<DSearch>, rest: seq<DSearch>, closing: Con,
                    outbox: seq<Packet<H>>)
    requires rest != [] && CloseGoesOn(was, out, kept, OnClose(rest, closing), outbox)
    ensures var d := rest[0]; var tail := OnClose<H>(rest[1..], closing);
            if !Leaves(d, closing) then CloseGoesOn(was, out, kept + [Fewer(d, closing)], tail, outbox)
            else if d.con == closing then CloseGoesOn(was, out, kept, tail, outbox)
            else CloseGoesOn(was, out, kept, tail, outbox + [EndTo(d.con, d.id)])
  {}

  // The list without the node at i.
  function Unlinked(table: seq<DSearch>, i: nat): (r: seq<DSearch>)
    requires i < |table|
    ensures |r| == |table| - 1 && r[..i] == table[..i] && r[i..] == table[i..][1..]
  {
    table[..i] + table[i + 1..]
  }

  ghost predicate FoundBy<H>(scan: Scan<H>, out: seq<Packet<H>>, at: int, table: seq<DSearch>, outbox: seq<Packet<H>>) {
    at == scan.at && table == scan.table && outbox == out + scan.sent
  }

  ghost predicate ScanGoesOn<H>(was: Scan<H>, out: seq<Packet<H>>, kept: seq<DSearch>, rest: Scan<H>, outbox: seq<Packet<H>>) {
    && was.table == kept + rest.table
    && was.at == (if rest.at == -1 then -1 else |kept| + rest.at)
    && out + was.sent == outbox + rest.sent
  }

  lemma ScanStarts<H>(was: Scan<H>, out: seq<Packet<H>>)
    ensures ScanGoesOn(was, out, [], was, out)
  {}

  lemma ScanStops<H>(was: Scan<H>, out: seq<Packet<H>>, kept: seq<DSearch>, rest: seq<DSearch>, id: string,
                     now: int, timeout: int, outbox: seq<Packet<H>>)
    requires (rest == [] || rest[0].id == id) && ScanGoesOn(was, out, kept, Find(rest, id, now, timeout), outbox)
    ensures FoundBy(was, out, if rest == [] then -1 else |kept|, kept + rest, outbox)
  {}

  lemma ScanOne<H>(was: Scan<H>, out: seq<Packet<H>>, kept: seq<DSearch>, rest: seq<DSearch>, id: string,
                   now: int, timeout: int, outbox: seq<Packet<H>>)
    requires rest != [] && rest[0].id != id
    requires ScanGoesOn(was, out, kept, Find(rest, id, now, timeout), outbox)
    ensures if Expired(rest[0], now, timeout)
            then ScanGoesOn(was, out, kept, Find(rest[1..], id, now, timeout), outbox + [EndTo(rest[0].con, rest[0].id)])
            else ScanGoesOn(was, out, kept + [rest[0]], Find(rest[1..], id, now, timeout), outbox)
  {}

  // Of these entries exactly those that have waited longer than the timeout are gone, and each of their
  // requesters gets an end.
  ghost predicate Expires<H>(before: seq<DSearch>, kept: seq<DSearch>, sent: seq<Packet<H>>, now: int, timeout: int) {
    && |kept| + |sent| == |before|
    && (forall d <- kept :: d in before && d.timestamp + timeout >= now)
    && forall d <- before :: if d.timestamp + timeout >= now then d in kept
                             else Packet(d.con, if d.con.Client? then SearchEnd else RemoteEnd(d.id)) in sent
  }

  lemma ExpiresOne<H>(d: DSearch, before: seq<DSearch>, kept: seq<DSearch>, sent: seq<Packet<H>>, now: int, timeout: int)
    requires Expires(before, kept, sent, now, timeout)
    ensures Expires([d] + before, if Expired(d, now, timeout) then kept else [d] + kept,
                    if Expired(d, now, timeout) then [EndTo<H>(d.con, d.id)] + sent else sent, now, timeout)
  {}

  // What the scan for a search does: it stops at the first entry of that id, in place k of the old list;
  // in front of it whatever is too old goes, and from it on nothing changes.
  lemma {:induction false} FindIs<H>(table: seq<DSearch>, id: string, now: int, timeout: int) returns (k: nat, kept: seq<DSearch>)
    ensures k <= |table| && (k < |table| ==> table[k].id == id) && forall i :: 0 <= i < k ==> table[i].id != id
    ensures var r: Scan<H> := Find(table, id, now, timeout);
      && r.table == kept + table[k..] && r.at == (if k == |table| then -1 else |kept|)
      && Expires(table[..k], kept, r.sent, now, timeout)
  {
    hide Find, Expires, Expired, EndTo;
    if table == [] || table[0].id == id {
      k, kept := 0, [];
      FindHere<H>(table, id, now, timeout);
    } else {
      k, kept := FindIs<H>(table[1..], id, now, timeout);
      var r: Scan<H> := Find(table[1..], id, now, timeout);
      FindOn<H>(table, id, now, timeout);
      ExpiresOne(table[0], table[1..][..k], kept, r.sent, now, timeout);
      k := k + 1;
      assert table[..k] == [table[0]] + table[1..][..k - 1] && table[k..] == table[1..][k - 1..];
      if !Expired(table[0], now, timeout) {
        assert [table[0]] + (kept + table[k..]) == ([table[0]] + kept) + table[k..];
        kept := [table[0]] + kept;
      }
    }
  }

  lemma FindHere<H>(table: seq<DSearch>, id: string, now: int, timeout: int)
    requires table == [] || table[0].id == id
    ensures Find<H>(table, id, now, timeout) == Scan([] + table, if table == [] then -1 else 0, [])
    ensures Expires<H>(table[..0], [], [], now, timeout)
  {}

  lemma FindOn<H>(table: seq<DSearch>, id: string, now: int, timeout: int)
    requires table != [] && table[0].id != id
    ensures var r: Scan<H> := Find(table[1..], id, now, timeout);
      Find(table, id, now, timeout) ==
        if Expired(table[0], now, timeout) then Scan(r.table, r.at, [EndTo(table[0].con, table[0].id)] + r.sent)
        else Scan([table[0]] + r.table, if r.at == -1 then -1 else r.at + 1, r.sent)
  {}

  // The answers entry e still waits for, counted from the first, when this connection closes.
  function Awaited(e: DSearch, closing: Con): int {
    if closing.Peer? then e.numServers - 1 else e.numServers
  }

  predicate StaysAs(e: DSearch, closing: Con, d: DSearch) {
    e.con != closing && e.count < Awaited(e, closing) && d == e.(numServers := Awaited(e, closing))
  }

  predicate EndedBy<H(==)>(e: DSearch, closing: Con, p: Packet<H>) {
    e.con != closing && e.count >= Awaited(e, closing) && p == Packet(e.con, if e.con.Client? then SearchEnd else RemoteEnd(e.id))
  }

  // What a closing connection does: its own searches go without a word. When it is a peer, all others
  // wait for one answer fewer; those that have all their answers then are ended, and nobody else
  // notices anything.
  lemma {:induction false} CloseIs<H>(table: seq<DSearch>, closing: Con)
    ensures var r: Reply<H> := OnClose(table, closing);
      && (forall d :: d in r.table <==> exists e :: e in table && StaysAs(e, closing, d))
      && (forall p :: p in r.sent <==> exists e :: e in table && EndedBy(e, closing, p))
  {
    hide StaysAs, EndedBy;
    if table != [] {
      CloseIs<H>(table[1..], closing);
      HeadCloses<H>(table, closing);
      assert forall e :: e in table <==> e == table[0] || e in table[1..];
    }
  }

  lemma HeadCloses<H>(table: seq<DSearch>, closing: Con)
    requires table != []
    ensures var r: Reply<H> := OnClose(table, closing); var rest: Reply<H> := OnClose(table[1..], closing);
      && (forall d :: d in r.table <==> d in rest.table || StaysAs(table[0], closing, d))
      && (forall p :: p in r.sent <==> p in rest.sent || EndedBy(table[0], closing, p))
  {}
}
