/** search.c: which searches go further than the server they have come to, and which stay at home. */
module HomeSearch {
  import opened QueryText
  import opened FileDb
  import opened PendingSearches
  import opened SearchCluster
  import opened WholeSearch
  import T = SearchTree
  import L = SearchLifetimes

  // --- Packets by address -------------------------------------------------------------------

  function Results<H>(id: string, hits: seq<H>): seq<Msg<H>> {
    seq(|hits|, i requires 0 <= i < |hits| => RemoteResult(id, hits[i]))
  }

  lemma {:induction false} DeliverTo<H>(con: Con, id: string, hits: seq<H>, z: nat)
    ensures AddressedTo(Deliver(con, id, hits), Peer(z)) == if con == Peer(z) then Results(id, hits) else []
  {
    if hits != [] {
      DeliverTo(con, id, hits[1..], z);
      assert Deliver(con, id, hits)[1..] == Deliver(con, id, hits[1..]);
      assert Results(id, hits) == [RemoteResult(id, hits[0])] + Results(id, hits[1..]);
    }
  }

  lemma {:induction false} PassTo<H>(servers: seq<Con>, con: Con, msg: Msg<H>, z: nat)
    requires L.NoTwins(servers)
    ensures AddressedTo(PassMessage(servers, con, msg), Peer(z)) == if Peer(z) in servers && con != Peer(z) then [msg] else []
  {
    if servers != [] {
      PassTo(servers[1..], con, msg, z);
    }
  }

  // --- What a server does with a search, whoever asked ------------------------------------------

  // It goes on to the peers but the asker if it is not LOCAL, results are missing and there is such a
  // peer; every one of them is asked then, an entry waits for all of them, and the asker gets no end.
  // Otherwise nobody is asked, nothing waits, and the asker gets his end behind the results.
  lemma SearchSays<H>(table: seq<DSearch>, servers: seq<Con>, con: Con, nick: string, id: string, now: int, a: Answer<H>, z: nat)
    requires L.NoTwins(servers)
    ensures var r := OnSearch(table, servers, con, nick, id, now, a);
      var others := if con.Peer? then |servers| - 1 else |servers|;
      if a.Searched? && !a.localOnly && |a.hits| < a.maxResults && others > 0 then
        && r.table == table + [DSearch(con, nick, id, 0, others, now)]
        && AddressedTo(r.sent, Peer(z)) == (if con == Peer(z) then Results(id, a.hits)
                                            else if Peer(z) in servers then [RemoteSearch(nick, id, a.request)] else [])
        && ToUser(r.sent) == (if con.Client? then T.Hits(HitsOf(a)) else [])
      else
        && r.table == table
        && AddressedTo(r.sent, Peer(z)) == (if con == Peer(z) then Results(id, HitsOf(a)) + [RemoteEnd(id)] else [])
        && ToUser(r.sent) == (if con.Client? then T.Hits(HitsOf(a)) + [T.End] else [])
  {
    SearchOut(table, servers, con, nick, id, now, a, z, id);
    EndsTo<H>(con, id, z);
    if a.Searched? {
      DeliverTo(con, id, a.hits, z);
      PassTo<H>(servers, con, RemoteSearch(nick, id, a.request), z);
      SentBoth(Deliver(con, id, a.hits), [EndTo<H>(con, id)], Peer(z));
      SentBoth(Deliver(con, id, a.hits), PassMessage(servers, con, RemoteSearch(nick, id, a.request)), Peer(z));
    } else {
      assert Results<H>(id, []) + [RemoteEnd(id)] == [RemoteEnd(id)];
    }
  }

  lemma EndsTo<H>(con: Con, id: string, z: nat)
    ensures AddressedTo([EndTo<H>(con, id)], Peer(z)) == if con == Peer(z) then [RemoteEnd(id)] else []
  {
    assert [EndTo<H>(con, id)][1..] == [];
  }

  // --- One move of the cluster --------------------------------------------------------------------

  // What is under way from server a to server b.
  function OnLink<H>(net: Net<H>, a: nat, b: nat): seq<Msg<H>> {
    if a < |net.link| && b < |net.link[a]| then net.link[a][b] else []
  }

  lemma MoveWrites<H>(c: Cluster, net: Net<H>, m: NetMove<H>, z: nat)
    requires CanDo(c, net, m) && z < T.Size(c.tree)
    ensures m.x < |c.servers|
    ensures var r := Handler(c.servers[m.x], c.timeout, net.table[m.x], Taken(net, m), m);
      && Do(c, net, m).table == net.table[m.x := r.table]
      && (!m.Take? || m.y != m.x || z != m.x ==>
            OnLink(Do(c, net, m), m.x, z) == OnLink(net, m.x, z) + AddressedTo(r.sent, Peer(z)))
      && Do(c, net, m).log[MoveId(m, Taken(net, m))].user
         == (if m.Begin? then [] else net.log[MoveId(m, Taken(net, m))].user) + ToUser(r.sent)
  {
    hide Handler, Taken, AddressedTo, ToUser;
  }

  // The search a client begins.
  lemma BeginSays<H>(c: Cluster, net: Net<H>, m: NetMove<H>, z: nat)
    requires Sound(c, net) && CanDo(c, net, m) && m.Begin? && z < T.Size(c.tree)
    ensures m.x < |c.servers|
    ensures var net', peers := Do(c, net, m), c.servers[m.x];
      if m.answer.Searched? && !m.answer.localOnly && |m.answer.hits| < m.answer.maxResults && peers != [] then
        && net'.table == net.table[m.x := net.table[m.x] + [DSearch(Client(m.client), m.nick, m.id, 0, |peers|, m.now)]]
        && OnLink(net', m.x, z) == OnLink(net, m.x, z)
                                + (if Peer(z) in peers then [RemoteSearch(m.nick, m.id, m.answer.request)] else [])
        && net'.log[m.id].user == T.Hits(m.answer.hits)
      else
        net'.table == net.table && OnLink(net', m.x, z) == OnLink(net, m.x, z)
        && net'.log[m.id].user == T.Hits(HitsOf(m.answer)) + [T.End]
  {
    hide Sound, CanDo, Do, AddressedTo, ToUser, OnSearch;
    SoundIsShaped(c, net);
    MoveIsReady(c, net, m);
    MoveWrites(c, net, m, z);
    ReadyMeans(c.servers[m.x], c.timeout, net.table[m.x], Taken(net, m), m);
    SearchSays(net.table[m.x], c.servers[m.x], Client(m.client), m.nick, m.id, m.now, m.answer, z);
  }

  // The search a peer asks for.
  lemma AskedSays<H>(c: Cluster, net: Net<H>, m: NetMove<H>, z: nat)
    requires Sound(c, net) && CanDo(c, net, m) && m.Take? && Taken(net, m).RemoteSearch? && m.nickKnown && z < T.Size(c.tree)
    ensures m.x < |c.servers|
    ensures var net', peers, msg := Do(c, net, m), c.servers[m.x], Taken(net, m);
      if m.answer.Searched? && !m.answer.localOnly && |m.answer.hits| < m.answer.maxResults && |peers| > 1 then
        && net'.table == net.table[m.x := net.table[m.x] + [DSearch(Peer(m.y), msg.nick, msg.id, 0, |peers| - 1, m.now)]]
        && OnLink(net', m.x, z) == OnLink(net, m.x, z)
                                + (if z == m.y then Results(msg.id, m.answer.hits)
                                   else if Peer(z) in peers then [RemoteSearch(msg.nick, msg.id, m.answer.request)] else [])
      else
        && net'.table == net.table
        && OnLink(net', m.x, z) == OnLink(net, m.x, z)
                                + (if z == m.y then Results(msg.id, HitsOf(m.answer)) + [RemoteEnd(msg.id)] else [])
  {
    hide Sound, CanDo, Do, AddressedTo, ToUser, OnSearch;
    SoundIsShaped(c, net);
    MoveIsReady(c, net, m);
    MoveWrites(c, net, m, z);
    ReadyMeans(c.servers[m.x], c.timeout, net.table[m.x], Taken(net, m), m);
    NotItself(c, net, m);
    SearchSays(net.table[m.x], c.servers[m.x], Peer(m.y), Taken(net, m).nick, Taken(net, m).id, m.now, m.answer, z);
  }

  lemma NotItself<H>(c: Cluster, net: Net<H>, m: NetMove<H>)
    requires Sound(c, net) && CanDo(c, net, m) && m.Take?
    ensures m.x != m.y
  {
    assert LinkSound(c, net, m.y, m.x);
  }

  // --- Searches that stay at home -----------------------------------------------------------------

  // No message about search id is under way anywhere, and nobody waits for it.
  ghost predicate Quiet<H>(c: Cluster, net: Net<H>, id: string)
    requires ShapedNet(c, net)
  {
    && (forall a, b, msg :: 0 <= a < T.Size(c.tree) && 0 <= b < T.Size(c.tree) && msg in net.link[a][b] ==> IdOf(msg) != id)
    && forall x, d :: 0 <= x < T.Size(c.tree) && d in net.table[x] ==> d.id != id
  }

  lemma QuietStays<H>(c: Cluster, net: Net<H>, m: NetMove<H>, id: string)
    requires Sound(c, net) && CanDo(c, net, m) && id in net.log && Quiet(c, net, id)
    ensures Quiet(c, Do(c, net, m), id) && Do(c, net, m).log[id] == net.log[id]
  {
    hide Sound, LinkNext, LogNext, ReplyOf, AddressedTo, AllAbout;
    var net' := Do(c, net, m);
    assert MoveId(m, Taken(net, m)) != id;
    ReplySound(c, net, m);
    forall a, b, msg | 0 <= a < T.Size(c.tree) && 0 <= b < T.Size(c.tree) && msg in net'.link[a][b] ensures IdOf(msg) != id {
      LinkHolds(c, net, m, a, b);
      ReplyLinksSound(c, net, m, b);
    }
    forall x, d | 0 <= x < T.Size(c.tree) && d in net'.table[x] ensures d.id != id {
      if x != m.x {
        assert net'.table[x] == net.table[x];
      }
    }
  }

  lemma QuietBegins<H>(c: Cluster, net: Net<H>, m: NetMove<H>)
    requires Sound(c, net) && CanDo(c, net, m) && m.Begin?
    requires !(m.answer.Searched? && !m.answer.localOnly && |m.answer.hits| < m.answer.maxResults && c.servers[m.x] != [])
    ensures Quiet(c, Do(c, net, m), m.id) && Do(c, net, m).log[m.id].user == T.Hits(HitsOf(m.answer)) + [T.End]
  {
    hide Sound, CanDo, Do, AddressedTo, Between;
    SoundIsShaped(c, net);
    var net' := Do(c, net, m);
    IsFresh(c, net, m);
    forall a, b, msg | 0 <= a < T.Size(c.tree) && 0 <= b < T.Size(c.tree) && msg in net'.link[a][b] ensures IdOf(msg) != m.id {
      BeginSays(c, net, m, b);
      if a != m.x {
        OtherRows(c, net, m, a);
      }
      LinkIsSound(c, net, a, b);
    }
    BeginSays(c, net, m, 0);
    forall x, d | 0 <= x < T.Size(c.tree) && d in net'.table[x] ensures d.id != m.id {
      TableIsSound(c, net, x);
    }
  }

  lemma IsFresh<H>(c: Cluster, net: Net<H>, m: NetMove<H>)
    requires CanDo(c, net, m) && m.Begin?
    ensures m.id !in net.log && m.x < T.Size(c.tree) && T.Size(c.tree) > 0
  {}

  lemma OtherRows<H>(c: Cluster, net: Net<H>, m: NetMove<H>, a: nat)
    requires CanDo(c, net, m) && m.Begin? && a < T.Size(c.tree) && a != m.x
    ensures Do(c, net, m).link[a] == net.link[a]
  {
    hide ReplyOf, Route;
  }

  // A search that is LOCAL, or of which its server has found enough, is over in the move that begins it:
  // no link ever carries a word of it, no table an entry.
  lemma {:induction false} StaysHome<H>(c: Cluster, moves: seq<NetMove<H>>, nets: seq<Net<H>>, j: nat, i: nat)
    requires Runs(c, moves, nets) && j < i <= |moves| && moves[j].Begin? && ShapedNet(c, nets[i])
    requires !(moves[j].answer.Searched? && !moves[j].answer.localOnly && |moves[j].answer.hits| < moves[j].answer.maxResults)
    ensures Quiet(c, nets[i], moves[j].id)
    ensures moves[j].id in nets[i].log && nets[i].log[moves[j].id].user == T.Hits(HitsOf(moves[j].answer)) + [T.End]
    decreases i
  {
    hide Sound, CanDo, Do, Quiet;
    RunIsSound(c, moves, nets, i - 1);
    SoundIsShaped(c, nets[i - 1]);
    if i - 1 == j {
      QuietBegins(c, nets[j], moves[j]);
    } else {
      StaysHome(c, moves, nets, j, i - 1);
      QuietStays(c, nets[i - 1], moves[i - 1], moves[j].id);
    }
  }

  // --- Requests as they are read -------------------------------------------------------------------

  lemma OwnFiles(w: World, x: nat, m: Model, nick: string, q: Query, hits: seq<Found>)
    requires Gives(w, x, m, nick, q, hits)
    ensures forall h <- hits :: h.server == x
  {
    forall h | h in hits ensures h.server == x {
      var r :| May(w, x, m, nick, q, h, r);
    }
  }

  // The user of a LOCAL search, or of one that his server alone has found enough for, is told his
  // server's own files and the end at once, and nobody else ever hears of it.
  lemma AnsweredAtHome(c: Cluster, w: World, s: Quest, moves: seq<NetMove<Found>>, nets: seq<Net<Found>>, files: seq<Model>,
                       j: nat, i: nat)
    requires Runs(c, moves, nets) && HonestRun(w, s, moves, nets, files) && j < i <= |moves| && ShapedNet(c, nets[i])
    requires moves[j].Begin? && moves[j].id == s.id && (s.q.local || |HitsOf(moves[j].answer)| >= s.q.limit)
    ensures forall a, b, msg :: 0 <= a < T.Size(c.tree) && 0 <= b < T.Size(c.tree) && msg in nets[i].link[a][b] ==>
              IdOf(msg) != s.id
    ensures forall x, d :: 0 <= x < T.Size(c.tree) && d in nets[i].table[x] ==> d.id != s.id
    ensures s.id in nets[i].log && nets[i].log[s.id].user == T.Hits(HitsOf(moves[j].answer)) + [T.End]
    ensures forall h <- HitsOf(moves[j].answer) :: h.server == moves[j].x
  {
    hide Runs, ReadBy, Answers, ShapedNet, Gives;
    assert HonestMove(w, s, nets[j], moves[j], files[j]);
    AnswerGives(w, moves[j].x, true, files[j], s.nick, s.text, s.q, moves[j].answer);
    OwnFiles(w, moves[j].x, files[j], s.nick, s.q, moves[j].answer.hits);
    StaysHome(c, moves, nets, j, i);
  }

  // A search that is not LOCAL and lacks results is passed on to every peer, and waits for all of them.
  lemma AskedAbroad(c: Cluster, w: World, s: Quest, net: Net<Found>, m: NetMove<Found>, files: Model, z: nat)
    requires Sound(c, net) && CanDo(c, net, m) && m.Begin? && m.id == s.id && z < T.Size(c.tree)
    requires m.x < |w.caps| == |w.filters| && HonestMove(w, s, net, m, files)
    requires !s.q.local && |HitsOf(m.answer)| < s.q.limit && m.x < |c.servers| && c.servers[m.x] != []
    ensures var net', peers := Do(c, net, m), c.servers[m.x];
      && m.answer.Searched?
      && net'.table == net.table[m.x := net.table[m.x] + [DSearch(Client(m.client), s.nick, s.id, 0, |peers|, m.now)]]
      && OnLink(net', m.x, z) == OnLink(net, m.x, z)
                              + (if Peer(z) in peers then [RemoteSearch(s.nick, s.id, m.answer.request)] else [])
      && net'.log[s.id].user == T.Hits(m.answer.hits)
  {
    hide Sound, CanDo, Do, ReadBy, Answers, Gives;
    SoundIsShaped(c, net);
    AnswerGives(w, m.x, true, files, s.nick, s.text, s.q, m.answer);
    BeginSays(c, net, m, z);
  }

  // A server asked by a peer that has found enough, or is asked LOCAL, asks nobody: it answers with its
  // results and its end.
  lemma EnoughIsEnough(c: Cluster, w: World, s: Quest, net: Net<Found>, m: NetMove<Found>, files: Model, q: Query, z: nat)
    requires Sound(c, net) && CanDo(c, net, m) && m.Take? && Taken(net, m).RemoteSearch? && Taken(net, m).id == s.id
    requires m.nickKnown && z < T.Size(c.tree) && m.x < |w.caps| == |w.filters| && HonestMove(w, s, net, m, files)
    requires ReadBy(w, m.x, false, Taken(net, m).request) == Asked(q) && (q.local || |HitsOf(m.answer)| >= q.limit)
    ensures var net' := Do(c, net, m);
      && net'.table == net.table
      && OnLink(net', m.x, z) == OnLink(net, m.x, z)
                              + (if z == m.y then Results(s.id, HitsOf(m.answer)) + [RemoteEnd(s.id)] else [])
  {
    hide Sound, CanDo, Do, ReadBy, Answers, Taken, Gives;
    SoundIsShaped(c, net);
    AnswerGives(w, m.x, false, files, Taken(net, m).nick, Taken(net, m).request, q, m.answer);
    AskedSays(c, net, m, z);
  }
}
