/** A cluster of servers, any number of searches at once. Each server runs the handlers
    of PendingSearches; seen through one search id the cluster is the tree of SearchTree. */
module SearchCluster {
  import opened Options
  import opened PendingSearches
  import opened Orientation
  import T = SearchTree
  import L = SearchLifetimes

  // --- One search id at a time ------------------------------------------------------------

  function Asker(con: Con): Option<nat> {
    if con.Client? then None else Some(con.n)
  }

  function EntryOf(d: DSearch): T.Entry {
    T.Entry(Asker(d.con), d.count, d.numServers)
  }

  function EntryIn(table: seq<DSearch>, id: string): Option<T.Entry> {
    if table == [] then None
    else if table[0].id == id then Some(EntryOf(table[0]))
    else EntryIn(table[1..], id)
  }

  predicate NoTwinIds(table: seq<DSearch>) {
    table == [] || (EntryIn(table[1..], table[0].id).None? && NoTwinIds(table[1..]))
  }

  predicate Between(m: Msg) {
    m.RemoteSearch? || m.RemoteResult? || m.RemoteEnd?
  }

  // What a message says about search id.
  function About<H>(m: Msg<H>, id: string): Option<T.Message<H>> {
    match m
    case RemoteSearch(_, i, _) => if i == id then Some(T.Ask) else None
    case RemoteResult(i, hit) => if i == id then Some(T.Hit(hit)) else None
    case RemoteEnd(i) => if i == id then Some(T.End) else None
    case _ => None
  }

  function ById<H>(msgs: seq<Msg<H>>, id: string): seq<T.Message<H>> {
    if msgs == [] then []
    else
      var rest := ById(msgs[1..], id);
      if About(msgs[0], id).Some? then [About(msgs[0], id).value] + rest else rest
  }

  function AddressedTo<H>(sent: seq<Packet<H>>, con: Con): seq<Msg<H>> {
    if sent == [] then []
    else
      var rest := AddressedTo(sent[1..], con);
      if sent[0].to == con then [sent[0].msg] + rest else rest
  }

  // What a message says to a client.
  function Told<H>(m: Msg<H>): Option<T.Message<H>> {
    match m
    case SearchEnd => Some(T.End)
    case SearchResult(hit) => Some(T.Hit(hit))
    case _ => None
  }

  function ToUser<H>(sent: seq<Packet<H>>): seq<T.Message<H>> {
    if sent == [] then []
    else
      var rest := ToUser(sent[1..]);
      if Told(sent[0].msg).Some? then [Told(sent[0].msg).value] + rest else rest
  }

  // What a server's packets say about search id on the link to server z.
  function OutTo<H>(sent: seq<Packet<H>>, z: nat, id: string): seq<T.Message<H>> {
    ById(AddressedTo(sent, Peer(z)), id)
  }

  lemma {:induction false} ByIdBoth<H>(a: seq<Msg<H>>, b: seq<Msg<H>>, id: string)
    ensures ById(a + b, id) == ById(a, id) + ById(b, id)
  {
    if a == [] {
      assert a + b == b;
    } else {
      ByIdBoth(a[1..], b, id);
      assert (a + b)[1..] == a[1..] + b;
    }
  }

  lemma {:induction false} SentBoth<H>(a: seq<Packet<H>>, b: seq<Packet<H>>, con: Con)
    ensures AddressedTo(a + b, con) == AddressedTo(a, con) + AddressedTo(b, con)
  {
    if a == [] {
      assert a + b == b;
    } else {
      SentBoth(a[1..], b, con);
      assert (a + b)[1..] == a[1..] + b;
    }
  }

  lemma {:induction false} ToldBoth<H>(a: seq<Packet<H>>, b: seq<Packet<H>>)
    ensures ToUser(a + b) == ToUser(a) + ToUser(b)
  {
    hide Told;
    if a == [] {
      assert a + b == b;
    } else {
      ToldBoth(a[1..], b);
      assert (a + b)[1..] == a[1..] + b;
    }
  }

  lemma OutBoth<H>(a: seq<Packet<H>>, b: seq<Packet<H>>, z: nat, id: string)
    ensures OutTo(a + b, z, id) == OutTo(a, z, id) + OutTo(b, z, id)
    ensures ToUser(a + b) == ToUser(a) + ToUser(b)
  {
    hide AddressedTo, ById, ToUser;
    ToldBoth(a, b);
    SentBoth(a, b, Peer(z));
    ByIdBoth(AddressedTo(a, Peer(z)), AddressedTo(b, Peer(z)), id);
  }

  // --- What the handlers send, per link and search -------------------------------------------

  lemma {:induction false} DeliverOut<H>(con: Con, id: string, hits: seq<H>, z: nat, other: string)
    ensures var sent := Deliver(con, id, hits);
            && OutTo(sent, z, other) == (if con == Peer(z) && other == id then T.Hits(hits) else [])
            && ToUser(sent) == (if con.Client? then T.Hits(hits) else [])
  {
    var sent := Deliver(con, id, hits);
    if hits != [] {
      DeliverOut(con, id, hits[1..], z, other);
      assert sent[1..] == Deliver(con, id, hits[1..]);
      assert T.Hits(hits) == [T.Hit(hits[0])] + T.Hits(hits[1..]);
    }
  }

  lemma {:induction false} PassOut<H>(servers: seq<Con>, con: Con, nick: string, id: string, request: string, z: nat, other: string)
    requires L.NoTwins(servers)
    ensures var sent := PassMessage<H>(servers, con, RemoteSearch(nick, id, request));
            && OutTo(sent, z, other) == (if Peer(z) in servers && con != Peer(z) && other == id then [T.Ask] else [])
            && ToUser(sent) == []
  {
    if servers != [] {
      PassOut<H>(servers[1..], con, nick, id, request, z, other);
    }
  }

  // The answer to a search: to the asker its hits, and an end unless others are asked.
  function AnswerTo<H>(a: Answer<H>, forward: bool): seq<T.Message<H>> {
    var hits := if a.Searched? then a.hits else [];
    if forward then T.Hits(hits) else T.Hits(hits) + [T.End]
  }

  lemma SearchOut<H>(table: seq<DSearch>, servers: seq<Con>, con: Con, nick: string, id: string, now: int, a: Answer<H>,
                     z: nat, other: string)
    requires L.NoTwins(servers)
    ensures var sent := OnSearch(table, servers, con, nick, id, now, a).sent;
            var forward := AsksOthers(servers, con, a);
            && OutTo(sent, z, other) == (if other != id then []
                                         else if con == Peer(z) then AnswerTo(a, forward)
                                         else if forward && Peer(z) in servers then [T.Ask] else [])
            && ToUser(sent) == (if con.Client? then AnswerTo(a, forward) else [])
  {
    var hits := if a.Searched? then a.hits else [];
    var results := Deliver(con, id, hits);
    DeliverOut(con, id, hits, z, other);
    EndOut<H>(con, id, z, other);
    OutBoth(results, [EndTo<H>(con, id)], z, other);
    if a.Refused? {
      assert T.Hits<H>([]) == [];
    } else if AsksOthers(servers, con, a) {
      PassOut<H>(servers, con, nick, id, a.request, z, other);
      OutBoth(results, PassMessage(servers, con, RemoteSearch(nick, id, a.request)), z, other);
    }
  }

  lemma EndOut<H>(con: Con, id: string, z: nat, other: string)
    ensures var sent := [EndTo<H>(con, id)];
            && OutTo(sent, z, other) == (if con == Peer(z) && other == id then [T.End] else [])
            && ToUser(sent) == (if con.Client? then [T.End] else [])
  {
    var sent := [EndTo<H>(con, id)];
    assert sent[1..] == [] && AddressedTo(sent[1..], Peer(z)) == [];
    if con == Peer(z) {
      var msgs := AddressedTo(sent, Peer(z));
      assert msgs == [RemoteEnd(id)] && msgs[1..] == [] && ById(msgs[1..], other) == [];
    }
  }

  lemma ResultOut<H>(con: Con, id: string, hit: H, z: nat, other: string)
    ensures var sent := [ResultTo(con, id, hit)];
            && OutTo(sent, z, other) == (if con == Peer(z) && other == id then [T.Hit(hit)] else [])
            && ToUser(sent) == (if con.Client? then [T.Hit(hit)] else [])
  {
    var sent := [ResultTo(con, id, hit)];
    assert sent[1..] == [] && AddressedTo(sent[1..], Peer(z)) == [];
    if con == Peer(z) {
      var msgs := AddressedTo(sent, Peer(z));
      assert msgs == [RemoteResult(id, hit)] && msgs[1..] == [] && ById(msgs[1..], other) == [];
    }
  }

  // --- What the handlers do to the table, per search -----------------------------------------

  lemma {:induction false} NothingStale<H>(table: seq<DSearch>, id: string, now: int, timeout: int)
    requires forall d :: d in table ==> !Expired(d, now, timeout)
    ensures var r: Scan<H> := Find(table, id, now, timeout);
            && r.table == table && r.sent == []
            && (r.at == -1 <==> EntryIn(table, id).None?)
            && (r.at != -1 ==> EntryIn(table, id) == Some(EntryOf(table[r.at])))
  {
    if table != [] && table[0].id != id {
      assert table[0] in table;
      NothingStale<H>(table[1..], id, now, timeout);
    }
  }

  lemma {:induction false} EntryAdded(table: seq<DSearch>, d: DSearch, id: string)
    ensures EntryIn(table + [d], id)
         == if EntryIn(table, id).Some? then EntryIn(table, id) else if d.id == id then Some(EntryOf(d)) else None
    ensures NoTwinIds(table) && EntryIn(table, d.id).None? ==> NoTwinIds(table + [d])
  {
    if table == [] {
      assert ([d])[1..] == [];
    } else {
      EntryAdded(table[1..], d, id);
      EntryAdded(table[1..], d, table[0].id);
      assert (table + [d])[1..] == table[1..] + [d];
    }
  }

  lemma {:induction false} EntryRemoved(table: seq<DSearch>, at: nat, id: string)
    requires NoTwinIds(table) && at < |table|
    ensures var r := table[..at] + table[at + 1..];
            && EntryIn(r, id) == (if table[at].id == id then None else EntryIn(table, id))
            && NoTwinIds(r)
  {
    var r := table[..at] + table[at + 1..];
    if at == 0 {
      assert r == table[1..];
    } else {
      EntryRemoved(table[1..], at - 1, id);
      EntryRemoved(table[1..], at - 1, table[0].id);
      assert r[1..] == table[1..][..at - 1] + table[1..][at..];
      EntryAt(table[1..], at - 1);
    }
  }

  lemma {:induction false} EntryAt(table: seq<DSearch>, at: nat)
    requires at < |table|
    ensures EntryIn(table, table[at].id).Some?
    ensures NoTwinIds(table) ==> EntryIn(table, table[at].id) == Some(EntryOf(table[at]))
  {
    if at > 0 {
      EntryAt(table[1..], at - 1);
    }
  }

  lemma {:induction false} EntryUpdated(table: seq<DSearch>, at: nat, d: DSearch, id: string)
    requires NoTwinIds(table) && at < |table| && d.id == table[at].id
    ensures EntryIn(table[at := d], id) == (if d.id == id then Some(EntryOf(d)) else EntryIn(table, id))
    ensures NoTwinIds(table[at := d])
  {
    var u := table[at := d];
    if at == 0 {
      assert u[1..] == table[1..];
    } else {
      EntryUpdated(table[1..], at - 1, d, id);
      EntryUpdated(table[1..], at - 1, d, table[0].id);
      assert u[1..] == table[1..][at - 1 := d];
      EntryAt(table[1..], at - 1);
    }
  }

  // --- The cluster -----------------------------------------------------------------------------

  datatype Cluster = Cluster(tree: T.Tree, servers: seq<seq<Con>>, timeout: int)

  // Linked servers are peers of each other, in whatever order, and the links form a tree.
  ghost predicate IsCluster(c: Cluster) {
    && T.IsTree(c.tree)
    && |c.servers| == T.Size(c.tree)
    && forall x :: 0 <= x < |c.servers| ==> PeersOf(c.tree, x, c.servers[x])
  }

  ghost predicate PeersOf(t: T.Tree, x: nat, servers: seq<Con>) {
    && L.NoTwins(servers)
    && forall con :: con in servers <==> con.Peer? && Adjacent(t, x, con.n)
  }

  // What has happened for one search so far; never consulted by the servers.
  datatype Log<H> = Log(
    origin: nat,
    user: seq<T.Message<H>>,
    asked: seq<seq<nat>>,    // requests put on the link from one server to another
    ended: seq<seq<nat>>,    // ends taken off it
    made: seq<H>,
    strays: seq<H>)

  datatype Net<H> = Net(
    table: seq<seq<DSearch>>,
    link: seq<seq<seq<Msg<H>>>>,   // what is under way from one server to another
    log: map<string, Log<H>>)

  datatype NetMove<H> =
    | Begin(x: nat, client: nat, nick: string, id: string, answer: Answer<H>, now: int)
    | Take(x: nat, y: nat, nickKnown: bool, userKnown: bool, answer: Answer<H>, now: int)

  predicate Square<A>(n: nat, m: seq<seq<A>>) {
    |m| == n && forall x :: 0 <= x < n ==> |m[x]| == n
  }

  ghost predicate ShapedNet<H>(c: Cluster, net: Net<H>) {
    && IsCluster(c)
    && |net.table| == T.Size(c.tree) && Square(T.Size(c.tree), net.link)
    && forall id :: id in net.log ==>
         && net.log[id].origin < T.Size(c.tree)
         && Square(T.Size(c.tree), net.log[id].asked) && Square(T.Size(c.tree), net.log[id].ended)
  }

  // Ids are fresh when a search begins; no entry a server scans has timed out.
  ghost predicate CanDo<H>(c: Cluster, net: Net<H>, m: NetMove<H>) {
    ShapedNet(c, net) && m.x < T.Size(c.tree) &&
    match m
    case Begin(_, _, _, id, _, _) => id !in net.log
    case Take(x, y, _, _, _, now) =>
      && y < T.Size(c.tree) && net.link[y][x] != []
      && About(net.link[y][x][0], IdOf(net.link[y][x][0])).Some? && IdOf(net.link[y][x][0]) in net.log
      && forall d :: d in net.table[x] ==> !Expired(d, now, c.timeout)
  }

  function IdOf<H>(m: Msg<H>): string {
    match m
    case RemoteSearch(_, id, _) => id
    case RemoteResult(id, _) => id
    case RemoteEnd(id) => id
    case _ => ""
  }

  // The handler that runs, on the state of its own server only.
  function Handler<H>(servers: seq<Con>, timeout: int, table: seq<DSearch>, msg: Msg<H>, m: NetMove<H>): Reply<H> {
    match m
    case Begin(_, client, nick, id, answer, now) => OnSearch(table, servers, Client(client), nick, id, now, answer)
    case Take(x, y, nickKnown, userKnown, answer, now) =>
      match msg
      case RemoteSearch(nick, id, _) =>
        OnRemoteSearch(table, servers, Peer(y), now, if nickKnown then Known(nick, id, answer) else UnknownUser(id))
      case RemoteResult(id, hit) => OnResult(table, id, hit, userKnown, now, timeout)
      case RemoteEnd(id) => OnEnd(table, id, now, timeout)
      case _ => Reply(table, [])
  }

  function Route<H>(row: seq<seq<Msg<H>>>, sent: seq<Packet<H>>): (r: seq<seq<Msg<H>>>)
    ensures |r| == |row|
  {
    seq(|row|, z requires 0 <= z < |row| => row[z] + AddressedTo(sent, Peer(z)))
  }

  function AsksIn<H>(msgs: seq<T.Message<H>>): nat {
    if msgs == [] then 0
    else
      var rest := AsksIn(msgs[1..]);
      if msgs[0].Ask? then 1 + rest else rest
  }

  function Noted<H>(log: Log<H>, x: nat, id: string, sent: seq<Packet<H>>): Log<H>
    requires x < |log.asked|
  {
    var row := log.asked[x];
    log.(user := log.user + ToUser(sent),
         asked := log.asked[x := seq(|row|, z requires 0 <= z < |row| => row[z] + AsksIn(OutTo(sent, z, id)))])
  }

  function NewLog<H>(n: nat, x: nat): Log<H> {
    var none := seq(n, _ => seq(n, _ => 0));
    Log(x, [], none, none, [], [])
  }

  function HitsOf<H>(a: Answer<H>): seq<H> {
    if a.Searched? then a.hits else []
  }

  function MadeBy<H>(msg: Msg<H>, m: NetMove<H>): seq<H> {
    if m.Begin? || (msg.RemoteSearch? && m.nickKnown) then HitsOf(m.answer) else []
  }

  // A result that reaches its search's client while the owner's nick is unknown is dropped.
  function StraysBy<H>(table: seq<DSearch>, msg: Msg<H>, m: NetMove<H>): seq<H> {
    if m.Take? && msg.RemoteResult? && !m.userKnown && EntryIn(table, msg.id).Some?
       && EntryIn(table, msg.id).value.asker.None? then [msg.hit] else []
  }

  function MoveId<H>(m: NetMove<H>, msg: Msg<H>): string {
    if m.Begin? then m.id else IdOf(msg)
  }

  function MoveLog<H>(log: Log<H>, table: seq<DSearch>, msg: Msg<H>, m: NetMove<H>): Log<H>
    requires m.Take? ==> m.y < |log.ended| && m.x < |log.ended[m.y]|
  {
    log.(made := log.made + MadeBy(msg, m),
         strays := log.strays + StraysBy(table, msg, m),
         ended := if m.Take? && msg.RemoteEnd? then log.ended[m.y := log.ended[m.y][m.x := log.ended[m.y][m.x] + 1]]
                  else log.ended)
  }

  // The message the move takes off its link.
  function Taken<H>(net: Net<H>, m: NetMove<H>): Msg<H> {
    if m.Take? && m.y < |net.link| && m.x < |net.link[m.y]| && net.link[m.y][m.x] != [] then net.link[m.y][m.x][0]
    else SearchEnd
  }

  ghost function LinkNext<H>(c: Cluster, net: Net<H>, m: NetMove<H>, r: Reply<H>): (link: seq<seq<seq<Msg<H>>>>)
    requires CanDo(c, net, m)
    ensures Square(T.Size(c.tree), link)
  {
    var link := if m.Take? then net.link[m.y := net.link[m.y][m.x := net.link[m.y][m.x][1..]]] else net.link;
    link[m.x := Route(link[m.x], r.sent)]
  }

  ghost function LogNext<H>(c: Cluster, net: Net<H>, m: NetMove<H>, r: Reply<H>): (log: Log<H>)
    requires CanDo(c, net, m)
    ensures Square(T.Size(c.tree), log.asked) && Square(T.Size(c.tree), log.ended)
    ensures log.origin == if m.Begin? then m.x else net.log[MoveId(m, Taken(net, m))].origin
  {
    var n, msg := T.Size(c.tree), Taken(net, m);
    var log := if m.Begin? then NewLog(n, m.x) else net.log[MoveId(m, msg)];
    Noted(MoveLog(log, net.table[m.x], msg, m), m.x, MoveId(m, msg), r.sent)
  }

  // The server handles the message; its packets go on the links; the log takes note.
  ghost function Do<H>(c: Cluster, net: Net<H>, m: NetMove<H>): (net': Net<H>)
    requires CanDo(c, net, m)
    ensures ShapedNet(c, net')
    ensures net'.log.Keys == net.log.Keys + {MoveId(m, Taken(net, m))}
    ensures forall id :: id in net.log ==> net'.log[id].origin == net.log[id].origin
  {
    var r := ReplyOf(c, net, m);
    Net(net.table[m.x := r.table],
        LinkNext(c, net, m, r),
        net.log[MoveId(m, Taken(net, m)) := LogNext(c, net, m, r)])
  }

  ghost function ReplyOf<H>(c: Cluster, net: Net<H>, m: NetMove<H>): Reply<H>
    requires CanDo(c, net, m)
  {
    Handler(c.servers[m.x], c.timeout, net.table[m.x], Taken(net, m), m)
  }

  // --- The cluster seen through one search id ----------------------------------------------------

  ghost function TreeOf<H>(c: Cluster, net: Net<H>, id: string): (t: T.Tree)
    requires ShapedNet(c, net) && id in net.log
    ensures T.IsTree(t) && T.Size(t) == T.Size(c.tree) && t.root == net.log[id].origin && SameLinks(c.tree, t)
  {
    Reroot(c.tree, net.log[id].origin)
  }

  ghost function View<H>(t: T.Tree, net: Net<H>, id: string): (s: T.State<H>)
    requires T.IsTree(t) && id in net.log && |net.table| == T.Size(t)
    requires Square(T.Size(t), net.link) && Square(T.Size(t), net.log[id].asked) && Square(T.Size(t), net.log[id].ended)
    ensures T.Shaped(t, s)
  {
    var n, log := T.Size(t), net.log[id];
    T.State(
      seq(n, x requires 0 <= x < n => EntryIn(net.table[x], id)),
      seq(n, y requires 0 <= y < n => if y == t.root then [] else ById(net.link[t.parent[y]][y], id)),
      seq(n, y requires 0 <= y < n => if y == t.root then [] else ById(net.link[y][t.parent[y]], id)),
      log.user,
      seq(n, y requires 0 <= y < n => if y == t.root then 0 else log.asked[t.parent[y]][y]),
      seq(n, y requires 0 <= y < n => if y == t.root then 0 else log.ended[y][t.parent[y]]),
      log.made,
      log.strays)
  }

  ghost predicate LinkSound<H>(c: Cluster, net: Net<H>, x: nat, y: nat)
    requires ShapedNet(c, net) && x < T.Size(c.tree) && y < T.Size(c.tree)
  {
    && (net.link[x][y] != [] ==> Adjacent(c.tree, x, y))
    && forall m :: m in net.link[x][y] ==> Between(m) && IdOf(m) in net.log
  }

  ghost predicate TableSound<H>(net: Net<H>, table: seq<DSearch>) {
    NoTwinIds(table) && forall d :: d in table ==> d.id in net.log
  }

  ghost predicate Sound<H>(c: Cluster, net: Net<H>) {
    && ShapedNet(c, net)
    && (forall x, y :: 0 <= x < T.Size(c.tree) && 0 <= y < T.Size(c.tree) ==> LinkSound(c, net, x, y))
    && (forall x :: 0 <= x < T.Size(c.tree) ==> TableSound(net, net.table[x]))
    && forall id :: id in net.log ==> T.Inv(TreeOf(c, net, id), View(TreeOf(c, net, id), net, id))
  }

  // --- What each handler does for each search id ---------------------------------------------------

  lemma SearchTable<H>(table: seq<DSearch>, servers: seq<Con>, con: Con, nick: string, id: string, now: int, a: Answer<H>,
                       other: string)
    requires NoTwinIds(table) && EntryIn(table, id).None?
    ensures var r := OnSearch(table, servers, con, nick, id, now, a);
            && NoTwinIds(r.table)
            && EntryIn(r.table, other) == (if other == id && AsksOthers(servers, con, a)
                                           then Some(EntryOf(Entered<H>(servers, con, nick, id, now)))
                                           else EntryIn(table, other))
            && forall d :: d in r.table ==> d in table || d.id == id
  {
    EntryAdded(table, Entered<H>(servers, con, nick, id, now), other);
  }

  lemma ResultDoes<H>(table: seq<DSearch>, id: string, hit: H, userKnown: bool, now: int, timeout: int, z: nat, other: string)
    requires forall d :: d in table ==> !Expired(d, now, timeout)
    ensures var r := OnResult(table, id, hit, userKnown, now, timeout);
            var e := EntryIn(table, id);
            && r.table == table
            && OutTo(r.sent, z, other) == (if e.Some? && e.value.asker == Some(z) && other == id then [T.Hit(hit)] else [])
            && ToUser(r.sent) == (if e.Some? && e.value.asker.None? && userKnown then [T.Hit(hit)] else [])
  {
    NothingStale<H>(table, id, now, timeout);
    var scan: Scan<H> := Find(table, id, now, timeout);
    if scan.at != -1 {
      ResultOut(table[scan.at].con, id, hit, z, other);
      assert scan.sent + [ResultTo(table[scan.at].con, id, hit)] == [ResultTo(table[scan.at].con, id, hit)];
    }
  }

  lemma NothingOut<H>(z: nat, other: string)
    ensures OutTo<H>([], z, other) == [] && ToUser<H>([]) == []
  {}

  lemma EndDoes<H>(table: seq<DSearch>, id: string, now: int, timeout: int, z: nat, other: string)
    requires NoTwinIds(table) && forall d :: d in table ==> !Expired(d, now, timeout)
    ensures var r: Reply<H> := OnEnd(table, id, now, timeout);
            var e := EntryIn(table, id);
            var last := e.Some? && e.value.count + 1 == e.value.numServers;
            && NoTwinIds(r.table)
            && EntryIn(r.table, other) == (if other != id || e.None? then EntryIn(table, other)
                                           else if last then None
                                           else Some(e.value.(count := e.value.count + 1)))
            && OutTo(r.sent, z, other) == (if last && e.value.asker == Some(z) && other == id then [T.End] else [])
            && ToUser(r.sent) == (if last && e.value.asker.None? then [T.End] else [])
  {
    hide Find, EntryIn, NoTwinIds, OutTo, ToUser;
    NothingStale<H>(table, id, now, timeout);
    var scan: Scan<H> := Find(table, id, now, timeout);
    NothingOut<H>(z, other);
    if scan.at != -1 {
      var d := table[scan.at];
      if d.count + 1 == d.numServers {
        EntryRemoved(table, scan.at, other);
        EndOut<H>(d.con, d.id, z, other);
        assert scan.sent + [EndTo<H>(d.con, d.id)] == [EndTo<H>(d.con, d.id)];
      } else {
        EntryUpdated(table, scan.at, d.(count := d.count + 1), other);
      }
    }
  }

  lemma EndKeepsIds<H>(table: seq<DSearch>, id: string, now: int, timeout: int)
    requires forall d :: d in table ==> !Expired(d, now, timeout)
    ensures forall d :: d in OnEnd<H>(table, id, now, timeout).table ==> exists d0 :: d0 in table && d0.id == d.id
  {
    NothingStale<H>(table, id, now, timeout);
    L.EndKeepsEntries<H>(table, id, now, timeout);
  }

  // What a handler may count on: a search that reaches a server is new to it, and
  // nothing has timed out.
  ghost predicate Ready<H>(servers: seq<Con>, timeout: int, table: seq<DSearch>, msg: Msg<H>, m: NetMove<H>) {
    && NoTwinIds(table) && L.NoTwins(servers)
    && (m.Take? ==> Between(msg) && forall d :: d in table ==> !Expired(d, m.now, timeout))
    && (m.Begin? || msg.RemoteSearch? ==> EntryIn(table, MoveId(m, msg)).None?)
  }

  // A move that is not about search id does nothing for it.
  lemma OtherReply<H>(servers: seq<Con>, timeout: int, table: seq<DSearch>, msg: Msg<H>, m: NetMove<H>, z: nat, other: string)
    requires Ready(servers, timeout, table, msg, m) && other != MoveId(m, msg)
    ensures var r := Handler(servers, timeout, table, msg, m);
            OutTo(r.sent, z, other) == [] && EntryIn(r.table, other) == EntryIn(table, other)
  {
    match m
    case Begin(_, client, nick, id, answer, now) =>
      SearchOut(table, servers, Client(client), nick, id, now, answer, z, other);
      SearchTable(table, servers, Client(client), nick, id, now, answer, other);
    case Take(x, y, nickKnown, userKnown, answer, now) =>
      match msg
      case RemoteSearch(nick, id, _) =>
        SearchOut(table, servers, Peer(y), nick, id, now, answer, z, other);
        SearchTable(table, servers, Peer(y), nick, id, now, answer, other);
        EndOut<H>(Peer(y), id, z, other);
      case RemoteResult(id, hit) => ResultDoes(table, id, hit, userKnown, now, timeout, z, other);
      case RemoteEnd(id) => EndDoes<H>(table, id, now, timeout, z, other);
  }

  lemma SendsAbout<H>(kept: seq<Msg<H>>, sent: seq<Packet<H>>, b: nat, id: string)
    ensures ById(kept + AddressedTo(sent, Peer(b)), id) == ById(kept, id) + OutTo(sent, b, id)
  {
    ByIdBoth(kept, AddressedTo(sent, Peer(b)), id);
  }

  // The messages about search id on a link after a move.
  lemma LinkAfter<H>(c: Cluster, net: Net<H>, m: NetMove<H>, a: nat, b: nat, id: string)
    requires CanDo(c, net, m) && a < T.Size(c.tree) && b < T.Size(c.tree)
    ensures var was, r := net.link[a][b], ReplyOf(c, net, m);
            var kept := if m.Take? && a == m.y && b == m.x then was[1..] else was;
            ById(LinkNext(c, net, m, r)[a][b], id) == ById(kept, id) + (if a == m.x then OutTo(r.sent, b, id) else [])
  {
    hide OutTo, ReplyOf, Taken;
    var was := net.link[a][b];
    var kept := if m.Take? && a == m.y && b == m.x then was[1..] else was;
    if a == m.x {
      SendsAbout(kept, ReplyOf(c, net, m).sent, b, id);
    } else {
      assert ById(kept, id) + [] == ById(kept, id);
    }
  }

  lemma {:induction false} NoAsksInHits<H>(hits: seq<H>, end: bool)
    ensures AsksIn(if end then T.Hits(hits) + [T.End] else T.Hits(hits)) == 0
  {
    if hits == [] {
      assert end ==> (T.Hits(hits) + [T.End])[1..] == [];
    } else {
      NoAsksInHits(hits[1..], end);
      assert T.Hits(hits)[1..] == T.Hits(hits[1..]);
      assert end ==> (T.Hits(hits) + [T.End])[1..] == T.Hits(hits[1..]) + [T.End];
    }
  }

  // --- Counting peers -------------------------------------------------------------------------------------

  lemma {:induction false} KidsAreCounted(t: T.Tree, x: nat, servers: seq<Con>, k: nat)
    requires k <= T.Size(t) && L.NoTwins(servers)
    requires forall con :: con in servers <==> con.Peer? && con.n < k && T.Kid(t, x, con.n)
    ensures |servers| == T.Kids(t, x, k)
    decreases k
  {
    if k == 0 {
      SomebodyThere(servers);
    } else {
      L.WithoutIsGone(servers, Peer(k - 1));
      KidsAreCounted(t, x, L.Without(servers, Peer(k - 1)), k - 1);
    }
  }

  lemma SomebodyThere(servers: seq<Con>)
    ensures servers != [] ==> exists con :: con in servers
  {
    if servers != [] {
      assert servers[0] in servers;
    }
  }

  lemma PeersAreCounted(t: T.Tree, x: nat, servers: seq<Con>)
    requires T.IsTree(t) && x < T.Size(t) && PeersOf(t, x, servers)
    ensures |servers| == T.Kids(t, x, T.Size(t)) + (if x == t.root then 0 else 1)
  {
    if x == t.root {
      KidsAreCounted(t, x, servers, T.Size(t));
    } else {
      var up := Peer(t.parent[x]);
      L.WithoutIsGone(servers, up);
      assert T.Kid(t, t.parent[x], x) && Adjacent(t, x, t.parent[x]);
      KidsAreCounted(t, x, L.Without(servers, up), T.Size(t));
    }
  }

  // The peers of a server, seen from the tree hung from the origin of a search.
  lemma PeersInTree<H>(c: Cluster, net: Net<H>, id: string, x: nat)
    requires ShapedNet(c, net) && id in net.log && x < T.Size(c.tree)
    ensures PeersOf(TreeOf(c, net, id), x, c.servers[x])
  {
    var t := TreeOf(c, net, id);
    assert PeersOf(c.tree, x, c.servers[x]);
    forall con ensures con in c.servers[x] <==> con.Peer? && Adjacent(t, x, con.n) {}
  }

  // --- Every move on the cluster is a move of the search it is about ----------------------------------------

  lemma FirstById<H>(msgs: seq<Msg<H>>, id: string)
    requires msgs != [] && About(msgs[0], id).Some?
    ensures ById(msgs, id) != [] && ById(msgs, id)[0] == About(msgs[0], id).value
    ensures ById(msgs[1..], id) == ById(msgs, id)[1..]
  {}

  // A request comes from the parent of its receiver, a result or an end from a child.
  lemma WhereItComesFrom<H>(c: Cluster, net: Net<H>, m: NetMove<H>)
    requires Sound(c, net) && CanDo(c, net, m) && m.Take?
    ensures var msg := Taken(net, m);
            var t, s := TreeOf(c, net, IdOf(msg)), View(TreeOf(c, net, IdOf(msg)), net, IdOf(msg));
            if msg.RemoteSearch? then
              T.Kid(t, m.y, m.x) && s.down[m.x] != [] && s.down[m.x][0] == T.Ask && s.entry[m.x].None?
            else
              T.Kid(t, m.x, m.y) && s.up[m.y] != [] && Some(s.up[m.y][0]) == About(msg, IdOf(msg))
  {
    hide IsCluster, Sound, SameLinks, T.LinkOk, T.Inv, ById;
    var msg := Taken(net, m);
    var id := IdOf(msg);
    var t := TreeOf(c, net, id);
    var s := View(t, net, id);
    TakenIsSound(c, net, m);
    FirstById(net.link[m.y][m.x], id);
    if T.Kid(t, m.y, m.x) {
      DownIsAsk(t, s, m.x);
    } else {
      UpIsNoAsk(t, s, m.y);
    }
  }

  lemma TakenIsSound<H>(c: Cluster, net: Net<H>, m: NetMove<H>)
    requires Sound(c, net) && CanDo(c, net, m) && m.Take?
    ensures var id := IdOf(Taken(net, m));
            T.Inv(TreeOf(c, net, id), View(TreeOf(c, net, id), net, id)) && Adjacent(TreeOf(c, net, id), m.y, m.x)
    ensures Between(Taken(net, m))
  {
    hide IsCluster, T.Inv;
    assert LinkSound(c, net, m.y, m.x);
  }

  lemma DownIsAsk<H>(t: T.Tree, s: T.State<H>, y: nat)
    requires T.Inv(t, s) && y < T.Size(t) && y != t.root && s.down[y] != []
    ensures s.down[y] == [T.Ask] && s.entry[y].None?
  {
    assert T.LinkOk(t, s, y);
  }

  lemma UpIsNoAsk<H>(t: T.Tree, s: T.State<H>, y: nat)
    requires T.Inv(t, s) && y < T.Size(t) && y != t.root && s.up[y] != []
    ensures !s.up[y][0].Ask?
  {
    assert T.LinkOk(t, s, y);
    if T.HitsThenEnd(s.up[y]) && |s.up[y]| > 1 {
      assert s.up[y][..|s.up[y]| - 1][0].Hit?;
    }
  }

  lemma MoveIsReady<H>(c: Cluster, net: Net<H>, m: NetMove<H>)
    requires Sound(c, net) && CanDo(c, net, m)
    ensures Ready(c.servers[m.x], c.timeout, net.table[m.x], Taken(net, m), m)
  {
    assert PeersOf(c.tree, m.x, c.servers[m.x]) && TableSound(net, net.table[m.x]);
    if m.Take? {
      assert LinkSound(c, net, m.y, m.x);
      WhereItComesFrom(c, net, m);
    } else {
      UnknownIdHasNoEntry(net.table[m.x], m.id);
    }
  }

  lemma {:induction false} UnknownIdHasNoEntry(table: seq<DSearch>, id: string)
    requires forall d :: d in table ==> d.id != id
    ensures EntryIn(table, id).None?
  {
    if table != [] {
      assert table[0] in table;
      UnknownIdHasNoEntry(table[1..], id);
    }
  }

  ghost function TreeMove<H>(c: Cluster, net: Net<H>, m: NetMove<H>): T.Move<H>
    requires CanDo(c, net, m) && m.Take?
  {
    MoveIn(c.servers[m.x], Taken(net, m), m)
  }

  lemma TreeMoveIsEnabled<H>(c: Cluster, net: Net<H>, m: NetMove<H>)
    requires Sound(c, net) && CanDo(c, net, m) && m.Take?
    ensures var id := IdOf(Taken(net, m));
            T.Enabled(TreeOf(c, net, id), View(TreeOf(c, net, id), net, id), TreeMove(c, net, m))
  {
    hide Sound, View, Taken, PeersOf, SameLinks, T.Kids;
    WhereItComesFrom(c, net, m);
    MoveIsAboutSomething(c, net, m);
    var id := IdOf(Taken(net, m));
    PeersInTree(c, net, id, m.x);
    PeersAreCounted(TreeOf(c, net, id), m.x, c.servers[m.x]);
  }

  // What the server does when a request arrives.
  lemma AskReply<H>(servers: seq<Con>, timeout: int, table: seq<DSearch>, msg: Msg<H>, m: NetMove<H>, z: nat)
    requires Ready(servers, timeout, table, msg, m) && m.Take? && msg.RemoteSearch?
    ensures var r := Handler(servers, timeout, table, msg, m);
            var hits := if m.nickKnown then HitsOf(m.answer) else [];
            var forward := m.nickKnown && AsksOthers(servers, Peer(m.y), m.answer);
            && OutTo(r.sent, z, IdOf(msg)) == (if z == m.y then (if forward then T.Hits(hits) else T.Hits(hits) + [T.End])
                                               else if forward && Peer(z) in servers then [T.Ask] else [])
            && ToUser(r.sent) == []
            && EntryIn(r.table, IdOf(msg)) == (if forward then Some(T.Entry(Some(m.y), 0, |servers| - 1)) else None)
            && NoTwinIds(r.table) && forall d :: d in r.table ==> d in table || d.id == IdOf(msg)
  {
    var nick, id := msg.nick, msg.id;
    if m.nickKnown {
      SearchOut(table, servers, Peer(m.y), nick, id, m.now, m.answer, z, id);
      SearchTable(table, servers, Peer(m.y), nick, id, m.now, m.answer, id);
    } else {
      EndOut<H>(Peer(m.y), id, z, id);
      assert T.Hits<H>([]) + [T.End] == [T.End];
    }
  }

  lemma AskAsked<H>(hits: seq<H>, end: bool)
    ensures AsksIn(if end then T.Hits(hits) + [T.End] else T.Hits(hits)) == 0
    ensures AsksIn<H>([T.Ask]) == 1
  {
    NoAsksInHits(hits, end);
  }

  // --- Views before and after a move -------------------------------------------------------------------------

  ghost function Before<H>(c: Cluster, net: Net<H>, m: NetMove<H>): (s: T.State<H>)
    requires CanDo(c, net, m) && m.Take?
    ensures T.Shaped(TreeOf(c, net, IdOf(Taken(net, m))), s)
  {
    View(TreeOf(c, net, IdOf(Taken(net, m))), net, IdOf(Taken(net, m)))
  }

  ghost function After<H>(c: Cluster, net: Net<H>, m: NetMove<H>): (s: T.State<H>)
    requires CanDo(c, net, m) && m.Take?
    ensures T.Shaped(TreeOf(c, net, IdOf(Taken(net, m))), s)
  {
    View(TreeOf(c, net, IdOf(Taken(net, m))), Do(c, net, m), IdOf(Taken(net, m)))
  }

  // The view after a move, in terms of the reply of the server that moved.
  ghost predicate LinksMoved<H>(t: T.Tree, s: T.State<H>, s': T.State<H>, x: nat, y: nat, id: string, sent: seq<Packet<H>>, w: nat)
    requires T.Shaped(t, s) && T.Shaped(t, s') && w < T.Size(t) && w != t.root
  {
    var p := t.parent[w];
    && s'.down[w] == (if w == x && p == y && s.down[w] != [] then s.down[w][1..] else s.down[w])
                     + (if p == x then OutTo(sent, w, id) else [])
    && s'.up[w] == (if w == y && p == x && s.up[w] != [] then s.up[w][1..] else s.up[w])
                   + (if w == x then OutTo(sent, p, id) else [])
  }

  ghost predicate CountsMoved<H>(t: T.Tree, s: T.State<H>, s': T.State<H>, x: nat, y: nat, msg: Msg<H>, sent: seq<Packet<H>>, w: nat)
    requires T.Shaped(t, s) && T.Shaped(t, s') && w < T.Size(t) && w != t.root
  {
    var p := t.parent[w];
    && s'.asks[w] == s.asks[w] + (if p == x then AsksIn(OutTo(sent, w, IdOf(msg))) else 0)
    && s'.ends[w] == s.ends[w] + (if w == y && p == x && msg.RemoteEnd? then 1 else 0)
  }

  ghost predicate RootStays<H>(s: T.State<H>, s': T.State<H>, root: nat) {
    && root < |s.down| && root < |s'.down| && root < |s.up| && root < |s'.up|
    && root < |s.asks| && root < |s'.asks| && root < |s.ends| && root < |s'.ends|
    && s'.down[root] == s.down[root] == [] && s'.up[root] == s.up[root] == []
    && s'.asks[root] == s.asks[root] == 0 && s'.ends[root] == s.ends[root] == 0
  }

  ghost predicate Follows<H>(c: Cluster, net: Net<H>, m: NetMove<H>, w: nat)
    requires CanDo(c, net, m) && m.Take? && w < T.Size(c.tree)
  {
    var msg := Taken(net, m);
    FollowsIn(TreeOf(c, net, IdOf(msg)), Before(c, net, m), After(c, net, m), net.table[m.x], msg, m, ReplyOf(c, net, m), w)
  }

  ghost predicate FollowsIn<H>(t: T.Tree, s: T.State<H>, s': T.State<H>, table: seq<DSearch>, msg: Msg<H>, m: NetMove<H>,
                               r: Reply<H>, w: nat)
    requires T.Shaped(t, s) && T.Shaped(t, s') && m.Take? && w < T.Size(t)
  {
    && EntryMoved(s, s', table, msg, m, r, w)
    && if w == t.root then RootStays(s, s', w)
       else LinksMoved(t, s, s', m.x, m.y, IdOf(msg), r.sent, w) && CountsMoved(t, s, s', m.x, m.y, msg, r.sent, w)
  }

  ghost predicate EntryMoved<H>(s: T.State<H>, s': T.State<H>, table: seq<DSearch>, msg: Msg<H>, m: NetMove<H>, r: Reply<H>, w: nat)
    requires w < |s.entry| && w < |s'.entry|
  {
    && s'.entry[w] == (if w == m.x then EntryIn(r.table, IdOf(msg)) else s.entry[w])
    && s'.user == s.user + ToUser(r.sent)
    && s'.made == s.made + MadeBy(msg, m)
    && s'.strays == s.strays + StraysBy(table, msg, m)
  }

  lemma LogAfter<H>(c: Cluster, net: Net<H>, m: NetMove<H>, p: nat, w: nat)
    requires CanDo(c, net, m) && m.Take? && p < T.Size(c.tree) && w < T.Size(c.tree)
    requires Between(Taken(net, m))
    ensures var msg, r := Taken(net, m), ReplyOf(c, net, m);
            var log, log' := net.log[IdOf(msg)], LogNext(c, net, m, r);
            && log'.asked[p][w] == log.asked[p][w] + (if p == m.x then AsksIn(OutTo(r.sent, w, IdOf(msg))) else 0)
            && log'.ended[w][p] == log.ended[w][p] + (if w == m.y && p == m.x && msg.RemoteEnd? then 1 else 0)
            && log'.user == log.user + ToUser(r.sent)
            && log'.made == log.made + MadeBy(msg, m)
            && log'.strays == log.strays + StraysBy(net.table[m.x], msg, m)
  {
    hide OutTo, ReplyOf, ToUser, MadeBy, StraysBy;
  }

  lemma LinksFollow<H>(c: Cluster, net: Net<H>, m: NetMove<H>, w: nat)
    requires CanDo(c, net, m) && m.Take? && w < T.Size(c.tree)
    requires w != TreeOf(c, net, IdOf(Taken(net, m))).root
    ensures var id := IdOf(Taken(net, m));
            LinksMoved(TreeOf(c, net, id), Before(c, net, m), After(c, net, m), m.x, m.y, id, ReplyOf(c, net, m).sent, w)
  {
    hide LinkNext, LogNext, OutTo, ReplyOf, ById, IsCluster, SameLinks;
    var id := IdOf(Taken(net, m));
    var p := TreeOf(c, net, id).parent[w];
    FirstById(net.link[m.y][m.x], id);
    LinkAfter(c, net, m, p, w, id);
    LinkAfter(c, net, m, w, p, id);
  }

  lemma CountsFollow<H>(c: Cluster, net: Net<H>, m: NetMove<H>, w: nat)
    requires CanDo(c, net, m) && m.Take? && w < T.Size(c.tree) && Between(Taken(net, m))
    requires w != TreeOf(c, net, IdOf(Taken(net, m))).root
    ensures var msg := Taken(net, m);
            CountsMoved(TreeOf(c, net, IdOf(msg)), Before(c, net, m), After(c, net, m), m.x, m.y, msg, ReplyOf(c, net, m).sent, w)
  {
    hide LinkNext, LogNext, OutTo, ReplyOf, ById, IsCluster, SameLinks;
    LogAfter(c, net, m, TreeOf(c, net, IdOf(Taken(net, m))).parent[w], w);
  }

  lemma RootFollows<H>(c: Cluster, net: Net<H>, m: NetMove<H>)
    requires CanDo(c, net, m) && m.Take?
    ensures RootStays(Before(c, net, m), After(c, net, m), TreeOf(c, net, IdOf(Taken(net, m))).root)
  {
    hide LinkNext, LogNext, OutTo, ReplyOf, ById, IsCluster, SameLinks;
  }

  lemma EntryFollows<H>(c: Cluster, net: Net<H>, m: NetMove<H>, w: nat)
    requires CanDo(c, net, m) && m.Take? && w < T.Size(c.tree) && Between(Taken(net, m))
    ensures EntryMoved(Before(c, net, m), After(c, net, m), net.table[m.x], Taken(net, m), m, ReplyOf(c, net, m), w)
  {
    LogAfter(c, net, m, w, w);
    hide MadeBy, StraysBy, LinkNext, LogNext, OutTo, ReplyOf, ById, IsCluster, SameLinks;
  }

  lemma MoveFollows<H>(c: Cluster, net: Net<H>, m: NetMove<H>, w: nat)
    requires CanDo(c, net, m) && m.Take? && w < T.Size(c.tree) && Between(Taken(net, m))
    ensures Follows(c, net, m, w)
  {
    EntryFollows(c, net, m, w);
    RootFollows(c, net, m);
    if w != TreeOf(c, net, IdOf(Taken(net, m))).root {
      LinksFollow(c, net, m, w);
      CountsFollow(c, net, m, w);
    }
    hide EntryMoved, Before, After, ReplyOf, LinksMoved, CountsMoved, RootStays, Taken, ShapedNet, CanDo, TreeOf;
  }

  // --- The move, at every server of the tree ---------------------------------------------------------------

  ghost predicate SameAt<H>(s: T.State<H>, s': T.State<H>, w: nat) {
    && w < |s.entry| == |s'.entry| && w < |s.down| == |s'.down| && w < |s.up| == |s'.up|
    && w < |s.asks| == |s'.asks| && w < |s.ends| == |s'.ends|
    && s.entry[w] == s'.entry[w] && s.down[w] == s'.down[w] && s.up[w] == s'.up[w]
    && s.asks[w] == s'.asks[w] && s.ends[w] == s'.ends[w]
    && s.user == s'.user && s.made == s'.made && s.strays == s'.strays
  }

  function MoveIn<H>(servers: seq<Con>, msg: Msg<H>, m: NetMove<H>): T.Move<H>
    requires m.Take?
  {
    match msg
    case RemoteSearch(_, _, _) =>
      T.TakeAsk(m.x, if m.nickKnown then HitsOf(m.answer) else [], m.nickKnown && AsksOthers(servers, Peer(m.y), m.answer))
    case RemoteResult(_, _) => T.TakeHit(m.y, m.userKnown)
    case _ => T.TakeEnd(m.y)
  }

  // What a move must leave at server w, spelt out.
  ghost predicate LeavesAt<H>(t: T.Tree, s: T.State<H>, s': T.State<H>, w: nat, entry: Option<T.Entry>,
                              down: seq<T.Message<H>>, up: seq<T.Message<H>>, asks: nat, ends: nat)
    requires T.Shaped(t, s) && T.Shaped(t, s') && w < T.Size(t)
  {
    && s'.entry[w] == entry
    && (w != t.root ==> s'.down[w] == down && s'.up[w] == up && s'.asks[w] == asks && s'.ends[w] == ends)
    && (w == t.root ==> RootStays(s, s', w))
  }

  lemma AskStep<H>(t: T.Tree, s: T.State<H>, s': T.State<H>, x: nat, hits: seq<H>, forward: bool, w: nat)
    requires T.Shaped(t, s) && T.Shaped(t, s') && w < T.Size(t)
    requires T.Enabled(t, s, T.TakeAsk(x, hits, forward))
    requires var kid := forward && T.Kid(t, x, w);
             LeavesAt(t, s, s', w,
               if w == x && forward then Some(T.Entry(Some(t.parent[x]), 0, T.Kids(t, x, T.Size(t)))) else s.entry[w],
               if w == x then s.down[w][1..] else if kid then s.down[w] + [T.Ask] else s.down[w],
               if w == x then s.up[w] + (if forward then T.Hits(hits) else T.Hits(hits) + [T.End]) else s.up[w],
               if kid then s.asks[w] + 1 else s.asks[w],
               s.ends[w])
    requires s'.user == s.user && s'.made == s.made + hits && s'.strays == s.strays
    ensures SameAt(s', T.Apply(t, s, T.TakeAsk(x, hits, forward)), w)
  {
    NoGrandparentLoop(t, x);
  }

  lemma AskLeavesLinks<H>(t: T.Tree, s: T.State<H>, s': T.State<H>, servers: seq<Con>, timeout: int, table: seq<DSearch>,
                          msg: Msg<H>, m: NetMove<H>, w: nat)
    requires T.Shaped(t, s) && T.Shaped(t, s') && m.Take? && w < T.Size(t) && m.x < T.Size(t) && w != t.root
    requires Ready(servers, timeout, table, msg, m) && PeersOf(t, m.x, servers) && msg.RemoteSearch?
    requires T.Kid(t, m.y, m.x) && s.down[m.x] != []
    requires var sent := Handler(servers, timeout, table, msg, m).sent;
             LinksMoved(t, s, s', m.x, m.y, IdOf(msg), sent, w) && CountsMoved(t, s, s', m.x, m.y, msg, sent, w)
    ensures var x, hits, forward := m.x, MoveIn(servers, msg, m).hits, MoveIn(servers, msg, m).forward;
            var kid := forward && T.Kid(t, x, w);
            && s'.down[w] == (if w == x then s.down[w][1..] else if kid then s.down[w] + [T.Ask] else s.down[w])
            && s'.up[w] == (if w == x then s.up[w] + (if forward then T.Hits(hits) else T.Hits(hits) + [T.End]) else s.up[w])
            && s'.asks[w] == (if kid then s.asks[w] + 1 else s.asks[w])
            && s'.ends[w] == s.ends[w]
  {
    hide Handler, OutTo, ToUser, Ready, PeersOf, EntryIn, T.Kids, T.IsTree, HitsOf, AsksOthers, AsksIn;
    AskReply(servers, timeout, table, msg, m, w);
    AskReply(servers, timeout, table, msg, m, m.y);
    AskAsked(MoveIn(servers, msg, m).hits, !MoveIn(servers, msg, m).forward);
    AskAsked<H>([], false);
    NoAsksInNothing<H>();
    NoGrandparentLoop(t, m.x);
    PeerIsNext(t, m.x, servers, w);
  }

  lemma NoAsksInNothing<H>()
    ensures AsksIn<H>([]) == 0
  {}

  lemma PeerIsNext(t: T.Tree, x: nat, servers: seq<Con>, w: nat)
    requires PeersOf(t, x, servers)
    ensures Peer(w) in servers <==> Adjacent(t, x, w)
  {}

  lemma AskLeavesEntry<H>(t: T.Tree, s: T.State<H>, s': T.State<H>, servers: seq<Con>, timeout: int, table: seq<DSearch>,
                          msg: Msg<H>, m: NetMove<H>, w: nat)
    requires T.Shaped(t, s) && T.Shaped(t, s') && m.Take? && w < T.Size(t) && m.x < T.Size(t)
    requires Ready(servers, timeout, table, msg, m) && PeersOf(t, m.x, servers) && msg.RemoteSearch?
    requires T.Kid(t, m.y, m.x) && s.entry[m.x].None?
    requires EntryMoved(s, s', table, msg, m, Handler(servers, timeout, table, msg, m), w)
    ensures var x, hits, forward := m.x, MoveIn(servers, msg, m).hits, MoveIn(servers, msg, m).forward;
            && s'.entry[w] == (if w == x && forward then Some(T.Entry(Some(t.parent[x]), 0, T.Kids(t, x, T.Size(t)))) else s.entry[w])
            && s'.user == s.user && s'.made == s.made + hits && s'.strays == s.strays
  {
    PeersAreCounted(t, m.x, servers);
    AskReply(servers, timeout, table, msg, m, w);
    hide Handler, OutTo, ToUser, Ready, PeersOf, EntryIn, T.Kids, T.IsTree, HitsOf, AsksOthers;
  }

  lemma AskIsSimulated<H>(t: T.Tree, s: T.State<H>, s': T.State<H>, servers: seq<Con>, timeout: int, table: seq<DSearch>,
                          msg: Msg<H>, m: NetMove<H>, w: nat)
    requires T.Shaped(t, s) && T.Shaped(t, s') && m.Take? && w < T.Size(t) && m.x < T.Size(t)
    requires Ready(servers, timeout, table, msg, m) && PeersOf(t, m.x, servers) && msg.RemoteSearch?
    requires T.Kid(t, m.y, m.x) && s.entry[m.x].None? && T.Enabled(t, s, MoveIn(servers, msg, m))
    requires FollowsIn(t, s, s', table, msg, m, Handler(servers, timeout, table, msg, m), w)
    ensures SameAt(s', T.Apply(t, s, MoveIn(servers, msg, m)), w)
  {
    AskLeavesEntry(t, s, s', servers, timeout, table, msg, m, w);
    if w != t.root {
      AskLeavesLinks(t, s, s', servers, timeout, table, msg, m, w);
    }
    AskStep(t, s, s', m.x, MoveIn(servers, msg, m).hits, MoveIn(servers, msg, m).forward, w);
  }

  // What the server does when a result or an end arrives, seen from the tree: it tells
  // whoever asked it.
  ghost predicate Tells<H>(s: T.State<H>, t: T.Tree, x: nat, r: Reply<H>, id: string, w: nat, msgs: seq<T.Message<H>>)
    requires T.Shaped(t, s) && x < T.Size(t)
  {
    && ToUser(r.sent) == (if x == t.root then msgs else [])
    && (w < T.Size(t) && w != t.root && t.parent[w] == x ==> OutTo(r.sent, w, id) == [])
    && (x != t.root ==> OutTo(r.sent, t.parent[x], id) == msgs)
  }

  lemma HitReply<H>(t: T.Tree, s: T.State<H>, servers: seq<Con>, timeout: int, table: seq<DSearch>, msg: Msg<H>, m: NetMove<H>, w: nat)
    requires T.Inv(t, s) && m.Take? && msg.RemoteResult? && m.x < T.Size(t) && s.entry[m.x].Some?
    requires Ready(servers, timeout, table, msg, m) && s.entry[m.x] == EntryIn(table, IdOf(msg))
    ensures var r := Handler(servers, timeout, table, msg, m);
            && EntryIn(r.table, IdOf(msg)) == s.entry[m.x]
            && Tells(s, t, m.x, r, IdOf(msg), w, if m.x == t.root && !m.userKnown then [] else [T.Hit(msg.hit)])
            && s.entry[m.x].value.asker == (if m.x == t.root then None else Some(t.parent[m.x]))
  {
    assert T.EntryOk(t, s, m.x);
    ResultDoes(table, msg.id, msg.hit, m.userKnown, m.now, timeout, w, msg.id);
    if m.x != t.root {
      ResultDoes(table, msg.id, msg.hit, m.userKnown, m.now, timeout, t.parent[m.x], msg.id);
    }
  }

  lemma EndReply<H>(t: T.Tree, s: T.State<H>, servers: seq<Con>, timeout: int, table: seq<DSearch>, msg: Msg<H>, m: NetMove<H>, w: nat)
    requires T.Inv(t, s) && m.Take? && msg.RemoteEnd? && m.x < T.Size(t) && s.entry[m.x].Some?
    requires Ready(servers, timeout, table, msg, m) && s.entry[m.x] == EntryIn(table, IdOf(msg))
    ensures var r := Handler(servers, timeout, table, msg, m);
            var e := s.entry[m.x].value;
            var last := e.count + 1 == e.numServers;
            && EntryIn(r.table, IdOf(msg)) == (if last then None else Some(e.(count := e.count + 1)))
            && Tells(s, t, m.x, r, IdOf(msg), w, if last then [T.End] else [])
            && e.asker == (if m.x == t.root then None else Some(t.parent[m.x]))
  {
    assert T.EntryOk(t, s, m.x);
    EndDoes<H>(table, msg.id, m.now, timeout, w, msg.id);
    if m.x != t.root {
      EndDoes<H>(table, msg.id, m.now, timeout, t.parent[m.x], msg.id);
    }
  }

  lemma NoGrandparentLoop(t: T.Tree, x: nat)
    requires T.IsTree(t) && x < T.Size(t) && x != t.root
    ensures t.parent[x] != x
    ensures t.parent[x] != t.root ==> t.parent[t.parent[x]] != x
  {}

  lemma HitIsSimulated<H>(t: T.Tree, s: T.State<H>, s': T.State<H>, servers: seq<Con>, timeout: int, table: seq<DSearch>,
                          msg: Msg<H>, m: NetMove<H>, w: nat)
    requires T.Inv(t, s) && T.Shaped(t, s') && m.Take? && w < T.Size(t) && m.x < T.Size(t)
    requires Ready(servers, timeout, table, msg, m) && msg.RemoteResult? && s.entry[m.x].Some?
    requires T.Kid(t, m.x, m.y) && s.entry[m.x] == EntryIn(table, IdOf(msg)) && T.Enabled(t, s, MoveIn(servers, msg, m))
    requires s.up[m.y][0] == T.Hit(msg.hit)
    requires FollowsIn(t, s, s', table, msg, m, Handler(servers, timeout, table, msg, m), w)
    ensures SameAt(s', T.Apply(t, s, MoveIn(servers, msg, m)), w)
  {
    hide Handler, OutTo, ToUser, Ready, EntryIn, T.Inv, T.IsTree, T.Kids, T.Searched;
    InvIsShaped(t, s);
    HitReply(t, s, servers, timeout, table, msg, m, w);
    NoGrandparentLoop(t, m.y);
  }

  lemma EndStep<H>(t: T.Tree, s: T.State<H>, s': T.State<H>, y: nat, w: nat)
    requires T.Shaped(t, s) && T.Shaped(t, s') && w < T.Size(t)
    requires T.Enabled(t, s, T.TakeEnd(y)) && s.entry[t.parent[y]].Some?
    requires s.entry[t.parent[y]].value.asker == (if t.parent[y] == t.root then None else Some(t.parent[t.parent[y]]))
    requires var x := t.parent[y];
             var e := s.entry[x].value;
             var last := e.count + 1 == e.numServers;
             && LeavesAt(t, s, s', w,
                  if w == x then (if last then None else Some(e.(count := e.count + 1))) else s.entry[w],
                  s.down[w],
                  if w == y then s.up[w][1..] else if w == x && last then s.up[w] + [T.End] else s.up[w],
                  s.asks[w],
                  if w == y then s.ends[w] + 1 else s.ends[w])
             && s'.user == (if last && x == t.root then s.user + [T.End] else s.user)
    requires s'.made == s.made && s'.strays == s.strays
    ensures SameAt(s', T.Apply(t, s, T.TakeEnd(y)), w)
  {
    NoGrandparentLoop(t, y);
  }

  lemma InvIsShaped<H>(t: T.Tree, s: T.State<H>)
    requires T.Inv(t, s)
    ensures T.Shaped(t, s)
  {}

  lemma EndIsSimulated<H>(t: T.Tree, s: T.State<H>, s': T.State<H>, servers: seq<Con>, timeout: int, table: seq<DSearch>,
                          msg: Msg<H>, m: NetMove<H>, w: nat)
    requires T.Inv(t, s) && T.Shaped(t, s') && m.Take? && w < T.Size(t) && m.x < T.Size(t)
    requires Ready(servers, timeout, table, msg, m) && msg.RemoteEnd? && s.entry[m.x].Some?
    requires T.Kid(t, m.x, m.y) && s.entry[m.x] == EntryIn(table, IdOf(msg)) && T.Enabled(t, s, MoveIn(servers, msg, m))
    requires FollowsIn(t, s, s', table, msg, m, Handler(servers, timeout, table, msg, m), w)
    ensures SameAt(s', T.Apply(t, s, MoveIn(servers, msg, m)), w)
  {
    hide Handler, OutTo, ToUser, Ready, EntryIn, T.Inv, T.IsTree, T.Apply, SameAt, T.Kids;
    InvIsShaped(t, s);
    EndReply(t, s, servers, timeout, table, msg, m, w);
    NoGrandparentLoop(t, m.y);
    EndStep(t, s, s', m.y, w);
  }

  lemma SameEverywhere<H>(s: T.State<H>, s': T.State<H>, n: nat)
    requires n > 0 && |s.entry| == |s.down| == |s.up| == |s.asks| == |s.ends| == n
    requires forall w :: 0 <= w < n ==> SameAt(s, s', w)
    ensures s == s'
  {
    assert SameAt(s, s', 0);
    forall w | 0 <= w < n
      ensures s.entry[w] == s'.entry[w] && s.down[w] == s'.down[w] && s.up[w] == s'.up[w]
              && s.asks[w] == s'.asks[w] && s.ends[w] == s'.ends[w]
    {
      assert SameAt(s, s', w);
    }
    assert s.entry == s'.entry && s.down == s'.down && s.up == s'.up && s.asks == s'.asks && s.ends == s'.ends;
  }

  // A server that takes a message does, for the search it is about, exactly one move of
  // the tree.
  lemma MoveSimulates<H>(c: Cluster, net: Net<H>, m: NetMove<H>)
    requires Sound(c, net) && CanDo(c, net, m) && m.Take?
    ensures var t := TreeOf(c, net, IdOf(Taken(net, m)));
            && T.Inv(t, Before(c, net, m)) && T.Enabled(t, Before(c, net, m), TreeMove(c, net, m))
            && After(c, net, m) == T.Apply(t, Before(c, net, m), TreeMove(c, net, m))
  {
    var msg := Taken(net, m);
    var t, s := TreeOf(c, net, IdOf(msg)), Before(c, net, m);
    TreeMoveIsEnabled(c, net, m);
    forall w | 0 <= w < T.Size(t) ensures SameAt(After(c, net, m), T.Apply(t, s, TreeMove(c, net, m)), w) {
      SimulatedAt(c, net, m, w);
    }
    SameEverywhere(After(c, net, m), T.Apply(t, s, TreeMove(c, net, m)), T.Size(t));
  }

  lemma EntryBefore<H>(c: Cluster, net: Net<H>, m: NetMove<H>)
    requires CanDo(c, net, m) && m.Take?
    ensures Before(c, net, m).entry[m.x] == EntryIn(net.table[m.x], IdOf(Taken(net, m)))
  {
    hide SameLinks, IsCluster, ById, EntryIn;
  }

  lemma SimulatedAt<H>(c: Cluster, net: Net<H>, m: NetMove<H>, w: nat)
    requires Sound(c, net) && CanDo(c, net, m) && m.Take? && w < T.Size(c.tree)
    requires T.Enabled(TreeOf(c, net, IdOf(Taken(net, m))), Before(c, net, m), TreeMove(c, net, m))
    ensures var t := TreeOf(c, net, IdOf(Taken(net, m)));
            SameAt(After(c, net, m), T.Apply(t, Before(c, net, m), TreeMove(c, net, m)), w)
  {
    hide Sound, Handler, T.Inv, T.Enabled, T.Apply, SameAt, FollowsIn, PeersOf, SameLinks, Ready, View;
    EntryBefore(c, net, m);
    var msg, servers, table := Taken(net, m), c.servers[m.x], net.table[m.x];
    var t, s, s' := TreeOf(c, net, IdOf(msg)), Before(c, net, m), After(c, net, m);
    TakenIsSound(c, net, m);
    MoveIsReady(c, net, m);
    WhereItComesFrom(c, net, m);
    MoveFollows(c, net, m, w);
    var tm := MoveIn(servers, msg, m);
    if msg.RemoteSearch? {
      PeersInTree(c, net, IdOf(msg), m.x);
      AskIsSimulated(t, s, s', servers, c.timeout, table, msg, m, w);
    } else if msg.RemoteResult? {
      T.HitIsAwaited(t, s, tm);
      HitIsSimulated(t, s, s', servers, c.timeout, table, msg, m, w);
    } else {
      T.EndIsAwaited(t, s, tm);
      EndIsSimulated(t, s, s', servers, c.timeout, table, msg, m, w);
    }
  }

  // --- Searches a move is not about do not notice it ----------------------------------------------------

  lemma OtherLink<H>(c: Cluster, net: Net<H>, m: NetMove<H>, id: string, a: nat, b: nat)
    requires Sound(c, net) && CanDo(c, net, m) && a < T.Size(c.tree) && b < T.Size(c.tree)
    requires id != MoveId(m, Taken(net, m))
    ensures ById(LinkNext(c, net, m, ReplyOf(c, net, m))[a][b], id) == ById(net.link[a][b], id)
  {
    MoveIsReady(c, net, m);
    OtherReply(c.servers[m.x], c.timeout, net.table[m.x], Taken(net, m), m, b, id);
    LinkAfter(c, net, m, a, b, id);
    OtherTail(c, net, m, id);
    hide OutTo, Handler, LinkNext, Ready, Sound, IsCluster, ById;
  }

  lemma OtherEntry<H>(c: Cluster, net: Net<H>, m: NetMove<H>, id: string)
    requires Sound(c, net) && CanDo(c, net, m) && id != MoveId(m, Taken(net, m))
    ensures EntryIn(ReplyOf(c, net, m).table, id) == EntryIn(net.table[m.x], id)
  {
    MoveIsReady(c, net, m);
    OtherReply(c.servers[m.x], c.timeout, net.table[m.x], Taken(net, m), m, 0, id);
  }

  ghost predicate Viewable<H>(t: T.Tree, net: Net<H>, id: string) {
    && T.IsTree(t) && id in net.log && |net.table| == T.Size(t)
    && Square(T.Size(t), net.link) && Square(T.Size(t), net.log[id].asked) && Square(T.Size(t), net.log[id].ended)
  }

  lemma SameViewAt<H>(t: T.Tree, net: Net<H>, net': Net<H>, id: string, w: nat)
    requires Viewable(t, net, id) && Viewable(t, net', id) && w < T.Size(t)
    requires net'.log[id] == net.log[id] && EntryIn(net'.table[w], id) == EntryIn(net.table[w], id)
    requires w != t.root ==> ById(net'.link[t.parent[w]][w], id) == ById(net.link[t.parent[w]][w], id)
    requires w != t.root ==> ById(net'.link[w][t.parent[w]], id) == ById(net.link[w][t.parent[w]], id)
    ensures SameAt(View(t, net', id), View(t, net, id), w)
  {
    hide EntryIn, ById;
  }

  lemma DoKeeps<H>(c: Cluster, net: Net<H>, m: NetMove<H>, id: string, w: nat)
    requires CanDo(c, net, m) && w < T.Size(c.tree)
    requires id in net.log && id != MoveId(m, Taken(net, m))
    ensures var net' := Do(c, net, m);
            && net'.log[id] == net.log[id] && net'.link == LinkNext(c, net, m, ReplyOf(c, net, m))
            && net'.table[w] == (if w == m.x then ReplyOf(c, net, m).table else net.table[w])
            && Viewable(TreeOf(c, net, id), net, id) && Viewable(TreeOf(c, net, id), net', id)
  {
    hide ReplyOf, LinkNext, LogNext, Taken, SameLinks;
  }

  lemma OtherViewAt<H>(c: Cluster, net: Net<H>, m: NetMove<H>, id: string, w: nat)
    requires Sound(c, net) && CanDo(c, net, m) && w < T.Size(c.tree)
    requires id in net.log && id != MoveId(m, Taken(net, m))
    ensures SameAt(View(TreeOf(c, net, id), Do(c, net, m), id), View(TreeOf(c, net, id), net, id), w)
  {
    hide Do, LinkNext, LogNext, ReplyOf, IsCluster, EntryIn, ById, SameLinks, SameAt, View, CanDo, T.Inv;
    var t, net' := TreeOf(c, net, id), Do(c, net, m);
    DoKeeps(c, net, m, id, w);
    OtherEntry(c, net, m, id);
    if w != t.root {
      OtherLink(c, net, m, id, t.parent[w], w);
      OtherLink(c, net, m, id, w, t.parent[w]);
    }
    SameViewAt(t, net, net', id, w);
  }

  lemma OtherTail<H>(c: Cluster, net: Net<H>, m: NetMove<H>, id: string)
    requires Sound(c, net) && CanDo(c, net, m) && id != MoveId(m, Taken(net, m))
    ensures m.Take? ==> ById(net.link[m.y][m.x][1..], id) == ById(net.link[m.y][m.x], id)
  {
    if m.Take? {
      assert LinkSound(c, net, m.y, m.x);
      assert Between(Taken(net, m));
    }
  }

  lemma OtherView<H>(c: Cluster, net: Net<H>, m: NetMove<H>, id: string)
    requires Sound(c, net) && CanDo(c, net, m) && id in net.log && id != MoveId(m, Taken(net, m))
    ensures View(TreeOf(c, net, id), Do(c, net, m), id) == View(TreeOf(c, net, id), net, id)
  {
    var t := TreeOf(c, net, id);
    forall w | 0 <= w < T.Size(t) ensures SameAt(View(t, Do(c, net, m), id), View(t, net, id), w) {
      OtherViewAt(c, net, m, id, w);
    }
    SameEverywhere(View(t, Do(c, net, m), id), View(t, net, id), T.Size(t));
  }

  // --- The packets of a reply stay on the links of the tree -----------------------------------------------

  ghost predicate AllAbout<H>(sent: seq<Packet<H>>, id: string) {
    forall p :: p in sent ==> p.to.Peer? ==> About(p.msg, id).Some?
  }

  lemma ReplyIsAbout<H>(servers: seq<Con>, timeout: int, table: seq<DSearch>, msg: Msg<H>, m: NetMove<H>)
    requires Ready(servers, timeout, table, msg, m)
    ensures var r := Handler(servers, timeout, table, msg, m);
            && AllAbout(r.sent, MoveId(m, msg)) && NoTwinIds(r.table)
            && forall d :: d in r.table ==> d.id == MoveId(m, msg) || exists d0 :: d0 in table && d0.id == d.id
  {
    match m
    case Begin(_, client, nick, id, answer, now) => SearchIsAbout(servers, table, Client(client), nick, id, now, answer);
    case Take(_, y, _, _, answer, now) =>
      match msg
      case RemoteSearch(nick, id, _) => SearchIsAbout(servers, table, Peer(y), nick, id, now, answer);
      case RemoteResult(id, hit) =>
        NothingStale<H>(table, id, now, timeout);
      case RemoteEnd(id) =>
        NothingStale<H>(table, id, now, timeout);
        EndDoes<H>(table, id, now, timeout, 0, id);
        EndKeepsIds<H>(table, id, now, timeout);
  }

  lemma SearchIsAbout<H>(servers: seq<Con>, table: seq<DSearch>, con: Con, nick: string, id: string, now: int, a: Answer<H>)
    requires NoTwinIds(table) && EntryIn(table, id).None?
    ensures var r := OnSearch(table, servers, con, nick, id, now, a);
            && AllAbout(r.sent, id) && NoTwinIds(r.table)
            && forall d :: d in r.table ==> d.id == id || d in table
  {
    SearchTable(table, servers, con, nick, id, now, a, id);
    if a.Searched? {
      L.PassMessageSends<H>(servers, con, RemoteSearch(nick, id, a.request));
    }
  }

  lemma {:induction false} AddressedAreAbout<H>(sent: seq<Packet<H>>, z: nat, id: string)
    requires AllAbout(sent, id)
    ensures forall msg :: msg in AddressedTo(sent, Peer(z)) ==> About(msg, id).Some?
    ensures AddressedTo(sent, Peer(z)) != [] ==> OutTo(sent, z, id) != []
  {
    if sent != [] {
      assert sent[0] in sent;
      AddressedAreAbout(sent[1..], z, id);
      var rest := AddressedTo(sent[1..], Peer(z));
      assert ([sent[0].msg] + rest)[1..] == rest;
    }
  }

  // Where a reply goes, it goes along a link.
  lemma SoundIsShaped<H>(c: Cluster, net: Net<H>)
    requires Sound(c, net)
    ensures ShapedNet(c, net)
  {}

  lemma PeerIsNextHere<H>(c: Cluster, net: Net<H>, x: nat, z: nat)
    requires ShapedNet(c, net) && x < T.Size(c.tree)
    ensures x < |c.servers| && (Peer(z) in c.servers[x] <==> Adjacent(c.tree, x, z))
  {
    assert PeersOf(c.tree, x, c.servers[x]);
  }

  lemma ReadyMeans<H>(servers: seq<Con>, timeout: int, table: seq<DSearch>, msg: Msg<H>, m: NetMove<H>)
    requires Ready(servers, timeout, table, msg, m)
    ensures NoTwinIds(table) && L.NoTwins(servers)
    ensures m.Take? ==> Between(msg) && forall d :: d in table ==> !Expired(d, m.now, timeout)
  {}

  lemma SameNeighbours<H>(c: Cluster, net: Net<H>, id: string, x: nat)
    requires ShapedNet(c, net) && id in net.log && x < T.Size(c.tree)
    ensures forall z :: 0 <= z < T.Size(c.tree) ==> (Adjacent(TreeOf(c, net, id), x, z) <==> Adjacent(c.tree, x, z))
  {
    hide IsCluster;
  }

  lemma AskerIsParent<H>(t: T.Tree, s: T.State<H>, x: nat)
    requires T.Inv(t, s) && x < T.Size(t) && s.entry[x].Some? && s.entry[x].value.asker.Some?
    ensures x != t.root && s.entry[x].value.asker == Some(t.parent[x]) && Adjacent(t, x, t.parent[x])
  {
    assert T.EntryOk(t, s, x);
  }

  lemma ReplyGoesToPeers<H>(c: Cluster, net: Net<H>, m: NetMove<H>, z: nat)
    requires Sound(c, net) && CanDo(c, net, m) && z < T.Size(c.tree)
    ensures OutTo(ReplyOf(c, net, m).sent, z, MoveId(m, Taken(net, m))) != [] ==> Adjacent(c.tree, m.x, z)
  {
    hide Sound, IsCluster, SameLinks, T.Inv, PeersOf, Ready, ById, EntryIn, OutTo, ToUser;
    SoundIsShaped(c, net);
    PeerIsNextHere(c, net, m.x, z);
    var msg, servers, table := Taken(net, m), c.servers[m.x], net.table[m.x];
    MoveIsReady(c, net, m);
    ReadyMeans(servers, c.timeout, table, msg, m);
    match m
    case Begin(_, client, nick, id, answer, now) =>
      SearchOut(table, servers, Client(client), nick, id, now, answer, z, id);
    case Take(_, y, _, userKnown, _, now) =>
      var id := IdOf(msg);
      var t := TreeOf(c, net, id);
      WhereItComesFrom(c, net, m);
      TakenIsSound(c, net, m);
      SameNeighbours(c, net, id, m.x);
      EntryBefore(c, net, m);
      if EntryIn(table, id).Some? && EntryIn(table, id).value.asker.Some? {
        AskerIsParent(t, View(t, net, id), m.x);
      }
      match msg
      case RemoteSearch(nick, _, _) =>
        AskReply(servers, c.timeout, table, msg, m, z);
      case RemoteResult(_, hit) => ResultDoes(table, id, hit, userKnown, now, c.timeout, z, id);
      case RemoteEnd(_) => EndDoes<H>(table, id, now, c.timeout, z, id);
  }

  // --- A search begins ------------------------------------------------------------------------------------

  lemma {:induction false} NothingAbout<H>(msgs: seq<Msg<H>>, id: string)
    requires forall m :: m in msgs ==> Between(m) && IdOf(m) != id
    ensures ById(msgs, id) == []
  {
    if msgs != [] {
      assert msgs[0] in msgs;
      NothingAbout(msgs[1..], id);
    }
  }

  lemma BeginLink<H>(c: Cluster, net: Net<H>, m: NetMove<H>, a: nat, b: nat)
    requires Sound(c, net) && CanDo(c, net, m) && m.Begin? && a < T.Size(c.tree) && b < T.Size(c.tree)
    ensures var r := ReplyOf(c, net, m);
            ById(LinkNext(c, net, m, r)[a][b], m.id) == (if a == m.x then OutTo(r.sent, b, m.id) else [])
  {
    assert LinkSound(c, net, a, b);
    NothingAbout(net.link[a][b], m.id);
    LinkAfter(c, net, m, a, b, m.id);
    hide LinkNext, ById, OutTo, ReplyOf, Sound, IsCluster;
  }

  lemma BeginReply<H>(c: Cluster, net: Net<H>, m: NetMove<H>, z: nat)
    requires Sound(c, net) && CanDo(c, net, m) && m.Begin?
    ensures var r, forward := ReplyOf(c, net, m), AsksOthers(c.servers[m.x], Client(m.client), m.answer);
            && OutTo(r.sent, z, m.id) == (if forward && Adjacent(c.tree, m.x, z) then [T.Ask] else [])
            && ToUser(r.sent) == AnswerTo(m.answer, forward)
            && EntryIn(r.table, m.id) == (if forward then Some(T.Entry(None, 0, |c.servers[m.x]|)) else None)
  {
    MoveIsReady(c, net, m);
    assert PeersOf(c.tree, m.x, c.servers[m.x]);
    assert Peer(z) in c.servers[m.x] <==> Adjacent(c.tree, m.x, z);
    SearchOut(net.table[m.x], c.servers[m.x], Client(m.client), m.nick, m.id, m.now, m.answer, z, m.id);
    SearchTable(net.table[m.x], c.servers[m.x], Client(m.client), m.nick, m.id, m.now, m.answer, m.id);
  }

  ghost function Begun<H>(c: Cluster, net: Net<H>, m: NetMove<H>): (s: T.State<H>)
    requires CanDo(c, net, m) && m.Begin?
    ensures T.Shaped(Reroot(c.tree, m.x), s)
  {
    T.Start(Reroot(c.tree, m.x), HitsOf(m.answer), AsksOthers(c.servers[m.x], Client(m.client), m.answer))
  }

  lemma BeginEntry<H>(c: Cluster, net: Net<H>, m: NetMove<H>, w: nat)
    requires Sound(c, net) && CanDo(c, net, m) && m.Begin? && w < T.Size(c.tree)
    ensures EntryIn(Do(c, net, m).table[w], m.id) == Begun(c, net, m).entry[w]
    ensures AsksOthers(c.servers[m.x], Client(m.client), m.answer) ==> T.Kids(Reroot(c.tree, m.x), m.x, T.Size(c.tree)) > 0
  {
    var t := Reroot(c.tree, m.x);
    BeginReply(c, net, m, 0);
    assert PeersOf(c.tree, m.x, c.servers[m.x]);
    forall con ensures con in c.servers[m.x] <==> con.Peer? && Adjacent(t, m.x, con.n) {}
    PeersAreCounted(t, m.x, c.servers[m.x]);
    if w != m.x {
      assert TableSound(net, net.table[w]);
      UnknownIdHasNoEntry(net.table[w], m.id);
    }
    hide ReplyOf, EntryIn, Sound, IsCluster, LinkNext, LogNext, TableSound, PeersOf;
  }

  lemma BeginCounts<H>(c: Cluster, net: Net<H>, m: NetMove<H>, p: nat, w: nat)
    requires Sound(c, net) && CanDo(c, net, m) && m.Begin? && p < T.Size(c.tree) && w < T.Size(c.tree)
    ensures var log := LogNext(c, net, m, ReplyOf(c, net, m));
            && log.asked[p][w] == (if p == m.x && AsksOthers(c.servers[m.x], Client(m.client), m.answer) && Adjacent(c.tree, m.x, w)
                                   then 1 else 0)
            && log.ended[w][p] == 0 && log.origin == m.x
  {
    BeginReply(c, net, m, w);
    AskAsked<H>([], false);
    hide ReplyOf, EntryIn, Sound, IsCluster, LinkNext, OutTo, ToUser, MadeBy, StraysBy, AsksOthers, Adjacent;
  }

  lemma BeginLog<H>(c: Cluster, net: Net<H>, m: NetMove<H>)
    requires Sound(c, net) && CanDo(c, net, m) && m.Begin?
    ensures var log, s := LogNext(c, net, m, ReplyOf(c, net, m)), Begun(c, net, m);
            log.user == s.user && log.made == s.made && log.strays == s.strays
  {
    BeginReply(c, net, m, 0);
    hide ReplyOf, EntryIn, Sound, IsCluster, LinkNext, OutTo, ToUser;
  }

  lemma BeginLinks<H>(c: Cluster, net: Net<H>, m: NetMove<H>, w: nat)
    requires Sound(c, net) && CanDo(c, net, m) && m.Begin? && w < T.Size(c.tree) && w != m.x
    ensures var t, s, link := Reroot(c.tree, m.x), Begun(c, net, m), LinkNext(c, net, m, ReplyOf(c, net, m));
            && ById(link[t.parent[w]][w], m.id) == s.down[w] && ById(link[w][t.parent[w]], m.id) == s.up[w]
            && s.asks[w] == (if t.parent[w] == m.x && AsksOthers(c.servers[m.x], Client(m.client), m.answer) && Adjacent(c.tree, m.x, w)
                             then 1 else 0)
            && s.ends[w] == 0
  {
    var p := Reroot(c.tree, m.x).parent[w];
    BeginReply(c, net, m, w);
    BeginLink(c, net, m, p, w);
    BeginLink(c, net, m, w, p);
    assert p == m.x ==> Adjacent(Reroot(c.tree, m.x), m.x, w);
    hide ReplyOf, EntryIn, Sound, IsCluster, LinkNext, LogNext, OutTo, ToUser, ById;
  }

  lemma BeginAt<H>(c: Cluster, net: Net<H>, m: NetMove<H>, w: nat)
    requires Sound(c, net) && CanDo(c, net, m) && m.Begin? && w < T.Size(c.tree)
    ensures SameAt(View(Reroot(c.tree, m.x), Do(c, net, m), m.id), Begun(c, net, m), w)
  {
    hide Do, ReplyOf, EntryIn, Sound, IsCluster, LinkNext, LogNext, OutTo, ToUser, ById, AsksOthers, Adjacent, SameLinks, Begun;
    BeginDoes(c, net, m);
    BeginEntry(c, net, m, w);
    BeginLog(c, net, m);
    if w != m.x {
      BeginLinks(c, net, m, w);
      BeginCounts(c, net, m, Reroot(c.tree, m.x).parent[w], w);
    } else {
      BeginRoot(c, net, m);
    }
  }

  lemma BeginRoot<H>(c: Cluster, net: Net<H>, m: NetMove<H>)
    requires CanDo(c, net, m) && m.Begin?
    ensures var s, x := Begun(c, net, m), m.x; s.down[x] == [] && s.up[x] == [] && s.asks[x] == 0 && s.ends[x] == 0
  {}

  lemma BeginDoes<H>(c: Cluster, net: Net<H>, m: NetMove<H>)
    requires CanDo(c, net, m) && m.Begin?
    ensures var net' := Do(c, net, m);
            && net'.log[m.id] == LogNext(c, net, m, ReplyOf(c, net, m)) && net'.link == LinkNext(c, net, m, ReplyOf(c, net, m))
            && Viewable(Reroot(c.tree, m.x), net', m.id)
    ensures T.IsTree(c.tree) && m.x < T.Size(c.tree)
  {
    hide ReplyOf, LinkNext, LogNext;
  }

  lemma BeginStarts<H>(c: Cluster, net: Net<H>, m: NetMove<H>)
    requires Sound(c, net) && CanDo(c, net, m) && m.Begin?
    ensures View(Reroot(c.tree, m.x), Do(c, net, m), m.id) == Begun(c, net, m)
    ensures T.Inv(Reroot(c.tree, m.x), Begun(c, net, m))
    ensures AsksOthers(c.servers[m.x], Client(m.client), m.answer) ==> T.Kids(Reroot(c.tree, m.x), m.x, T.Size(c.tree)) > 0
  {
    var t := Reroot(c.tree, m.x);
    forall w | 0 <= w < T.Size(t) ensures SameAt(View(t, Do(c, net, m), m.id), Begun(c, net, m), w) {
      BeginAt(c, net, m, w);
    }
    SameEverywhere(View(t, Do(c, net, m), m.id), Begun(c, net, m), T.Size(t));
    BeginEntry(c, net, m, 0);
    T.StartHolds(t, HitsOf(m.answer), AsksOthers(c.servers[m.x], Client(m.client), m.answer));
  }

  // --- Every move keeps the cluster sound -------------------------------------------------------------------

  lemma LinkHolds<H>(c: Cluster, net: Net<H>, m: NetMove<H>, a: nat, b: nat)
    requires CanDo(c, net, m) && a < T.Size(c.tree) && b < T.Size(c.tree)
    ensures forall msg :: msg in LinkNext(c, net, m, ReplyOf(c, net, m))[a][b] ==>
              msg in net.link[a][b] || (a == m.x && msg in AddressedTo(ReplyOf(c, net, m).sent, Peer(b)))
  {
    hide ReplyOf, AddressedTo, IsCluster;
  }

  lemma ReplySound<H>(c: Cluster, net: Net<H>, m: NetMove<H>)
    requires Sound(c, net) && CanDo(c, net, m)
    ensures AllAbout(ReplyOf(c, net, m).sent, MoveId(m, Taken(net, m)))
    ensures NoTwinIds(ReplyOf(c, net, m).table)
    ensures forall d :: d in ReplyOf(c, net, m).table ==>
              d.id == MoveId(m, Taken(net, m)) || exists d0 :: d0 in net.table[m.x] && d0.id == d.id
  {
    MoveIsReady(c, net, m);
    ReplyIsAbout(c.servers[m.x], c.timeout, net.table[m.x], Taken(net, m), m);
  }

  lemma ReplyLinksSound<H>(c: Cluster, net: Net<H>, m: NetMove<H>, b: nat)
    requires Sound(c, net) && CanDo(c, net, m) && b < T.Size(c.tree)
    ensures forall msg :: msg in AddressedTo(ReplyOf(c, net, m).sent, Peer(b)) ==>
              Adjacent(c.tree, m.x, b) && Between(msg) && IdOf(msg) == MoveId(m, Taken(net, m))
  {
    hide OutTo, Handler, Sound, IsCluster, AddressedTo, AllAbout, NoTwinIds, ReplyOf, Taken, Adjacent;
    ReplySound(c, net, m);
    AddressedAreAbout(ReplyOf(c, net, m).sent, b, MoveId(m, Taken(net, m)));
    ReplyGoesToPeers(c, net, m, b);
  }

  lemma LinkStaysSound<H>(c: Cluster, net: Net<H>, m: NetMove<H>, a: nat, b: nat)
    requires Sound(c, net) && CanDo(c, net, m) && a < T.Size(c.tree) && b < T.Size(c.tree)
    ensures LinkSound(c, Do(c, net, m), a, b)
  {
    hide ReplyOf, Sound, IsCluster, LogNext, LinkNext, AddressedTo, Adjacent, Taken, MoveId;
    LinkIsSound(c, net, a, b);
    LinkHolds(c, net, m, a, b);
    ReplyLinksSound(c, net, m, b);
    var link := Do(c, net, m).link[a][b];
    assert link != [] ==> link[0] in link;
  }

  lemma LinkIsSound<H>(c: Cluster, net: Net<H>, x: nat, y: nat)
    requires Sound(c, net) && x < T.Size(c.tree) && y < T.Size(c.tree)
    ensures LinkSound(c, net, x, y)
  {}

  lemma TableStaysSound<H>(c: Cluster, net: Net<H>, m: NetMove<H>, x: nat)
    requires Sound(c, net) && CanDo(c, net, m) && x < T.Size(c.tree)
    ensures TableSound(Do(c, net, m), Do(c, net, m).table[x])
  {
    hide ReplyOf, Sound, IsCluster, LogNext, LinkNext, AllAbout, NoTwinIds;
    TableIsSound(c, net, x);
    TableIsSound(c, net, m.x);
    ReplySound(c, net, m);
  }

  lemma TableIsSound<H>(c: Cluster, net: Net<H>, x: nat)
    requires Sound(c, net) && x < T.Size(c.tree)
    ensures TableSound(net, net.table[x])
  {}

  lemma ViewStaysSound<H>(c: Cluster, net: Net<H>, m: NetMove<H>, id: string)
    requires Sound(c, net) && CanDo(c, net, m) && id in Do(c, net, m).log
    ensures T.Inv(TreeOf(c, Do(c, net, m), id), View(TreeOf(c, Do(c, net, m), id), Do(c, net, m), id))
  {
    var t, net' := TreeOf(c, Do(c, net, m), id), Do(c, net, m);
    if id != MoveId(m, Taken(net, m)) {
      OtherView(c, net, m, id);
    } else if m.Begin? {
      BeginStarts(c, net, m);
    } else {
      MoveSimulates(c, net, m);
      T.MoveHolds(t, Before(c, net, m), TreeMove(c, net, m));
    }
  }

  lemma DoIsSound<H>(c: Cluster, net: Net<H>, m: NetMove<H>)
    requires Sound(c, net) && CanDo(c, net, m)
    ensures Sound(c, Do(c, net, m))
  {
    hide Do, LinkSound, TableSound, View, TreeOf, T.Inv, IsCluster, CanDo, Taken, MoveId;
    var net' := Do(c, net, m);
    forall a, b | 0 <= a < T.Size(c.tree) && 0 <= b < T.Size(c.tree) ensures LinkSound(c, net', a, b) {
      LinkStaysSound(c, net, m, a, b);
    }
    forall x | 0 <= x < T.Size(c.tree) ensures TableSound(net', net'.table[x]) {
      TableStaysSound(c, net, m, x);
    }
    forall id | id in net'.log ensures T.Inv(TreeOf(c, net', id), View(TreeOf(c, net', id), net', id)) {
      ViewStaysSound(c, net, m, id);
    }
  }

  // --- Whole runs of the cluster ---------------------------------------------------------------------------

  function Idle<H>(c: Cluster): Net<H> {
    var n := T.Size(c.tree);
    Net(seq(n, _ => []), seq(n, _ => seq(n, _ => [])), map[])
  }

  ghost predicate Runs<H>(c: Cluster, moves: seq<NetMove<H>>, nets: seq<Net<H>>) {
    && IsCluster(c) && |nets| == |moves| + 1 && nets[0] == Idle(c)
    && forall i :: 0 <= i < |moves| ==>
         CanDo(c, nets[i], moves[i]) && nets[i + 1] == Do(c, nets[i], moves[i])
  }

  lemma IdleIsSound<H>(c: Cluster)
    requires IsCluster(c)
    ensures Sound<H>(c, Idle<H>(c))
  {}

  lemma {:induction false} RunIsSound<H>(c: Cluster, moves: seq<NetMove<H>>, nets: seq<Net<H>>, i: nat)
    requires Runs(c, moves, nets) && i <= |moves|
    ensures Sound(c, nets[i])
  {
    hide CanDo, Do, LinkSound, T.Inv, IsCluster;
    if i == 0 {
      IdleIsSound<H>(c);
    } else {
      RunIsSound(c, moves, nets, i - 1);
      DoIsSound(c, nets[i - 1], moves[i - 1]);
    }
  }

  // How many of the first i moves took a message about search id off a link.
  function TakesAbout<H>(moves: seq<NetMove<H>>, nets: seq<Net<H>>, i: nat, id: string): nat
    requires i <= |moves| <= |nets|
  {
    if i == 0 then 0
    else
      var rest := TakesAbout(moves, nets, i - 1, id);
      if moves[i - 1].Take? && IdOf(Taken(nets[i - 1], moves[i - 1])) == id then rest + 1 else rest
  }

  // A run of the tree of one search that has led to its view of the cluster.
  datatype Story<H> = Story(t: T.Tree, hits: seq<H>, forward: bool, moves: seq<T.Move<H>>, states: seq<T.State<H>>)

  ghost predicate Accounts<H>(y: Story<H>, c: Cluster, net: Net<H>, id: string, takes: nat) {
    && ShapedNet(c, net) && id in net.log
    && y.t == TreeOf(c, net, id)
    && T.Trace(y.t, y.hits, y.forward, y.moves, y.states)
    && y.states[|y.moves|] == View(y.t, net, id)
    && |y.moves| == takes
  }

  ghost predicate AllKnown<H>(moves: seq<T.Move<H>>) {
    forall j :: 0 <= j < |moves| && moves[j].TakeHit? ==> moves[j].userKnown
  }

  // The tree of a new search hangs from the server where it began.
  lemma NewTree<H>(c: Cluster, net: Net<H>, m: NetMove<H>)
    requires CanDo(c, net, m) && m.Begin?
    ensures TreeOf(c, Do(c, net, m), m.id) == Reroot(c.tree, m.x)
    ensures T.IsTree(c.tree) && m.x < T.Size(c.tree) == |c.servers|
  {}

  lemma OldTree<H>(c: Cluster, net: Net<H>, m: NetMove<H>, id: string)
    requires CanDo(c, net, m) && id in net.log
    ensures TreeOf(c, Do(c, net, m), id) == TreeOf(c, net, id)
    ensures m.Take? || m.id != id
  {}

  lemma MoveIsAboutSomething<H>(c: Cluster, net: Net<H>, m: NetMove<H>)
    requires CanDo(c, net, m)
    ensures if m.Take? then MoveId(m, Taken(net, m)) in net.log else m.id !in net.log
  {}

  lemma StoryBegins<H>(c: Cluster, net: Net<H>, m: NetMove<H>) returns (y: Story<H>)
    requires Sound(c, net) && CanDo(c, net, m) && m.Begin?
    ensures Accounts(y, c, Do(c, net, m), m.id, 0) && AllKnown(y.moves)
  {
    hide IsCluster, Sound, SameLinks, Do, View, ShapedNet, T.Inv, T.Start, CanDo, T.Kids, AsksOthers, TreeOf, Reroot;
    BeginStarts(c, net, m);
    NewTree(c, net, m);
    y := Story(Reroot(c.tree, m.x), HitsOf(m.answer), AsksOthers(c.servers[m.x], Client(m.client), m.answer),
               [], [Begun(c, net, m)]);
  }

  lemma StoryGrows<H>(y: Story<H>, tm: T.Move<H>, s': T.State<H>) returns (y': Story<H>)
    requires T.Trace(y.t, y.hits, y.forward, y.moves, y.states)
    requires T.Shaped(y.t, y.states[|y.moves|]) && T.Enabled(y.t, y.states[|y.moves|], tm)
    requires s' == T.Apply(y.t, y.states[|y.moves|], tm)
    ensures y'.t == y.t && T.Trace(y'.t, y'.hits, y'.forward, y'.moves, y'.states)
    ensures |y'.moves| == |y.moves| + 1 && y'.states[|y'.moves|] == s'
    ensures AllKnown(y.moves) && (tm.TakeHit? ==> tm.userKnown) ==> AllKnown(y'.moves)
  {
    TraceGrows(y.t, y.hits, y.forward, y.moves, y.states, tm);
    hide T.Apply, T.Enabled, T.Trace, T.Shaped;
    y' := y.(moves := y.moves + [tm], states := y.states + [s']);
  }

  lemma StoryMoves<H>(c: Cluster, net: Net<H>, m: NetMove<H>, y: Story<H>, takes: nat) returns (y': Story<H>)
    requires Sound(c, net) && CanDo(c, net, m) && m.Take? && Accounts(y, c, net, IdOf(Taken(net, m)), takes)
    ensures Accounts(y', c, Do(c, net, m), IdOf(Taken(net, m)), takes + 1)
    ensures AllKnown(y.moves) && m.userKnown ==> AllKnown(y'.moves)
  {
    hide IsCluster, ShapedNet, Sound, CanDo, Square, Do, View, T.Apply, T.Enabled, T.Inv, T.Trace, TreeOf, Taken, AllKnown;
    OldTree(c, net, m, IdOf(Taken(net, m)));
    MoveSimulates(c, net, m);
    var tm, s' := TreeMove(c, net, m), After(c, net, m);
    y' := StoryGrows(y, tm, s');
  }

  lemma StoryWaits<H>(c: Cluster, net: Net<H>, m: NetMove<H>, y: Story<H>, id: string, takes: nat)
    requires Sound(c, net) && CanDo(c, net, m) && MoveId(m, Taken(net, m)) != id && Accounts(y, c, net, id, takes)
    ensures Accounts(y, c, Do(c, net, m), id, takes)
  {
    OldTree(c, net, m, id);
    OtherView(c, net, m, id);
    hide IsCluster, ShapedNet, Sound, CanDo, Square, Do, View, T.Trace, TreeOf, Taken;
  }

  // What has happened for one search is a run of its tree.
  lemma {:induction false} RunOfOneSearch<H>(c: Cluster, moves: seq<NetMove<H>>, nets: seq<Net<H>>, i: nat, id: string)
    returns (y: Story<H>)
    requires Runs(c, moves, nets) && i <= |moves| && ShapedNet(c, nets[i]) && id in nets[i].log
    ensures Accounts(y, c, nets[i], id, TakesAbout(moves, nets, i, id))
    ensures (forall j :: 0 <= j < i && moves[j].Take? ==> moves[j].userKnown) ==> AllKnown(y.moves)
    decreases i
  {
    hide Runs, ShapedNet, Sound, Do, Accounts, AllKnown, CanDo, Taken, TakesAbout;
    RunStep(c, moves, nets, i);
    var net, m := nets[i - 1], moves[i - 1];
    TakesOnce(moves, nets, i, id);
    MoveIsAboutSomething(c, net, m);
    if m.Begin? && m.id == id {
      y := StoryBegins(c, net, m);
      NoTakesYet(c, moves, nets, i - 1, id);
    } else {
      y := RunOfOneSearch(c, moves, nets, i - 1, id);
      if MoveId(m, Taken(net, m)) == id {
        y := StoryMoves(c, net, m, y, TakesAbout(moves, nets, i - 1, id));
      } else {
        StoryWaits(c, net, m, y, id, TakesAbout(moves, nets, i - 1, id));
      }
    }
  }

  lemma RunStep<H>(c: Cluster, moves: seq<NetMove<H>>, nets: seq<Net<H>>, i: nat)
    requires Runs(c, moves, nets) && i <= |moves| && ShapedNet(c, nets[i]) && nets[i].log != map[]
    ensures i > 0 && |nets| == |moves| + 1
    ensures Sound(c, nets[i - 1]) && CanDo(c, nets[i - 1], moves[i - 1]) && nets[i] == Do(c, nets[i - 1], moves[i - 1])
    ensures ShapedNet(c, nets[i - 1])
  {
    RunIsSound(c, moves, nets, if i > 0 then i - 1 else 0);
    hide IsCluster, Sound, CanDo, Do;
  }

  lemma TakesOnce<H>(moves: seq<NetMove<H>>, nets: seq<Net<H>>, i: nat, id: string)
    requires 0 < i <= |moves| <= |nets|
    ensures TakesAbout(moves, nets, i, id) == TakesAbout(moves, nets, i - 1, id)
              + (if moves[i - 1].Take? && IdOf(Taken(nets[i - 1], moves[i - 1])) == id then 1 else 0)
  {}

  lemma TraceGrows<H>(t: T.Tree, hits: seq<H>, forward: bool, tmoves: seq<T.Move<H>>, tstates: seq<T.State<H>>, tm: T.Move<H>)
    requires T.Trace(t, hits, forward, tmoves, tstates)
    requires T.Shaped(t, tstates[|tmoves|]) && T.Enabled(t, tstates[|tmoves|], tm)
    ensures T.Trace(t, hits, forward, tmoves + [tm], tstates + [T.Apply(t, tstates[|tmoves|], tm)])
  {
    hide T.Apply, T.Enabled, T.Start;
  }

  lemma {:induction false} NoTakesYet<H>(c: Cluster, moves: seq<NetMove<H>>, nets: seq<Net<H>>, i: nat, id: string)
    requires Runs(c, moves, nets) && i <= |moves| && ShapedNet(c, nets[i]) && id !in nets[i].log
    ensures TakesAbout(moves, nets, i, id) == 0
  {
    hide IsCluster, ShapedNet, Square, Do, Taken;
    if i > 0 {
      NoTakesYet(c, moves, nets, i - 1, id);
    }
  }

  // Nothing is left of a search: no message on a link, no entry in a table, every request
  // that went down a link of its tree answered by the one end that came up.
  ghost predicate Settled<H>(c: Cluster, net: Net<H>, id: string)
    requires ShapedNet(c, net) && id in net.log
  {
    var t, log := TreeOf(c, net, id), net.log[id];
    && (forall x :: 0 <= x < T.Size(t) ==> EntryIn(net.table[x], id).None?)
    && (forall y :: 0 <= y < T.Size(t) && y != t.root ==>
          && ById(net.link[t.parent[y]][y], id) == [] && ById(net.link[y][t.parent[y]], id) == []
          && log.asked[t.parent[y]][y] == log.ended[y][t.parent[y]] <= 1)
  }

  // Any number of searches, from any servers, interleaved in any way: the user who began
  // a search is told its end at most once and after everything else; by then nothing is
  // left of it anywhere, and every result any server produced for it has come in.
  lemma EndIsFinal<H>(c: Cluster, moves: seq<NetMove<H>>, nets: seq<Net<H>>, i: nat, id: string)
    requires Runs(c, moves, nets) && i <= |moves| && ShapedNet(c, nets[i]) && id in nets[i].log
    requires T.End in nets[i].log[id].user
    ensures var log := nets[i].log[id];
            && T.HitsThenEnd(log.user) && Settled(c, nets[i], id)
            && forall h :: T.Count(log.made, h) == T.Count(log.user, T.Hit(h)) + T.Count(log.strays, h)
  {
    var y := RunOfOneSearch(c, moves, nets, i, id);
    hide IsCluster, ShapedNet, Runs, Settled, T.Trace, T.Inv, T.HitsThenEnd, T.Count, ById, Square;
    T.EndComesLast(y.t, y.hits, y.forward, y.moves, y.states);
    SettledView(c, nets[i], id);
  }

  // --- Only the user who asked is told ---------------------------------------------------------------------

  // A client's entry, or a packet to a client, after a handler has run.
  lemma SearchHolds<H>(table: seq<DSearch>, servers: seq<Con>, con: Con, nick: string, id: string, now: int, a: Answer<H>)
    requires forall c <- servers :: c.Peer?
    ensures var r := OnSearch(table, servers, con, nick, id, now, a);
            && (forall d :: d in r.table && d.con.Client? ==> d in table || (d.con == con && d.id == id))
            && (forall p :: p in r.sent && p.to.Client? ==> p.to == con)
            && forall p :: p in r.sent ==> (Told(p.msg).Some? <==> p.to.Client?)
  {
    if a.Searched? {
      L.PassMessageSends<H>(servers, con, RemoteSearch(nick, id, a.request));
    }
  }

  lemma FoundIsThere<H>(table: seq<DSearch>, id: string, now: int, timeout: int)
    requires forall d :: d in table ==> !Expired(d, now, timeout)
    ensures var scan: Scan<H> := Find(table, id, now, timeout);
            scan.table == table && scan.sent == [] && (scan.at != -1 ==> table[scan.at] in table && table[scan.at].id == id)
  {
    NothingStale<H>(table, id, now, timeout);
  }

  predicate Holds(table: seq<DSearch>, con: Con, id: string) {
    exists e :: e in table && e.con == con && e.id == id
  }

  lemma ResultHolds<H>(table: seq<DSearch>, id: string, hit: H, userKnown: bool, now: int, timeout: int)
    requires forall d :: d in table ==> !Expired(d, now, timeout)
    ensures var r := OnResult(table, id, hit, userKnown, now, timeout);
            && r.table == table
            && forall p :: p in r.sent ==> Holds(table, p.to, id) && (Told(p.msg).Some? <==> p.to.Client?)
  {
    FoundIsThere<H>(table, id, now, timeout);
  }

  lemma EndHolds<H>(table: seq<DSearch>, id: string, now: int, timeout: int)
    requires forall d :: d in table ==> !Expired(d, now, timeout)
    ensures var r: Reply<H> := OnEnd(table, id, now, timeout);
            && (forall d :: d in r.table ==> Holds(table, d.con, d.id))
            && forall p :: p in r.sent ==> Holds(table, p.to, id) && (Told(p.msg).Some? <==> p.to.Client?)
  {
    hide Find, Told, Expired;
    FoundIsThere<H>(table, id, now, timeout);
    var scan: Scan<H> := Find(table, id, now, timeout);
    if scan.at != -1 {
      var d := table[scan.at];
      EndIsTold<H>(d.con, d.id);
      assert scan.sent + [EndTo<H>(d.con, d.id)] == [EndTo<H>(d.con, d.id)];
    }
  }

  lemma EndIsTold<H>(con: Con, id: string)
    ensures var p := EndTo<H>(con, id); p.to == con && (Told(p.msg).Some? <==> con.Client?)
  {}

  // Whoever is told something has asked this move, or holds an entry for its id.
  lemma ReplyHolds<H>(servers: seq<Con>, timeout: int, table: seq<DSearch>, msg: Msg<H>, m: NetMove<H>)
    requires Ready(servers, timeout, table, msg, m) && forall c <- servers :: c.Peer?
    ensures var r := Handler(servers, timeout, table, msg, m);
            && (forall d :: d in r.table && d.con.Client? ==>
                  (m.Begin? && d.con == Client(m.client) && d.id == m.id) || Holds(table, d.con, d.id))
            && (forall p :: p in r.sent && p.to.Client? ==>
                  (m.Begin? && p.to == Client(m.client)) || Holds(table, p.to, MoveId(m, msg)))
            && forall p :: p in r.sent ==> (Told(p.msg).Some? <==> p.to.Client?)
  {
    hide OnSearch, OnResult, OnEnd, NoTwinIds, EntryIn, Told;
    EndTells<H>();
    match m
    case Begin(_, client, nick, id, answer, now) => SearchHolds(table, servers, Client(client), nick, id, now, answer);
    case Take(_, y, _, userKnown, answer, now) =>
      match msg
      case RemoteSearch(nick, id, _) => SearchHolds(table, servers, Peer(y), nick, id, now, answer);
      case RemoteResult(id, hit) => ResultHolds(table, id, hit, userKnown, now, timeout);
      case RemoteEnd(id) => EndHolds<H>(table, id, now, timeout);
  }

  lemma EndTells<H>()
    ensures forall id :: Told<H>(RemoteEnd(id)) == None
  {}

  // One of the first i moves began search id at server x for this client.
  predicate BegunFor<H>(moves: seq<NetMove<H>>, i: nat, x: nat, con: Con, id: string)
    requires i <= |moves|
  {
    exists j :: 0 <= j < i && moves[j].Begin? && moves[j].x == x && moves[j].id == id && con == Client(moves[j].client)
  }

  lemma BegunStill<H>(moves: seq<NetMove<H>>, i: nat, x: nat, con: Con, id: string)
    requires i < |moves| && BegunFor(moves, i, x, con, id)
    ensures BegunFor(moves, i + 1, x, con, id)
  {}

  lemma BegunNow<H>(moves: seq<NetMove<H>>, i: nat)
    requires i < |moves| && moves[i].Begin?
    ensures BegunFor(moves, i + 1, moves[i].x, Client(moves[i].client), moves[i].id)
  {}

  lemma PeersAreServers<H>(c: Cluster, net: Net<H>, x: nat)
    requires ShapedNet(c, net) && x < T.Size(c.tree)
    ensures x < |c.servers| && forall con <- c.servers[x] :: con.Peer?
  {
    assert PeersOf(c.tree, x, c.servers[x]);
  }

  lemma ReplyAt<H>(c: Cluster, net: Net<H>, m: NetMove<H>, x: nat)
    requires CanDo(c, net, m) && x < T.Size(c.tree)
    ensures m.x < |c.servers| && m.x < |net.table| && x < |net.table|
    ensures ReplyOf(c, net, m) == Handler(c.servers[m.x], c.timeout, net.table[m.x], Taken(net, m), m)
    ensures Do(c, net, m).table[x] == if x == m.x then ReplyOf(c, net, m).table else net.table[x]
  {
    hide Handler, Taken, LinkNext, LogNext;
  }

  // Every entry of a client belongs to the user who began that search at that server.
  lemma {:induction false} HoldersBegan<H>(c: Cluster, moves: seq<NetMove<H>>, nets: seq<Net<H>>, i: nat, x: nat)
    requires Runs(c, moves, nets) && i <= |moves| && x < T.Size(c.tree) == |nets[i].table|
    ensures forall d :: d in nets[i].table[x] && d.con.Client? ==> BegunFor(moves, i, x, d.con, d.id)
    decreases i
  {
    hide IsCluster, ShapedNet, Sound, CanDo, Do, Taken, Handler, Ready, BegunFor, ReplyOf;
    if i > 0 {
      var net, m := nets[i - 1], moves[i - 1];
      RunIsSound(c, moves, nets, i - 1);
      SoundIsShaped(c, net);
      ReplyAt(c, net, m, x);
      SameSize(c, net);
      HoldersBegan(c, moves, nets, i - 1, x);
      PeersAreServers(c, net, m.x);
      MoveIsReady(c, net, m);
      ReplyHolds(c.servers[m.x], c.timeout, net.table[m.x], Taken(net, m), m);
      forall d | d in nets[i].table[x] && d.con.Client? ensures BegunFor(moves, i, x, d.con, d.id) {
        if Holds(net.table[x], d.con, d.id) {
          var e :| e in net.table[x] && e.con == d.con && e.id == d.id;
          BegunStill(moves, i - 1, x, d.con, d.id);
        } else {
          BegunNow(moves, i - 1);
        }
      }
    }
  }

  lemma SameSize<H>(c: Cluster, net: Net<H>)
    requires ShapedNet(c, net)
    ensures |net.table| == T.Size(c.tree)
  {}

  // In every run: what a server sends to a client about a search, a result or the end, goes to the
  // user who began that search, at the server where he began it; and a server sends its clients nothing else.
  lemma OnlyTheAskerIsTold<H>(c: Cluster, moves: seq<NetMove<H>>, nets: seq<Net<H>>, i: nat, p: Packet<H>)
    requires Runs(c, moves, nets) && i < |moves| && CanDo(c, nets[i], moves[i]) && p in ReplyOf(c, nets[i], moves[i]).sent
    ensures p.to.Client? ==> BegunFor(moves, i + 1, moves[i].x, p.to, MoveId(moves[i], Taken(nets[i], moves[i])))
    ensures Told(p.msg).Some? <==> p.to.Client?
  {
    hide IsCluster, ShapedNet, Sound, CanDo, Do, Taken, Handler, Ready, BegunFor, ReplyOf;
    var net, m := nets[i], moves[i];
    RunIsSound(c, moves, nets, i);
    SoundIsShaped(c, net);
    MoveHasServer(c, net, m);
    ReplyAt(c, net, m, m.x);
    SameSize(c, net);
    HoldersBegan(c, moves, nets, i, m.x);
    PeersAreServers(c, net, m.x);
    MoveIsReady(c, net, m);
    ReplyHolds(c.servers[m.x], c.timeout, net.table[m.x], Taken(net, m), m);
    if p.to.Client? {
      if Holds(net.table[m.x], p.to, MoveId(m, Taken(net, m))) {
        var e :| e in net.table[m.x] && e.con == p.to && e.id == MoveId(m, Taken(net, m));
        BegunStill(moves, i, m.x, p.to, e.id);
      } else {
        BegunNow(moves, i);
      }
    }
  }

  lemma MoveHasServer<H>(c: Cluster, net: Net<H>, m: NetMove<H>)
    requires CanDo(c, net, m)
    ensures m.x < T.Size(c.tree)
  {}

  lemma NobodyMoves<H(!new)>(c: Cluster, net: Net<H>, id: string)
    requires ShapedNet(c, net) && id in net.log
    requires forall a, b :: 0 <= a < T.Size(c.tree) && 0 <= b < T.Size(c.tree) ==> ById(net.link[a][b], id) == []
    ensures forall tm :: !T.Enabled(TreeOf(c, net, id), View(TreeOf(c, net, id), net, id), tm)
  {
    var t := TreeOf(c, net, id);
    var s := View(t, net, id);
    hide IsCluster, SameLinks, ById;
    forall y | 0 <= y < T.Size(t) ensures s.down[y] == [] && s.up[y] == [] {}
  }

  // A search about which no message is under way has been ended.
  lemma QuietMeansEnded<H(!new)>(c: Cluster, moves: seq<NetMove<H>>, nets: seq<Net<H>>, i: nat, id: string)
    requires Runs(c, moves, nets) && i <= |moves| && ShapedNet(c, nets[i]) && id in nets[i].log
    requires forall a, b :: 0 <= a < T.Size(c.tree) && 0 <= b < T.Size(c.tree) ==> ById(nets[i].link[a][b], id) == []
    ensures T.End in nets[i].log[id].user
  {
    var y := RunOfOneSearch(c, moves, nets, i, id);
    hide IsCluster, Runs, T.Trace, T.Inv, T.HitsThenEnd, T.Apply, ById, ShapedNet, Square, T.Enabled, T.Shaped;
    T.EveryRunEnds(y.t, y.hits, y.forward, y.moves, y.states);
    NobodyMoves(c, nets[i], id);
  }

  // A search is over after finitely many messages: two for every server, and for every
  // result at most as many as the tree is deep. Results go astray only when the origin
  // does not know their owner.
  lemma SearchIsFinite<H(!new)>(c: Cluster, moves: seq<NetMove<H>>, nets: seq<Net<H>>, i: nat, id: string)
    requires Runs(c, moves, nets) && i <= |moves| && ShapedNet(c, nets[i]) && id in nets[i].log
    ensures var log, n := nets[i].log[id], T.Size(c.tree);
            && TakesAbout(moves, nets, i, id) <= 2 * n + T.Deepest(TreeOf(c, nets[i], id), n) * |log.made|
            && ((forall j :: 0 <= j < i && moves[j].Take? ==> moves[j].userKnown) ==> log.strays == [])
  {
    var y := RunOfOneSearch(c, moves, nets, i, id);
    hide IsCluster, Runs, ShapedNet, T.Trace, T.Inv, T.Enabled, T.Apply, ById;
    T.EveryRunEnds(y.t, y.hits, y.forward, y.moves, y.states);
    if AllKnown(y.moves) {
      T.KnownResultsArrive(y.t, y.hits, y.forward, y.moves, y.states, |y.moves|);
    }
  }

  lemma SettledView<H>(c: Cluster, net: Net<H>, id: string)
    requires ShapedNet(c, net) && id in net.log
    ensures var t := TreeOf(c, net, id);
            var s := View(t, net, id);
            && (forall y :: 0 <= y < T.Size(t) ==> s.entry[y].None? && s.down[y] == [] && s.up[y] == [])
            && (forall y :: 0 <= y < T.Size(t) && y != t.root ==> s.asks[y] == s.ends[y] <= 1)
            ==> Settled(c, net, id)
  {
    var t := TreeOf(c, net, id);
    var s := View(t, net, id);
    if (forall y :: 0 <= y < T.Size(t) ==> s.entry[y].None? && s.down[y] == [] && s.up[y] == [])
       && (forall y :: 0 <= y < T.Size(t) && y != t.root ==> s.asks[y] == s.ends[y] <= 1) {
      forall x | 0 <= x < T.Size(t) ensures EntryIn(net.table[x], id).None? {
        assert s.entry[x].None?;
      }
      forall y | 0 <= y < T.Size(t) && y != t.root
        ensures ById(net.link[t.parent[y]][y], id) == [] && ById(net.link[y][t.parent[y]], id) == []
             && net.log[id].asked[t.parent[y]][y] == net.log[id].ended[y][t.parent[y]] <= 1
      {
        assert s.down[y] == [] && s.up[y] == [] && s.asks[y] == s.ends[y];
      }
    }
  }
}
