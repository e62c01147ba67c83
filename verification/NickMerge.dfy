/** login.c, synch.c: two servers link up and tell each other their users; a nick both of them know
    stays with the login that has the earlier timestamp. */
module NickMerge {
  import opened Options
  import opened Text

  datatype Login = Login(nick: string, connected: int, server: string)

  // The hash key of a nick.
  function Key(l: Login): string { Lower(l.nick) }

  predicate Keyed(m: map<string, Login>) { forall n <- m :: Key(m[n]) == n }

  // The login that is kept when l arrives and the nick is taken: only a strictly earlier one gets in.
  function Kept(held: Login, l: Login): Login { if l.connected < held.connected then l else held }

  // A server's table: its own logins, and those its peer has told it about.
  function Merged(own: map<string, Login>, told: map<string, Login>): map<string, Login> {
    map n | n in own.Keys + told.Keys ::
      if n !in told then own[n] else if n !in own then told[n] else Kept(own[n], told[n])
  }

  lemma MergedKeyed(own: map<string, Login>, told: map<string, Login>)
    requires Keyed(own) && Keyed(told)
    ensures Keyed(Merged(own, told))
  {}

  // Each of a server's own logins has been told to the peer or is on its way there, exactly once.
  ghost predicate Carried(own: map<string, Login>, told: map<string, Login>, out: seq<Login>) {
    && (forall n <- told :: n in own && told[n] == own[n])
    && (forall i :: 0 <= i < |out| ==> Key(out[i]) in own && own[Key(out[i])] == out[i] && Key(out[i]) !in told)
    && (forall i, j :: 0 <= i < j < |out| ==> Key(out[i]) != Key(out[j]))
    && (forall n <- own :: n in told || exists i :: 0 <= i < |out| && Key(out[i]) == n)
  }

  lemma MergedOwn(own: map<string, Login>, told: map<string, Login>, n: string, l: Login)
    requires n !in Merged(own, told)
    ensures Merged(own[n := l], told) == Merged(own, told)[n := l]
  {
    assert n !in own && n !in told;
  }

  lemma MergedTold(own: map<string, Login>, told: map<string, Login>, n: string, l: Login)
    requires n !in told
    ensures n in Merged(own, told) <==> n in own
    ensures n in own ==> Merged(own, told)[n] == own[n]
    ensures Merged(own, told[n := l]) == Merged(own, told)[n := if n in own then Kept(own[n], l) else l]
  {
  }

  // The part of the table outside todo has been sent, each entry once.
  ghost predicate Listed(users: map<string, Login>, out: seq<Login>, todo: set<string>) {
    && (forall i :: 0 <= i < |out| ==> Key(out[i]) in users && users[Key(out[i])] == out[i] && Key(out[i]) !in todo)
    && (forall i, j :: 0 <= i < j < |out| ==> Key(out[i]) != Key(out[j]))
    && (forall n <- users :: n in todo || exists i :: 0 <= i < |out| && Key(out[i]) == n)
  }

  lemma ListedOne(users: map<string, Login>, out: seq<Login>, todo: set<string>, n: string)
    requires Listed(users, out, todo) && n in todo && n in users && Key(users[n]) == n
    ensures Listed(users, out + [users[n]], todo - {n})
  {
    var now := out + [users[n]];
    forall m | m in users && m !in todo - {n} ensures exists i :: 0 <= i < |now| && Key(now[i]) == m {
      if m != n {
        var i :| 0 <= i < |out| && Key(out[i]) == m;
        assert Key(now[i]) == m;
      } else {
        assert Key(now[|out|]) == m;
      }
    }
  }

  lemma ListedAll(users: map<string, Login>, out: seq<Login>)
    requires Listed(users, out, {})
    ensures Carried(users, map[], out)
  {
  }

  lemma NobodyTold(own: map<string, Login>)
    ensures Merged(own, map[]) == own && Listed(own, [], own.Keys)
  {
    assert Merged(own, map[]).Keys == own.Keys;
  }

  class Server {
    var users: map<string, Login>
    // The peer is linked; out is what it has been sent and has not yet read.
    var linked: bool
    var out: seq<Login>
    ghost var own: map<string, Login>
    ghost var told: map<string, Login>

    ghost predicate Valid()
      reads this
    {
      && Keyed(own) && Keyed(told) && users == Merged(own, told)
      && (!linked ==> out == [] && told == map[])
    }

    // This server and its peer agree about what has been said.
    ghost predicate Tells(peer: Server)
      reads this, peer
    {
      if linked then Carried(own, peer.told, out) else peer.told == map[]
    }

    constructor (initial: map<string, Login>)
      requires Keyed(initial)
      ensures Valid() && !linked && own == initial && told == map[]
    {
      users, linked, out := initial, false, [];
      own, told := initial, map[];
    }

    // login for a client of this server
    method LocalLogin(l: Login) returns (accepted: bool)
      requires Valid()
      modifies this
      ensures Valid() && told == old(told) && linked == old(linked)
      ensures accepted <==> Key(l) !in old(users)
      ensures accepted <==> forall n <- old(users) :: !SameNoCase(old(users)[n].nick, l.nick)
      ensures own == if accepted then old(own)[Key(l) := l] else old(own)
      ensures out == if accepted && linked then old(out) + [l] else old(out)
    {
      hide Merged;
      MergedKeyed(own, told);
      if Key(l) in users {
        return false;
      }
      MergedOwn(own, told, Key(l), l);
      users := users[Key(l) := l];
      own := own[Key(l) := l];
      if linked {
        out := out + [l];
      }
      return true;
    }

    // synch_server: one login message per entry of the table, in whatever order it comes.
    method SynchServer()
      requires Valid() && !linked
      modifies this`linked, this`out
      ensures Valid() && linked && Carried(own, map[], out)
    {
      hide Merged, Listed, Carried;
      NobodyTold(own);
      linked := true;
      var todo := users.Keys;
      while todo != {}
        invariant linked && todo <= users.Keys && users == own && Listed(own, out, todo)
        decreases |todo|
      {
        var n :| n in todo;
        ListedOne(own, out, todo, n);
        out := out + [users[n]];
        todo := todo - {n};
      }
      ListedAll(own, out);
    }

    // login for a user of the peer: the nick collision branch. The login that is replaced is
    // announced as killed to the other peers.
    method ReceiveLogin(l: Login) returns (killed: Option<Login>)
      requires Valid() && linked && Key(l) !in told
      modifies this
      ensures Valid() && linked && out == old(out) && own == old(own) && told == old(told)[Key(l) := l]
      ensures killed == if Key(l) in old(users) && l.connected < old(users)[Key(l)].connected then Some(old(users)[Key(l)]) else None
    {
      hide Merged;
      killed := None;
      MergedTold(own, told, Key(l), l);
      told := told[Key(l) := l];
      if Key(l) in users {
        if l.connected < users[Key(l)].connected {
          killed := Some(users[Key(l)]);
          users := users - {Key(l)};
        } else {
          assert users[Key(l) := users[Key(l)]] == users;
          return;
        }
      }
      assert (users - {Key(l)})[Key(l) := l] == users[Key(l) := l];
      users := users[Key(l) := l];
    }
  }

  // The peer reads the first of the messages on their way.
  lemma CarriedOn(own: map<string, Login>, told: map<string, Login>, out: seq<Login>)
    requires Carried(own, told, out) && out != []
    ensures Key(out[0]) !in told && Carried(own, told[Key(out[0]) := out[0]], out[1..])
  {
    var now := told[Key(out[0]) := out[0]];
    forall n | n in own ensures n in now || exists i :: 0 <= i < |out[1..]| && Key(out[1..][i]) == n {
      if n !in told {
        var i :| 0 <= i < |out| && Key(out[i]) == n;
        if i > 0 {
          assert Key(out[1..][i - 1]) == n;
        }
      }
    }
  }

  lemma CarriedMore(own: map<string, Login>, told: map<string, Login>, out: seq<Login>, l: Login)
    requires Carried(own, told, out) && Key(l) !in own
    ensures Carried(own[Key(l) := l], told, out + [l])
  {
    var now := out + [l];
    forall n | n in own[Key(l) := l] ensures n in told || exists i :: 0 <= i < |now| && Key(now[i]) == n {
      if n == Key(l) {
        assert Key(now[|out|]) == n;
      } else if n !in told {
        var i :| 0 <= i < |out| && Key(out[i]) == n;
        assert Key(now[i]) == n;
      }
    }
  }

  // --- Both servers --------------------------------------------------------------------------

  // left tells which of the two servers acts: a client logs in there, it links, it reads a message.
  datatype Event = Enter(left: bool, login: Login) | Link(left: bool) | Deliver(left: bool)

  ghost predicate Joint(a: Server, b: Server)
    reads a, b
  {
    a != b && a.Valid() && b.Valid() && a.Tells(b) && b.Tells(a)
  }

  method Act(a: Server, b: Server, e: Event)
    requires Joint(a, b)
    modifies a, b
    ensures Joint(a, b)
    ensures Grows(old(a.own), a.own) && Grows(old(b.own), b.own)
  {
    hide Carried, Merged;
    var x, y := if e.left then a else b, if e.left then b else a;
    match e {
      case Enter(_, l) =>
        ghost var own, told, out := x.own, y.told, x.out;
        OwnIsListed(x.own, x.told);
        var accepted := x.LocalLogin(l);
        if accepted && x.linked {
          CarriedMore(own, told, out, l);
        }
      case Link(_) =>
        if !x.linked {
          x.SynchServer();
        }
      case Deliver(_) =>
        if x.linked && y.out != [] {
          CarriedOn(y.own, x.told, y.out);
          var l := y.out[0];
          y.out := y.out[1..];
          var _ := x.ReceiveLogin(l);
        }
    }
  }

  lemma OwnIsListed(own: map<string, Login>, told: map<string, Login>)
    ensures Merged(own, told).Keys == own.Keys + told.Keys
  {
  }

  predicate Grows(before: map<string, Login>, now: map<string, Login>) {
    forall n <- before :: n in now && now[n] == before[n]
  }

  // Two servers that have exchanged everything hold the same table just when no nick has two logins
  // with the same timestamp; each nick is then with its earlier login.
  lemma TablesAgree(p: map<string, Login>, q: map<string, Login>)
    ensures Merged(p, q) == Merged(q, p) <==> forall n <- p :: n in q ==> p[n] == q[n] || p[n].connected != q[n].connected
    ensures forall n <- Merged(p, q) ::
      (n in p ==> Merged(p, q)[n].connected <= p[n].connected) && (n in q ==> Merged(p, q)[n].connected <= q[n].connected)
  {
    var m, w := Merged(p, q), Merged(q, p);
    if forall n <- p :: n in q ==> p[n] == q[n] || p[n].connected != q[n].connected {
      assert m.Keys == w.Keys;
      forall n | n in m ensures m[n] == w[n] {
      }
    } else {
      var n :| n in p && n in q && p[n] != q[n] && p[n].connected == q[n].connected;
      assert m[n] != w[n];
    }
  }

  // Two logins of one nick within one second: each server keeps its own for good.
  lemma SameSecond()
    ensures var p, q := map["anna" := Login("anna", 1000, "one")], map["anna" := Login("anna", 1000, "two")];
      Merged(p, q)["anna"] != Merged(q, p)["anna"]
  {
    var p, q := map["anna" := Login("anna", 1000, "one")], map["anna" := Login("anna", 1000, "two")];
    assert Merged(p, q)["anna"] == p["anna"] && Merged(q, p)["anna"] == q["anna"];
  }

  lemma AllCarried(own: map<string, Login>, told: map<string, Login>)
    requires Carried(own, told, [])
    ensures told == own
  {
    assert told.Keys == own.Keys;
  }

  method Exchange(p: map<string, Login>, q: map<string, Login>, events: seq<Event>)
    returns (left: map<string, Login>, right: map<string, Login>, settled: bool,
             ghost ownLeft: map<string, Login>, ghost ownRight: map<string, Login>)
    requires Keyed(p) && Keyed(q)
    ensures Grows(p, ownLeft) && Grows(q, ownRight)
    ensures settled ==> left == Merged(ownLeft, ownRight) && right == Merged(ownRight, ownLeft)
    ensures settled ==> (left == right <==>
      forall n <- ownLeft :: n in ownRight ==> ownLeft[n] == ownRight[n] || ownLeft[n].connected != ownRight[n].connected)
  {
    hide Carried, Merged;
    var a := new Server(p);
    var b := new Server(q);
    for i := 0 to |events|
      invariant fresh(a) && fresh(b) && Joint(a, b) && Grows(p, a.own) && Grows(q, b.own)
    {
      Act(a, b, events[i]);
    }
    left, right, settled := a.users, b.users, a.linked && b.linked && a.out == [] && b.out == [];
    ownLeft, ownRight := a.own, b.own;
    if settled {
      AllCarried(a.own, b.told);
      AllCarried(b.own, a.told);
      TablesAgree(a.own, b.own);
    }
  }
}
