/** server_login.c: the table of links between other servers, and what goes when a server quits. */
module Links {
  import opened Text

  const NO_PORT: nat := 0xffff

  datatype Link = Link(server: string, peer: string, port: nat, peerport: nat, hops: int)

  // mark_links follows a link that carries no mark at all ...
  predicate Live(l: Link) { l.port != NO_PORT && l.peerport != NO_PORT }

  // ... and remove_links reaps one that carries both.
  predicate Dead(l: Link) { l.port == NO_PORT && l.peerport == NO_PORT }

  function Marked(l: Link): Link { l.(port := NO_PORT, peerport := NO_PORT) }

  // --- What is behind a server -----------------------------------------------------------

  // A chain of live links that starts at host, each beginning where the one before it ends.
  predicate Chain(ls: seq<Link>, host: string, p: seq<nat>) {
    && p != []
    && (forall j :: 0 <= j < |p| ==> p[j] < |ls| && Live(ls[p[j]]))
    && SameNoCase(host, ls[p[0]].server)
    && (forall j :: 0 < j < |p| ==> SameNoCase(ls[p[j - 1]].peer, ls[p[j]].server))
  }

  ghost predicate Behind(ls: seq<Link>, host: string, i: nat) {
    exists p :: Chain(ls, host, p) && p[|p| - 1] == i
  }

  lemma BehindFirst(ls: seq<Link>, host: string, i: nat)
    requires i < |ls| && Live(ls[i]) && SameNoCase(host, ls[i].server)
    ensures Behind(ls, host, i)
  {
    hide SameNoCase;
    assert Chain(ls, host, [i]);
  }

  // now is before with some live links marked.
  predicate Later(before: seq<Link>, now: seq<Link>) {
    |now| == |before| && forall i :: 0 <= i < |now| ==> now[i] == before[i] || (Live(before[i]) && now[i] == Marked(before[i]))
  }

  lemma BehindNext(before: seq<Link>, now: seq<Link>, host: string, i: nat, j: nat)
    requires Later(before, now) && i < |before| && Live(before[i]) && SameNoCase(host, before[i].server)
    requires Behind(now, before[i].peer, j)
    ensures Behind(before, host, j)
  {
    hide SameNoCase;
    var p :| Chain(now, before[i].peer, p) && p[|p| - 1] == j;
    assert forall k :: 0 <= k < |p| ==> now[p[k]] == before[p[k]];
    assert Chain(before, host, [i] + p);
  }

  // --- The marking recursion ---------------------------------------------------------------

  function LiveCount(ls: seq<Link>): nat {
    if ls == [] then 0 else
      var rest := LiveCount(ls[1..]);
      if Live(ls[0]) then rest + 1 else rest
  }

  lemma {:induction false} LiveCountFalls(before: seq<Link>, now: seq<Link>)
    requires Later(before, now)
    ensures LiveCount(now) <= LiveCount(before)
    ensures (exists i :: 0 <= i < |now| && now[i] != before[i]) ==> LiveCount(now) < LiveCount(before)
  {
    if before != [] {
      assert Later(before[1..], now[1..]);
      LiveCountFalls(before[1..], now[1..]);
      if i :| 0 <= i < |now| && now[i] != before[i] {
        if i > 0 {
          assert now[1..][i - 1] != before[1..][i - 1];
        }
      }
    }
  }

  // Nothing live is left that starts at host.
  predicate Swept(now: seq<Link>, host: string) {
    forall j :: 0 <= j < |now| && Live(now[j]) ==> !SameNoCase(host, now[j].server)
  }

  // Whatever has been marked has been followed to its end.
  ghost predicate Closed(before: seq<Link>, now: seq<Link>) {
    |before| == |now| && forall i :: 0 <= i < |now| && now[i] != before[i] ==> Swept(now, before[i].peer)
  }

  ghost predicate AllBehind(before: seq<Link>, now: seq<Link>, host: string) {
    |before| == |now| && forall i :: 0 <= i < |now| && now[i] != before[i] ==> Behind(before, host, i)
  }

  // A live link behind host cannot have been missed.
  lemma {:induction false} NothingMissed(before: seq<Link>, now: seq<Link>, host: string, p: seq<nat>)
    requires Later(before, now) && Closed(before, now) && Swept(now, host) && Chain(before, host, p)
    ensures now[p[|p| - 1]] == Marked(before[p[|p| - 1]])
    decreases |p|
  {
    hide SameNoCase;
    var i := p[|p| - 1];
    if |p| > 1 {
      var q := p[..|p| - 1];
      assert Chain(before, host, q);
      NothingMissed(before, now, host, q);
      assert Swept(now, before[q[|q| - 1]].peer);
    }
  }

  // One turn of mark_links' loop: link i and whatever the recursive call marks is behind host.
  lemma StillBehind(before: seq<Link>, now: seq<Link>, i: nat, after: seq<Link>, host: string)
    requires Later(before, now) && AllBehind(before, now, host) && |after| == |before|
    requires i < |now| && Live(now[i]) && SameNoCase(host, now[i].server)
    requires AllBehind(now[i := Marked(now[i])], after, now[i].peer)
    ensures AllBehind(before, after, host)
  {
    hide SameNoCase, Behind;
    var marked := now[i := Marked(now[i])];
    assert Later(before, marked);
    forall k | 0 <= k < |after| && after[k] != before[k] ensures Behind(before, host, k) {
      if now[k] != before[k] {
      } else if k == i {
        BehindFirst(before, host, i);
      } else {
        BehindNext(before, marked, host, i, k);
      }
    }
  }

  class LinkTable {
    var links: seq<Link>

    method MarkLinks(host: string)
      modifies this
      ensures Later(old(links), links)
      ensures AllBehind(old(links), links, host)
      ensures Swept(links, host) && Closed(old(links), links)
      decreases LiveCount(links)
    {
      hide SameNoCase, LiveCount, Behind;
      ghost var before := links;
      var i := 0;
      while i < |links|
        invariant 0 <= i <= |links| && Later(before, links)
        invariant AllBehind(before, links, host) && Closed(before, links)
        invariant forall j :: 0 <= j < i && Live(links[j]) ==> !SameNoCase(host, links[j].server)
      {
        if Live(links[i]) && SameNoCase(host, links[i].server) {
          ghost var now := links;
          var peer := links[i].peer;
          links := links[i := Marked(links[i])];
          ghost var marked := links;
          LiveCountFalls(before, marked);
          assert marked[i] != before[i];
          MarkLinks(peer);
          StillBehind(before, now, i, links, host);
        }
        i := i + 1;
      }
    }

    method RemoveLinks(host: string)
      modifies this
      ensures links == Surviving(old(links), host, |old(links)|)
    {
      hide SameNoCase, Behind;
      ghost var before := links;
      MarkLinks(host);
      ghost var now := links;
      MarkedExactly(before, now, host);
      var kept: seq<Link> := [];
      var i := 0;
      while i < |links|
        invariant 0 <= i <= |links| && links == now && kept == Surviving(before, host, i)
      {
        if !Dead(links[i]) {
          kept := kept + [links[i]];
        }
        i := i + 1;
      }
      links := kept;
    }

    // server_quit: the named link goes with everything behind the server that has quit.
    method ServerQuit(server: string, peer: string) returns (found: bool)
      modifies this
      ensures found <==> exists l <- old(links) :: SameNoCase(l.server, server) && SameNoCase(l.peer, peer)
      ensures !found ==> links == old(links)
      ensures found ==> exists i | 0 <= i < |old(links)| :: QuitAt(old(links), i, server, peer, links)
    {
      hide SameNoCase, Behind, Surviving;
      var i := 0;
      while i < |links|
        invariant 0 <= i <= |links| && links == old(links)
        invariant forall j :: 0 <= j < i ==> !Names(links[j], server, peer)
      {
        if Names(links[i], server, peer) {
          var quit := links[i].peer;
          links := links[i := Marked(links[i])];
          RemoveLinks(quit);
          assert QuitAt(old(links), i, server, peer, links);
          return true;
        }
        i := i + 1;
      }
      return false;
    }
  }

  // The first link of these names is taken out together with everything behind its peer.
  ghost predicate QuitAt(before: seq<Link>, i: nat, server: string, peer: string, after: seq<Link>) {
    && i < |before| && SameNoCase(before[i].server, server) && SameNoCase(before[i].peer, peer)
    && (forall j :: 0 <= j < i ==> !(SameNoCase(before[j].server, server) && SameNoCase(before[j].peer, peer)))
    && after == Surviving(before[i := Marked(before[i])], before[i].peer, |before|)
  }

  predicate Names(l: Link, server: string, peer: string) {
    SameNoCase(l.server, server) && SameNoCase(l.peer, peer)
  }

  // What remove_links leaves of the first n links, in their order.
  ghost function Surviving(ls: seq<Link>, host: string, n: nat): seq<Link>
    requires n <= |ls|
  {
    if n == 0 then []
    else
      var front := Surviving(ls, host, n - 1);
      if Dead(ls[n - 1]) || Behind(ls, host, n - 1) then front else front + [ls[n - 1]]
  }

  // The links that are neither dead nor behind the host, in their order.
  lemma {:induction false} SurvivingIs(ls: seq<Link>, host: string, k: nat, n: nat)
    requires k <= n <= |ls|
    ensures Surviving(ls, host, k) <= Surviving(ls, host, n)
    ensures forall x :: x in Surviving(ls, host, n) <==> exists i :: 0 <= i < n && ls[i] == x && !Dead(x) && !Behind(ls, host, i)
    decreases n - k + n
  {
    hide Behind, Dead;
    if n > 0 {
      SurvivingIs(ls, host, if k < n then k else n - 1, n - 1);
    }
  }

  lemma MarkedExactly(before: seq<Link>, now: seq<Link>, host: string)
    requires Later(before, now) && AllBehind(before, now, host) && Swept(now, host) && Closed(before, now)
    ensures forall i :: 0 <= i < |before| ==>
      (Behind(before, host, i) <==> now[i] != before[i]) && (Dead(now[i]) <==> Dead(before[i]) || Behind(before, host, i))
    ensures forall i :: 0 <= i < |before| && !Dead(now[i]) ==> now[i] == before[i]
  {
    hide SameNoCase;
    forall i | 0 <= i < |before| && Behind(before, host, i) ensures now[i] == Marked(before[i]) != before[i] {
      var p :| Chain(before, host, p) && p[|p| - 1] == i;
      NothingMissed(before, now, host, p);
    }
  }

  // --- When the marks mean what they are meant to --------------------------------------------

  // A chain of links whatever their ports.
  predicate Path(ls: seq<Link>, host: string, p: seq<nat>) {
    && p != [] && (forall j :: 0 <= j < |p| ==> p[j] < |ls|)
    && SameNoCase(host, ls[p[0]].server)
    && (forall j :: 0 < j < |p| ==> SameNoCase(ls[p[j - 1]].peer, ls[p[j]].server))
  }

  ghost predicate Reachable(ls: seq<Link>, host: string, i: nat) {
    exists p :: Path(ls, host, p) && p[|p| - 1] == i
  }

  // remove_links(host) deletes exactly what is reachable from host.
  ghost predicate Right(ls: seq<Link>, host: string) {
    forall i :: 0 <= i < |ls| ==> (Dead(ls[i]) || Behind(ls, host, i) <==> Reachable(ls, host, i))
  }

  // It does so for every host precisely when no link carries a port of 65535: a link with two of
  // them goes though nothing reaches it, and a link with one of them stays though it is reached.
  lemma RightIffLive(ls: seq<Link>)
    ensures (forall host :: Right(ls, host)) <==> forall i :: 0 <= i < |ls| ==> Live(ls[i])
  {
    hide SameNoCase, Reachable, Behind;
    if forall i :: 0 <= i < |ls| ==> Live(ls[i]) {
      forall host, i | 0 <= i < |ls| ensures Dead(ls[i]) || Behind(ls, host, i) <==> Reachable(ls, host, i) {
        LiveIsRight(ls, host, i);
      }
    } else {
      var i :| 0 <= i < |ls| && !Live(ls[i]);
      if Dead(ls[i]) {
        var host := Longest(ls) + "x";
        NobodyIs(ls, host);
        UnreachableGoes(ls, host, i);
        assert !Right(ls, host);
      } else {
        ReachableStays(ls, i);
        assert !Right(ls, ls[i].server);
      }
    }
  }

  // A link on port 65535, the greatest there is, outlives the server it hangs from.
  lemma GreatestPortStays()
    ensures !Right([Link("hub", "leaf", 65535, 8888, 2)], "hub")
  {
    ReachableStays([Link("hub", "leaf", 65535, 8888, 2)], 0);
  }

  lemma LiveIsRight(ls: seq<Link>, host: string, i: nat)
    requires i < |ls| && forall i :: 0 <= i < |ls| ==> Live(ls[i])
    ensures Dead(ls[i]) || Behind(ls, host, i) <==> Reachable(ls, host, i)
  {
    hide SameNoCase;
    if p :| Path(ls, host, p) && p[|p| - 1] == i {
      assert Chain(ls, host, p);
    }
    if Behind(ls, host, i) {
      var p :| Chain(ls, host, p) && p[|p| - 1] == i;
      assert Path(ls, host, p);
    }
  }

  function Longest(ls: seq<Link>): string {
    if ls == [] then "" else
      var rest := Longest(ls[1..]);
      if |ls[0].server| > |rest| then ls[0].server else rest
  }

  lemma {:induction false} NobodyIs(ls: seq<Link>, host: string)
    requires |host| > |Longest(ls)|
    ensures forall i :: 0 <= i < |ls| ==> !SameNoCase(host, ls[i].server)
  {
    if ls != [] {
      NobodyIs(ls[1..], host);
      forall i | 0 <= i < |ls| ensures !SameNoCase(host, ls[i].server) {
        if i == 0 {
          assert |Lower(host)| != |Lower(ls[0].server)|;
        } else {
          assert ls[i] == ls[1..][i - 1];
        }
      }
    }
  }

  lemma UnreachableGoes(ls: seq<Link>, host: string, i: nat)
    requires i < |ls| && Dead(ls[i]) && forall i :: 0 <= i < |ls| ==> !SameNoCase(host, ls[i].server)
    ensures !Reachable(ls, host, i)
  {
    hide SameNoCase;
    forall p ensures !(Path(ls, host, p) && p[|p| - 1] == i) {
    }
  }

  lemma ReachableStays(ls: seq<Link>, i: nat)
    requires i < |ls| && !Live(ls[i]) && !Dead(ls[i])
    ensures Reachable(ls, ls[i].server, i) && !Behind(ls, ls[i].server, i)
  {
    assert Path(ls, ls[i].server, [i]);
  }
}
