/** One search on a tree of servers: requests fan out from the server of the user
    who asked, results and "end" messages come back, every link is first in, first out.
    Server 0..n-1; the tree hangs from the server that issued the search. */
module SearchTree {
  import opened Options

  datatype Tree = Tree(root: nat, parent: seq<nat>, depth: seq<nat>)

  predicate IsTree(t: Tree) {
    && |t.depth| == |t.parent|
    && t.root < |t.parent|
    && t.depth[t.root] == 0
    && forall y :: 0 <= y < |t.parent| && y != t.root ==>
         t.parent[y] < |t.parent| && t.depth[y] == t.depth[t.parent[y]] + 1
  }

  function Size(t: Tree): nat {
    |t.parent|
  }

  predicate Kid(t: Tree, x: nat, y: nat) {
    y < Size(t) && y != t.root && t.parent[y] == x
  }

  // How many of the servers below k hang from x.
  function Kids(t: Tree, x: nat, k: nat): nat
    requires k <= Size(t)
  {
    if k == 0 then 0
    else
      var rest := Kids(t, x, k - 1);
      if Kid(t, x, k - 1) then rest + 1 else rest
  }

  // Whether y hangs at or below o.
  predicate Below(t: Tree, o: nat, y: nat)
    requires IsTree(t) && y < Size(t)
    decreases t.depth[y]
  {
    y == o || (y != t.root && Below(t, o, t.parent[y]))
  }

  lemma {:induction false} EverybodyIsBelow(t: Tree, y: nat)
    requires IsTree(t) && y < Size(t)
    ensures Below(t, t.root, y)
    decreases t.depth[y]
  {
    if y != t.root {
      EverybodyIsBelow(t, t.parent[y]);
    }
  }

  lemma {:induction false} BelowDeeper(t: Tree, o: nat, y: nat)
    requires IsTree(t) && y < Size(t) && o < Size(t) && Below(t, o, y)
    ensures t.depth[y] >= t.depth[o] && (y != o ==> t.depth[y] > t.depth[o])
    decreases t.depth[y]
  {
    if y != o {
      BelowDeeper(t, o, t.parent[y]);
    }
  }

  lemma {:induction false} BelowKid(t: Tree, x: nat, z: nat, y: nat)
    requires IsTree(t) && y < Size(t) && Kid(t, x, z) && Below(t, z, y)
    ensures Below(t, x, y)
    decreases t.depth[y]
  {
    if y != z {
      BelowKid(t, x, z, t.parent[y]);
    }
  }

  // --- The messages of one search --------------------------------------------------

  datatype Message<H> = Ask | Hit(hit: H) | End

  // The pending search of a server; asked by a peer or by the user.
  datatype Entry = Entry(asker: Option<nat>, count: int, numServers: int)

  datatype State<H> = State(
    entry: seq<Option<Entry>>,
    down: seq<seq<Message<H>>>,   // from its parent to the server
    up: seq<seq<Message<H>>>,     // from the server to its parent
    user: seq<Message<H>>,        // what the user has been sent
    asks: seq<nat>,               // requests sent down each link
    ends: seq<nat>,               // ends taken off each link
    made: seq<H>,                 // every result any server produced
    strays: seq<H>)               // results the origin could not attribute to a known user

  predicate Shaped<H>(t: Tree, s: State<H>) {
    && IsTree(t)
    && |s.entry| == |s.down| == |s.up| == |s.asks| == |s.ends| == Size(t)
  }

  function Hits<H>(hits: seq<H>): (r: seq<Message<H>>)
    ensures |r| == |hits| && forall i :: 0 <= i < |r| ==> r[i] == Hit(hits[i])
  {
    seq(|hits|, i requires 0 <= i < |hits| => Hit(hits[i]))
  }

  // Server x answers whoever asked it.
  function Tell<H>(s: State<H>, x: nat, asker: Option<nat>, msgs: seq<Message<H>>): State<H>
    requires x < |s.up|
  {
    if asker.None? then s.(user := s.user + msgs) else s.(up := s.up[x := s.up[x] + msgs])
  }

  // Server x has searched its own files and either ends the search or asks on.
  function Searched<H>(t: Tree, s: State<H>, x: nat, asker: Option<nat>, hits: seq<H>, forward: bool): State<H>
    requires Shaped(t, s) && x < Size(t)
  {
    var s1 := Tell(s.(made := s.made + hits), x, asker, if forward then Hits(hits) else Hits(hits) + [End]);
    if forward then
      s1.(entry := s1.entry[x := Some(Entry(asker, 0, Kids(t, x, Size(t))))],
          down := seq(Size(t), y requires 0 <= y < Size(t) => if Kid(t, x, y) then s1.down[y] + [Ask] else s1.down[y]),
          asks := seq(Size(t), y requires 0 <= y < Size(t) => if Kid(t, x, y) then s1.asks[y] + 1 else s1.asks[y]))
    else s1
  }

  function Nothing<H>(t: Tree): State<H> {
    var n := Size(t);
    State(seq(n, _ => None), seq(n, _ => []), seq(n, _ => []), [], seq(n, _ => 0), seq(n, _ => 0), [], [])
  }

  // The user's search reaches the server at the root.
  function Start<H>(t: Tree, hits: seq<H>, forward: bool): State<H>
    requires IsTree(t)
  {
    Searched(t, Nothing(t), t.root, None, hits, forward)
  }

  // --- What can happen: some server takes the first message off a link ---------------

  datatype Move<H> =
    | TakeAsk(y: nat, hits: seq<H>, forward: bool)
    | TakeHit(y: nat, userKnown: bool)
    | TakeEnd(y: nat)

  predicate Enabled<H>(t: Tree, s: State<H>, m: Move<H>)
    requires Shaped(t, s)
  {
    m.y < Size(t) && m.y != t.root &&
    match m
    case TakeAsk(y, _, forward) => s.down[y] != [] && s.down[y][0].Ask? && (forward ==> Kids(t, y, Size(t)) > 0)
    case TakeHit(y, _) => s.up[y] != [] && s.up[y][0].Hit?
    case TakeEnd(y) => s.up[y] != [] && s.up[y][0].End?
  }

  function Apply<H>(t: Tree, s: State<H>, m: Move<H>): State<H>
    requires Shaped(t, s) && Enabled(t, s, m)
  {
    var y := m.y;
    var x := t.parent[y];
    match m
    case TakeAsk(_, hits, forward) =>
      Searched(t, s.(down := s.down[y := s.down[y][1..]]), y, Some(x), hits, forward)
    case TakeHit(_, userKnown) =>
      var hit := s.up[y][0].hit;
      var s1 := s.(up := s.up[y := s.up[y][1..]]);
      if s.entry[x].None? then s1
      else if s.entry[x].value.asker.None? && !userKnown then s1.(strays := s1.strays + [hit])
      else Tell(s1, x, s.entry[x].value.asker, [Hit(hit)])
    case TakeEnd(_) =>
      var s1 := s.(up := s.up[y := s.up[y][1..]], ends := s.ends[y := s.ends[y] + 1]);
      if s.entry[x].None? then s1
      else
        var e := s.entry[x].value;
        if e.count + 1 == e.numServers then Tell(s1.(entry := s1.entry[x := None]), x, e.asker, [End])
        else s1.(entry := s1.entry[x := Some(e.(count := e.count + 1))])
  }

  // --- The invariant --------------------------------------------------------------------

  predicate OnlyHits<H>(msgs: seq<Message<H>>) {
    forall i :: 0 <= i < |msgs| ==> msgs[i].Hit?
  }

  predicate HitsThenEnd<H>(msgs: seq<Message<H>>) {
    msgs != [] && msgs[|msgs| - 1].End? && OnlyHits(msgs[..|msgs| - 1])
  }

  // Ends taken off the links of those servers below k that hang from x.
  function EndsOf(t: Tree, ends: seq<nat>, x: nat, k: nat): nat
    requires k <= Size(t) && |ends| == Size(t)
  {
    if k == 0 then 0
    else
      var rest := EndsOf(t, ends, x, k - 1);
      if Kid(t, x, k - 1) then rest + ends[k - 1] else rest
  }

  ghost predicate EntryOk<H>(t: Tree, s: State<H>, x: nat)
    requires Shaped(t, s) && x < Size(t)
  {
    s.entry[x].Some? ==>
      var e := s.entry[x].value;
      && e.asker == (if x == t.root then None else Some(t.parent[x]))
      && e.numServers == Kids(t, x, Size(t))
      && e.count == EndsOf(t, s.ends, x, Size(t)) < e.numServers
      && (forall y: nat :: Kid(t, x, y) ==> s.asks[y] == 1)
  }

  // The life of the link above server y: unasked, asked, searching, answering, ended.
  ghost predicate LinkOk<H>(t: Tree, s: State<H>, y: nat)
    requires Shaped(t, s) && y < Size(t) && y != t.root
  {
    var x := t.parent[y];
    && s.ends[y] <= s.asks[y] <= 1
    && (s.asks[y] == 1 ==> x == t.root || (s.asks[x] == 1 && s.down[x] == []))
    && (if s.asks[y] == 0 || s.ends[y] == 1 then
          s.down[y] == [] && s.up[y] == [] && s.entry[y].None?
        else
          && s.entry[x].Some?
          && if s.down[y] != [] then s.down[y] == [Ask] && s.up[y] == [] && s.entry[y].None?
             else if s.entry[y].Some? then OnlyHits(s.up[y])
             else HitsThenEnd(s.up[y]))
  }

  ghost predicate RootOk<H>(t: Tree, s: State<H>)
    requires Shaped(t, s)
  {
    && s.down[t.root] == [] && s.up[t.root] == []
    && if s.entry[t.root].Some? then OnlyHits(s.user) else HitsThenEnd(s.user)
  }

  ghost predicate Inv<H>(t: Tree, s: State<H>) {
    && Shaped(t, s)
    && RootOk(t, s)
    && (forall x :: 0 <= x < Size(t) ==> EntryOk(t, s, x))
    && (forall y :: 0 <= y < Size(t) && y != t.root ==> LinkOk(t, s, y))
  }

  // --- Arithmetic over the children of a server --------------------------------------------

  lemma {:induction false} EndsChange(t: Tree, ends: seq<nat>, y: nat, x: nat, k: nat)
    requires k <= Size(t) && |ends| == Size(t) && y < Size(t)
    ensures EndsOf(t, ends[y := ends[y] + 1], x, k) == EndsOf(t, ends, x, k) + (if y < k && Kid(t, x, y) then 1 else 0)
  {
    if k > 0 {
      EndsChange(t, ends, y, x, k - 1);
    }
  }

  lemma {:induction false} EndsVersusKids(t: Tree, ends: seq<nat>, x: nat, k: nat)
    requires k <= Size(t) && |ends| == Size(t)
    requires forall y :: 0 <= y < k && Kid(t, x, y) ==> ends[y] <= 1
    ensures EndsOf(t, ends, x, k) <= Kids(t, x, k)
    ensures EndsOf(t, ends, x, k) == Kids(t, x, k) <==> forall y :: 0 <= y < k && Kid(t, x, y) ==> ends[y] == 1
    ensures (forall y :: 0 <= y < k && Kid(t, x, y) ==> ends[y] == 0) ==> EndsOf(t, ends, x, k) == 0
  {
    if k > 0 {
      EndsVersusKids(t, ends, x, k - 1);
    }
  }

  lemma {:induction false} KidCounts(t: Tree, x: nat, y: nat, k: nat)
    requires k <= Size(t) && y < k && Kid(t, x, y)
    ensures Kids(t, x, k) > 0
  {
    if y < k - 1 {
      KidCounts(t, x, y, k - 1);
    }
  }

  // --- Every move keeps the invariant ---------------------------------------------------------

  lemma StartHolds<H>(t: Tree, hits: seq<H>, forward: bool)
    requires IsTree(t) && (forward ==> Kids(t, t.root, Size(t)) > 0)
    ensures Inv(t, Start(t, hits, forward))
  {
    hide EntryOk, LinkOk, RootOk, Kids;
    var s := Start(t, hits, forward);
    StartRoot(t, hits, forward);
    forall x | 0 <= x < Size(t) ensures EntryOk(t, s, x) {
      StartEntry(t, hits, forward, x);
    }
    forall y | 0 <= y < Size(t) && y != t.root ensures LinkOk(t, s, y) {
      StartLink(t, hits, forward, y);
    }
  }

  lemma StartRoot<H>(t: Tree, hits: seq<H>, forward: bool)
    requires IsTree(t)
    ensures RootOk(t, Start(t, hits, forward))
  {
    hide Kids, OnlyHits, HitsThenEnd, Hits;
    EndBehindHits(hits);
    var s := Start(t, hits, forward);
    assert s.user == [] + (if forward then Hits(hits) else Hits(hits) + [End]);
    assert [] + Hits(hits) == Hits(hits) && [] + (Hits(hits) + [End]) == Hits(hits) + [End];
  }

  lemma EndBehindHits<H>(hits: seq<H>)
    ensures OnlyHits(Hits(hits)) && HitsThenEnd(Hits(hits) + [End])
  {
    var msgs := Hits(hits) + [End];
    assert msgs[..|msgs| - 1] == Hits(hits);
  }

  lemma StartEntry<H>(t: Tree, hits: seq<H>, forward: bool, x: nat)
    requires IsTree(t) && (forward ==> Kids(t, t.root, Size(t)) > 0) && x < Size(t)
    ensures EntryOk(t, Start(t, hits, forward), x)
  {
    EndsVersusKids(t, Start(t, hits, forward).ends, x, Size(t));
  }

  lemma StartLink<H>(t: Tree, hits: seq<H>, forward: bool, y: nat)
    requires IsTree(t) && y < Size(t) && y != t.root
    ensures LinkOk(t, Start(t, hits, forward), y)
  {}

  // The facts about the servers below y when a request reaches it.
  lemma NobodyBelowIsAsked<H>(t: Tree, s: State<H>, y: nat)
    requires Inv(t, s) && y < Size(t) && y != t.root && s.down[y] != []
    ensures s.down[y] == [Ask] && s.up[y] == [] && s.entry[y].None?
    ensures s.asks[y] == 1 && s.ends[y] == 0 && s.entry[t.parent[y]].Some?
    ensures forall z: nat :: Kid(t, y, z) ==> s.asks[z] == 0
    ensures EndsOf(t, s.ends, y, Size(t)) == 0
  {
    assert LinkOk(t, s, y);
    forall z: nat | Kid(t, y, z) ensures s.asks[z] == 0 && s.ends[z] == 0 {
      assert LinkOk(t, s, z);
    }
    EndsVersusKids(t, s.ends, y, Size(t));
  }

  lemma AskLink<H>(t: Tree, s: State<H>, m: Move<H>, z: nat)
    requires Inv(t, s) && m.TakeAsk? && Enabled(t, s, m) && z < Size(t) && z != t.root
    ensures LinkOk(t, Apply(t, s, m), z)
  {
    var y := m.y;
    NobodyBelowIsAsked(t, s, y);
    assert LinkOk(t, s, z);
    var s' := Apply(t, s, m);
    assert s'.down[y] == [];
    if z == y {
      assert s'.up[y] == if m.forward then Hits(m.hits) else Hits(m.hits) + [End];
      assert !m.forward ==> s'.up[y][..|s'.up[y]| - 1] == Hits(m.hits);
    }
  }

  lemma AskEntry<H>(t: Tree, s: State<H>, m: Move<H>, x: nat)
    requires Inv(t, s) && m.TakeAsk? && Enabled(t, s, m) && x < Size(t)
    ensures EntryOk(t, Apply(t, s, m), x)
  {
    NobodyBelowIsAsked(t, s, m.y);
    assert EntryOk(t, s, x);
  }

  lemma AskHolds<H>(t: Tree, s: State<H>, m: Move<H>)
    requires Inv(t, s) && m.TakeAsk? && Enabled(t, s, m)
    ensures Inv(t, Apply(t, s, m))
  {
    forall x | 0 <= x < Size(t) ensures EntryOk(t, Apply(t, s, m), x) {
      AskEntry(t, s, m, x);
    }
    forall z | 0 <= z < Size(t) && z != t.root ensures LinkOk(t, Apply(t, s, m), z) {
      AskLink(t, s, m, z);
    }
  }

  lemma HitLink<H>(t: Tree, s: State<H>, m: Move<H>, z: nat)
    requires Inv(t, s) && m.TakeHit? && Enabled(t, s, m) && z < Size(t) && z != t.root
    ensures LinkOk(t, Apply(t, s, m), z)
  {
    hide Kids, EndsOf, Searched, OnlyHits, HitsThenEnd, RootOk;
    var y, s' := m.y, Apply(t, s, m);
    assert LinkOk(t, s, y) && LinkOk(t, s, z) && EntryOk(t, s, t.parent[y]);
    BehindHit(s.up[y]);
    if OnlyHits(s.up[z]) {
      OneMoreHit(s.up[z], s.up[y][0].hit);
    }
  }

  lemma BehindHit<H>(msgs: seq<Message<H>>)
    requires msgs != [] && msgs[0].Hit?
    ensures OnlyHits(msgs) ==> OnlyHits(msgs[1..])
    ensures HitsThenEnd(msgs) ==> HitsThenEnd(msgs[1..])
  {
    if HitsThenEnd(msgs) {
      var tail := msgs[1..];
      assert tail[..|tail| - 1] == msgs[..|msgs| - 1][1..];
    }
  }

  lemma OneMoreHit<H>(msgs: seq<Message<H>>, hit: H)
    requires OnlyHits(msgs)
    ensures OnlyHits(msgs + [Hit(hit)])
  {
  }

  lemma HitHolds<H>(t: Tree, s: State<H>, m: Move<H>)
    requires Inv(t, s) && m.TakeHit? && Enabled(t, s, m)
    ensures Inv(t, Apply(t, s, m))
  {
    var y, s' := m.y, Apply(t, s, m);
    assert LinkOk(t, s, y) && EntryOk(t, s, t.parent[y]);
    forall x | 0 <= x < Size(t) ensures EntryOk(t, s', x) {
      assert EntryOk(t, s, x);
    }
    forall z | 0 <= z < Size(t) && z != t.root ensures LinkOk(t, s', z) {
      HitLink(t, s, m, z);
    }
  }

  // An end is the last message on its link, and the server it reaches waits for it.
  lemma EndIsAwaited<H>(t: Tree, s: State<H>, m: Move<H>)
    requires Inv(t, s) && m.TakeEnd? && Enabled(t, s, m)
    ensures var y, x := m.y, t.parent[m.y];
            && s.up[y] == [End] && s.down[y] == [] && s.entry[y].None? && s.asks[y] == 1 && s.ends[y] == 0
            && s.entry[x].Some?
            && var e := s.entry[x].value;
            && (e.count + 1 == e.numServers <==> forall z: nat :: Kid(t, x, z) ==> s.ends[z] == 1 || z == y)
            && e.count + 1 <= e.numServers
  {
    var y, x := m.y, t.parent[m.y];
    assert LinkOk(t, s, y) && EntryOk(t, s, x);
    var ends := s.ends[y := s.ends[y] + 1];
    forall z | 0 <= z < Size(t) && z != t.root ensures ends[z] <= 1 {
      assert LinkOk(t, s, z);
    }
    EndsChange(t, s.ends, y, x, Size(t));
    EndsVersusKids(t, ends, x, Size(t));
  }

  lemma EndEntry<H>(t: Tree, s: State<H>, m: Move<H>, z: nat)
    requires Inv(t, s) && m.TakeEnd? && Enabled(t, s, m) && z < Size(t)
    ensures EntryOk(t, Apply(t, s, m), z)
  {
    EndIsAwaited(t, s, m);
    assert EntryOk(t, s, z);
    EndsChange(t, s.ends, m.y, z, Size(t));
  }

  lemma EndLink<H>(t: Tree, s: State<H>, m: Move<H>, z: nat)
    requires Inv(t, s) && m.TakeEnd? && Enabled(t, s, m) && z < Size(t) && z != t.root
    ensures LinkOk(t, Apply(t, s, m), z)
  {
    EndIsAwaited(t, s, m);
    var x, s' := t.parent[m.y], Apply(t, s, m);
    assert EntryOk(t, s, x) && LinkOk(t, s, z);
    assert Kid(t, t.parent[z], z);
    if z == x && s'.entry[x].None? {
      assert s'.up[x][..|s'.up[x]| - 1] == s.up[x];
    }
  }

  lemma EndHolds<H>(t: Tree, s: State<H>, m: Move<H>)
    requires Inv(t, s) && m.TakeEnd? && Enabled(t, s, m)
    ensures Inv(t, Apply(t, s, m))
  {
    EndIsAwaited(t, s, m);
    var s' := Apply(t, s, m);
    assert RootOk(t, s') by {
      assert EntryOk(t, s, t.parent[m.y]);
      assert s'.user != s.user ==> s'.user[..|s'.user| - 1] == s.user;
    }
    forall z | 0 <= z < Size(t) ensures EntryOk(t, s', z) {
      EndEntry(t, s, m, z);
    }
    forall z | 0 <= z < Size(t) && z != t.root ensures LinkOk(t, s', z) {
      EndLink(t, s, m, z);
    }
  }

  lemma MoveHolds<H>(t: Tree, s: State<H>, m: Move<H>)
    requires Inv(t, s) && Enabled(t, s, m)
    ensures Inv(t, Apply(t, s, m))
  {
    match m
    case TakeAsk(_, _, _) => AskHolds(t, s, m);
    case TakeHit(_, _) => HitHolds(t, s, m);
    case TakeEnd(_) => EndHolds(t, s, m);
  }

  // --- Results are neither lost nor made up -----------------------------------------------------

  ghost function Count<T>(xs: seq<T>, x: T): nat {
    if xs == [] then 0
    else
      var rest := Count(xs[1..], x);
      if xs[0] == x then 1 + rest else rest
  }

  lemma {:induction false} CountBoth<T>(xs: seq<T>, ys: seq<T>, x: T)
    ensures Count(xs + ys, x) == Count(xs, x) + Count(ys, x)
  {
    if xs == [] {
      assert xs + ys == ys;
    } else {
      CountBoth(xs[1..], ys, x);
      assert (xs + ys)[1..] == xs[1..] + ys;
    }
  }

  lemma {:induction false} CountHits<H>(hits: seq<H>, h: H)
    ensures Count(Hits(hits), Hit(h)) == Count(hits, h)
  {
    if hits != [] {
      CountHits(hits[1..], h);
      assert Hits(hits)[1..] == Hits(hits[1..]);
    }
  }

  // Copies of the result h on the links of the servers below k.
  ghost function InFlight<H>(up: seq<seq<Message<H>>>, h: H, k: nat): nat
    requires k <= |up|
  {
    if k == 0 then 0 else InFlight(up, h, k - 1) + Count(up[k - 1], Hit(h))
  }

  lemma {:induction false} FlightChange<H>(up: seq<seq<Message<H>>>, y: nat, msgs: seq<Message<H>>, h: H, k: nat)
    requires k <= |up| && y < |up|
    ensures InFlight(up[y := msgs], h, k)
         == InFlight(up, h, k) + (if y < k then Count(msgs, Hit(h)) - Count(up[y], Hit(h)) else 0)
  {
    if k > 0 {
      FlightChange(up, y, msgs, h, k - 1);
    }
  }

  ghost predicate Balanced<H>(s: State<H>, h: H) {
    Count(s.made, h) == Count(s.user, Hit(h)) + Count(s.strays, h) + InFlight(s.up, h, |s.up|)
  }

  lemma TellCarries<H>(s: State<H>, x: nat, asker: Option<nat>, msgs: seq<Message<H>>, h: H)
    requires x < |s.up|
    ensures var s' := Tell(s, x, asker, msgs);
            Count(s'.user, Hit(h)) + InFlight(s'.up, h, |s'.up|)
            == Count(s.user, Hit(h)) + InFlight(s.up, h, |s.up|) + Count(msgs, Hit(h))
  {
    CountBoth(s.user, msgs, Hit(h));
    CountBoth(s.up[x], msgs, Hit(h));
    FlightChange(s.up, x, s.up[x] + msgs, h, |s.up|);
  }

  lemma SearchedBalances<H>(t: Tree, s: State<H>, x: nat, asker: Option<nat>, hits: seq<H>, forward: bool, h: H)
    requires Shaped(t, s) && x < Size(t) && Balanced(s, h)
    ensures Balanced(Searched(t, s, x, asker, hits, forward), h)
  {
    var msgs := if forward then Hits(hits) else Hits(hits) + [End];
    CountHits(hits, h);
    CountBoth(Hits(hits), [End], Hit(h));
    CountBoth(s.made, hits, h);
    TellCarries(s.(made := s.made + hits), x, asker, msgs, h);
  }

  lemma AskBalances<H>(t: Tree, s: State<H>, m: Move<H>, h: H)
    requires Inv(t, s) && m.TakeAsk? && Enabled(t, s, m) && Balanced(s, h)
    ensures Balanced(Apply(t, s, m), h)
  {
    var s1 := s.(down := s.down[m.y := s.down[m.y][1..]]);
    SearchedBalances(t, s1, m.y, Some(t.parent[m.y]), m.hits, m.forward, h);
  }

  lemma HitIsAwaited<H>(t: Tree, s: State<H>, m: Move<H>)
    requires Inv(t, s) && m.TakeHit? && Enabled(t, s, m)
    ensures s.entry[t.parent[m.y]].Some?
  {
    assert LinkOk(t, s, m.y);
  }

  lemma OneHit<H>(hit: H, h: H)
    ensures Count([Hit(hit)], Hit(h)) == Count([hit], h) == if hit == h then 1 else 0
  {
  }

  lemma FirstCounts<T>(xs: seq<T>, x: T)
    requires xs != []
    ensures Count(xs, x) == Count(xs[1..], x) + (if xs[0] == x then 1 else 0)
  {
  }

  lemma EndIsNoHit<H>(h: H)
    ensures Count([End], Hit(h)) == Count<Message<H>>([], Hit(h)) == 0
  {
  }

  lemma HitBalances<H>(t: Tree, s: State<H>, m: Move<H>, h: H)
    requires Inv(t, s) && m.TakeHit? && Enabled(t, s, m) && Balanced(s, h)
    ensures Balanced(Apply(t, s, m), h)
  {
    var y, x, hit := m.y, t.parent[m.y], s.up[m.y][0].hit;
    hide Inv, LinkOk, EntryOk, RootOk, InFlight, Count, Searched;
    HitIsAwaited(t, s, m);
    OneHit(hit, h);
    FirstCounts(s.up[y], Hit(h));
    FlightChange(s.up, y, s.up[y][1..], h, Size(t));
    TellCarries(s.(up := s.up[y := s.up[y][1..]]), x, s.entry[x].value.asker, [Hit(hit)], h);
    CountBoth(s.strays, [hit], h);
  }

  lemma EndBalances<H>(t: Tree, s: State<H>, m: Move<H>, h: H)
    requires Inv(t, s) && m.TakeEnd? && Enabled(t, s, m) && Balanced(s, h)
    ensures Balanced(Apply(t, s, m), h)
  {
    hide LinkOk, EntryOk, RootOk, InFlight, Count, Searched, Kids;
    var y, x := m.y, t.parent[m.y];
    EndIsAwaited(t, s, m);
    EndIsNoHit(h);
    FirstCounts(s.up[y], Hit(h));
    FlightChange(s.up, y, s.up[y][1..], h, Size(t));
    var s1 := s.(up := s.up[y := s.up[y][1..]], ends := s.ends[y := s.ends[y] + 1], entry := s.entry[x := None]);
    TellCarries(s1, x, s.entry[x].value.asker, [End], h);
  }

  lemma MoveBalances<H>(t: Tree, s: State<H>, m: Move<H>, h: H)
    requires Inv(t, s) && Enabled(t, s, m) && Balanced(s, h)
    ensures Balanced(Apply(t, s, m), h)
  {
    match m
    case TakeAsk(_, _, _) => AskBalances(t, s, m, h);
    case TakeHit(_, _) => HitBalances(t, s, m, h);
    case TakeEnd(_) => EndBalances(t, s, m, h);
  }

  lemma StartBalances<H>(t: Tree, hits: seq<H>, forward: bool, h: H)
    requires IsTree(t)
    ensures Balanced(Start(t, hits, forward), h)
  {
    NothingFlies<H>(Nothing<H>(t).up, h, Size(t));
    SearchedBalances(t, Nothing(t), t.root, None, hits, forward, h);
  }

  lemma {:induction false} NothingFlies<H>(up: seq<seq<Message<H>>>, h: H, k: nat)
    requires k <= |up| && forall y :: 0 <= y < k ==> up[y] == []
    ensures InFlight(up, h, k) == 0
  {
    if k > 0 {
      NothingFlies(up, h, k - 1);
    }
  }

  // --- When the user has been told the end, nothing is left anywhere -------------------------

  // A server that has answered with its end: the one that asked it has taken that off the link, or
  // its user has been told.
  predicate Answered<H>(t: Tree, s: State<H>, o: nat)
    requires Shaped(t, s) && o < Size(t)
  {
    if o == t.root then s.entry[o].None? else s.ends[o] == 1
  }

  // Nothing is left of the search in the whole branch behind a server that has answered.
  lemma {:induction false} BranchIsSettled<H>(t: Tree, s: State<H>, o: nat, y: nat)
    requires Inv(t, s) && o < Size(t) && Answered(t, s, o) && y < Size(t) && Below(t, o, y)
    ensures s.entry[y].None? && s.down[y] == [] && s.up[y] == []
    ensures y != t.root ==> s.asks[y] == s.ends[y] <= 1
    decreases t.depth[y]
  {
    if y != t.root {
      assert LinkOk(t, s, y);
      if y != o {
        BranchIsSettled(t, s, o, t.parent[y]);
      }
    }
  }

  // --- Until then somebody can move ------------------------------------------------------------

  function Deepest(t: Tree, k: nat): (d: nat)
    requires k <= |t.depth|
    ensures forall y :: 0 <= y < k ==> t.depth[y] <= d
  {
    if k == 0 then 0
    else
      var rest := Deepest(t, k - 1);
      if t.depth[k - 1] > rest then t.depth[k - 1] else rest
  }

  lemma SomeKidIsOut<H>(t: Tree, s: State<H>, x: nat) returns (y: nat)
    requires Inv(t, s) && x < Size(t) && s.entry[x].Some?
    ensures Kid(t, x, y) && s.asks[y] == 1 && s.ends[y] == 0
  {
    assert EntryOk(t, s, x);
    forall z | 0 <= z < Size(t) && z != t.root ensures s.ends[z] <= 1 {
      assert LinkOk(t, s, z);
    }
    EndsVersusKids(t, s.ends, x, Size(t));
    y :| 0 <= y < Size(t) && Kid(t, x, y) && s.ends[y] != 1;
  }

  // Follow the open requests down: the last server asked has a message to take or has
  // sent one.
  lemma {:induction false} SomebodyCanMove<H>(t: Tree, s: State<H>, x: nat) returns (m: Move<H>)
    requires Inv(t, s) && x < Size(t) && s.entry[x].Some?
    ensures Enabled(t, s, m) && Below(t, x, m.y) && m.y != x
    decreases Deepest(t, Size(t)) - t.depth[x]
  {
    var y := SomeKidIsOut(t, s, x);
    assert LinkOk(t, s, y);
    if s.down[y] != [] {
      m := TakeAsk(y, [], false);
    } else if s.entry[y].Some? {
      m := SomebodyCanMove(t, s, y);
      BelowKid(t, x, y, m.y);
      BelowDeeper(t, y, m.y);
    } else {
      m := if s.up[y][0].Hit? then TakeHit(y, true) else TakeEnd(y);
      assert |s.up[y]| > 1 ==> s.up[y][..|s.up[y]| - 1][0] == s.up[y][0];
    }
  }

  // --- The exchange is finite --------------------------------------------------------------------

  // A result still has as many hops to go as its server is deep.
  ghost function HitLoad<H>(msgs: seq<Message<H>>, d: nat): nat {
    if msgs == [] then 0
    else
      var rest := HitLoad(msgs[1..], d);
      if msgs[0].Hit? then d + rest else rest
  }

  ghost function LinkLoad<H>(t: Tree, s: State<H>, y: nat): nat
    requires Shaped(t, s) && y < Size(t)
  {
    HitLoad(s.up[y], t.depth[y])
    + (if y == t.root || s.ends[y] > 0 then 0 else if s.asks[y] > 0 && s.down[y] == [] then 1 else 2)
  }

  ghost function Load<H>(t: Tree, s: State<H>, k: nat): nat
    requires Shaped(t, s) && k <= Size(t)
  {
    if k == 0 then 0 else Load(t, s, k - 1) + LinkLoad(t, s, k - 1)
  }

  lemma {:induction false} HitLoadBoth<H>(a: seq<Message<H>>, b: seq<Message<H>>, d: nat)
    ensures HitLoad(a + b, d) == HitLoad(a, d) + HitLoad(b, d)
  {
    if a == [] {
      assert a + b == b;
    } else {
      HitLoadBoth(a[1..], b, d);
      assert (a + b)[1..] == a[1..] + b;
    }
  }

  lemma {:induction false} HitLoadHits<H>(hits: seq<H>, d: nat)
    ensures HitLoad(Hits(hits), d) == |hits| * d
  {
    if hits != [] {
      HitLoadHits(hits[1..], d);
      assert Hits(hits)[1..] == Hits(hits[1..]);
      assert |hits| * d == |hits[1..]| * d + d;
    }
  }

  // Changing the loads of at most two links.
  lemma {:induction false} LoadChange<H>(t: Tree, s: State<H>, s': State<H>, y: nat, x: nat, k: nat)
    requires Shaped(t, s) && Shaped(t, s') && k <= Size(t) && y < Size(t) && x < Size(t) && x != y
    requires forall z :: 0 <= z < k && z != y && z != x ==> LinkLoad(t, s', z) == LinkLoad(t, s, z)
    ensures Load(t, s', k) == Load(t, s, k)
            + (if y < k then LinkLoad(t, s', y) - LinkLoad(t, s, y) else 0)
            + (if x < k then LinkLoad(t, s', x) - LinkLoad(t, s, x) else 0)
  {
    if k > 0 {
      LoadChange(t, s, s', y, x, k - 1);
    }
  }

  lemma AskLoad<H>(t: Tree, s: State<H>, m: Move<H>, z: nat)
    requires Inv(t, s) && m.TakeAsk? && Enabled(t, s, m) && z < Size(t)
    ensures LinkLoad(t, Apply(t, s, m), z)
         == LinkLoad(t, s, z) + (if z == m.y then |m.hits| * t.depth[z] - 1 else 0)
  {
    NobodyBelowIsAsked(t, s, m.y);
    var s' := Apply(t, s, m);
    if z == m.y {
      HitLoadHits(m.hits, t.depth[z]);
      HitLoadBoth(Hits(m.hits), [End], t.depth[z]);
      assert s'.up[z] == if m.forward then Hits(m.hits) else Hits(m.hits) + [End];
      assert s'.down[z] == [];
    } else if z != t.root {
      assert LinkOk(t, s, z);
    }
  }

  lemma TakeLoad<H>(t: Tree, s: State<H>, m: Move<H>, z: nat)
    requires Inv(t, s) && !m.TakeAsk? && Enabled(t, s, m) && z < Size(t)
    ensures var x := t.parent[m.y]; var s' := Apply(t, s, m);
            LinkLoad(t, s', z) == LinkLoad(t, s, z)
              + (if z == m.y then (if m.TakeHit? then -(t.depth[z] as int) else -1)
                 else if z == x && s'.up[x] != s.up[x] && m.TakeHit? then t.depth[x] as int else 0)
  {
    hide Kids, EndsOf, OnlyHits, HitsThenEnd, RootOk, Searched;
    var y, x, s' := m.y, t.parent[m.y], Apply(t, s, m);
    assert LinkOk(t, s, y) && EntryOk(t, s, x);
    if m.TakeEnd? {
      EndIsAwaited(t, s, m);
      HitLoadBoth(s.up[x], [End], t.depth[x]);
    } else {
      HitLoadBoth(s.up[x], [Hit(s.up[y][0].hit)], t.depth[x]);
      assert s'.up[x] == s.up[x] || s'.up[x] == s.up[x] + [Hit(s.up[y][0].hit)];
    }
  }

  // Every move uses up one unit of load; a server that produces results adds their hops.
  lemma MoveUsesLoad<H>(t: Tree, s: State<H>, m: Move<H>)
    requires Inv(t, s) && Enabled(t, s, m)
    ensures var s' := Apply(t, s, m);
            && |s'.made| == |s.made| + (if m.TakeAsk? then |m.hits| else 0)
            && Load(t, s', Size(t)) + 1 <= Load(t, s, Size(t)) + (if m.TakeAsk? then |m.hits| * t.depth[m.y] else 0)
  {
    var y, x, s' := m.y, t.parent[m.y], Apply(t, s, m);
    assert LinkOk(t, s, y) && EntryOk(t, s, x);
    forall z | 0 <= z < Size(t) && z != y && z != x ensures LinkLoad(t, s', z) == LinkLoad(t, s, z) {
      if m.TakeAsk? { AskLoad(t, s, m, z); } else { TakeLoad(t, s, m, z); }
    }
    if m.TakeAsk? {
      AskLoad(t, s, m, y);
      AskLoad(t, s, m, x);
    } else {
      TakeLoad(t, s, m, y);
      TakeLoad(t, s, m, x);
    }
    LoadChange(t, s, s', y, x, Size(t));
  }

  // --- Whole runs ------------------------------------------------------------------------------------

  ghost predicate Trace<H>(t: Tree, hits: seq<H>, forward: bool, moves: seq<Move<H>>, states: seq<State<H>>) {
    && IsTree(t) && (forward ==> Kids(t, t.root, Size(t)) > 0)
    && |states| == |moves| + 1
    && states[0] == Start(t, hits, forward)
    && forall i :: 0 <= i < |moves| ==>
         Shaped(t, states[i]) && Enabled(t, states[i], moves[i]) && states[i + 1] == Apply(t, states[i], moves[i])
  }

  lemma {:induction false} StartLoad<H>(t: Tree, hits: seq<H>, forward: bool, k: nat)
    requires IsTree(t) && k <= Size(t)
    ensures Load(t, Start(t, hits, forward), k) <= 2 * k
  {
    if k > 0 {
      StartLoad(t, hits, forward, k - 1);
    }
  }

  lemma LoadStaysBounded(made: nat, more: nat, d: nat, D: nat)
    requires d <= D
    ensures D * made + more * d <= D * (made + more)
  {
    assert more * d <= more * D;
  }

  lemma {:induction false} TraceHolds<H>(t: Tree, hits: seq<H>, forward: bool, moves: seq<Move<H>>, states: seq<State<H>>, i: nat)
    requires Trace(t, hits, forward, moves, states) && i <= |moves|
    ensures Inv(t, states[i])
  {
    if i == 0 {
      StartHolds(t, hits, forward);
    } else {
      TraceHolds(t, hits, forward, moves, states, i - 1);
      MoveHolds(t, states[i - 1], moves[i - 1]);
    }
  }

  lemma {:induction false} TraceIsShort<H>(t: Tree, hits: seq<H>, forward: bool, moves: seq<Move<H>>, states: seq<State<H>>, i: nat)
    requires Trace(t, hits, forward, moves, states) && i <= |moves| && Shaped(t, states[i])
    ensures i + Load(t, states[i], Size(t)) <= 2 * Size(t) + Deepest(t, Size(t)) * |states[i].made|
  {
    hide Load, Deepest, Apply, Inv, Enabled, Start;
    if i == 0 {
      StartLoad(t, hits, forward, Size(t));
      NotNegative(Deepest(t, Size(t)), |states[i].made|);
    } else {
      var s, m := states[i - 1], moves[i - 1];
      TraceHolds(t, hits, forward, moves, states, i - 1);
      assert states[i] == Apply(t, s, m);
      TraceIsShort(t, hits, forward, moves, states, i - 1);
      MoveIsPaidFor(t, s, m, i - 1);
    }
  }

  lemma NotNegative(a: nat, b: nat)
    ensures a * b >= 0
  {
  }

  lemma MoveIsPaidFor<H>(t: Tree, s: State<H>, m: Move<H>, i: nat)
    requires Inv(t, s) && Enabled(t, s, m)
    requires i + Load(t, s, Size(t)) <= 2 * Size(t) + Deepest(t, Size(t)) * |s.made|
    ensures var s' := Apply(t, s, m);
            i + 1 + Load(t, s', Size(t)) <= 2 * Size(t) + Deepest(t, Size(t)) * |s'.made|
  {
    MoveUsesLoad(t, s, m);
    hide *;
    var more := if m.TakeAsk? then |m.hits| else 0;
    LoadStaysBounded(|s.made|, more, t.depth[m.y], Deepest(t, Size(t)));
  }

  lemma {:induction false} TraceBalances<H>(t: Tree, hits: seq<H>, forward: bool, moves: seq<Move<H>>, states: seq<State<H>>,
                                            i: nat, h: H)
    requires Trace(t, hits, forward, moves, states) && i <= |moves|
    ensures Balanced(states[i], h)
  {
    if i == 0 {
      StartBalances(t, hits, forward, h);
    } else {
      TraceBalances(t, hits, forward, moves, states, i - 1, h);
      TraceHolds(t, hits, forward, moves, states, i - 1);
      MoveBalances(t, states[i - 1], moves[i - 1], h);
    }
  }

  // The user is told the end at most once and after everything else; by then every
  // request has been answered by exactly one end, no message is left on any link, and
  // every result any server produced has come in.
  lemma EndComesLast<H>(t: Tree, hits: seq<H>, forward: bool, moves: seq<Move<H>>, states: seq<State<H>>)
    requires Trace(t, hits, forward, moves, states)
    ensures var s := states[|moves|];
            && Inv(t, s)
            && (End in s.user ==>
                && HitsThenEnd(s.user)
                && (forall y :: 0 <= y < Size(t) ==> s.entry[y].None? && s.down[y] == [] && s.up[y] == [])
                && (forall y :: 0 <= y < Size(t) && y != t.root ==> s.asks[y] == s.ends[y] <= 1)
                && forall h :: Count(s.made, h) == Count(s.user, Hit(h)) + Count(s.strays, h))
  {
    var s := states[|moves|];
    TraceHolds(t, hits, forward, moves, states, |moves|);
    if End in s.user {
      assert s.entry[t.root].None?;
      forall y | 0 <= y < Size(t)
        ensures s.entry[y].None? && s.down[y] == [] && s.up[y] == [] && (y != t.root ==> s.asks[y] == s.ends[y] <= 1)
      {
        EverybodyIsBelow(t, y);
        BranchIsSettled(t, s, t.root, y);
      }
      forall h ensures Count(s.made, h) == Count(s.user, Hit(h)) + Count(s.strays, h) {
        TraceBalances(t, hits, forward, moves, states, |moves|, h);
        NothingFlies(s.up, h, Size(t));
      }
    }
  }

  // Every run is finite, and one that cannot go on has told the user the end.
  lemma EveryRunEnds<H(!new)>(t: Tree, hits: seq<H>, forward: bool, moves: seq<Move<H>>, states: seq<State<H>>)
    requires Trace(t, hits, forward, moves, states)
    ensures var s := states[|moves|];
            && |moves| <= 2 * Size(t) + Deepest(t, Size(t)) * |s.made|
            && Shaped(t, s)
            && ((forall m :: !Enabled(t, s, m)) <==> End in s.user)
  {
    var s := states[|moves|];
    TraceHolds(t, hits, forward, moves, states, |moves|);
    TraceIsShort(t, hits, forward, moves, states, |moves|);
    EndComesLast(t, hits, forward, moves, states);
    if s.entry[t.root].Some? {
      var m := SomebodyCanMove(t, s, t.root);
    }
  }

  // Results go astray only at the origin, and only when their owner is unknown there.
  lemma {:induction false} KnownResultsArrive<H>(t: Tree, hits: seq<H>, forward: bool, moves: seq<Move<H>>, states: seq<State<H>>, i: nat)
    requires Trace(t, hits, forward, moves, states) && i <= |moves|
    requires forall j :: 0 <= j < i && moves[j].TakeHit? ==> moves[j].userKnown
    ensures states[i].strays == []
  {
    if i > 0 {
      KnownResultsArrive(t, hits, forward, moves, states, i - 1);
    }
  }
}
