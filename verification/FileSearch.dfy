/** search.c: fdb_search() scans only the smallest bin; bracketed by brute force. */
module FileSearch {
  import opened Options
  import opened Tokens
  import opened FileIndex
  import opened FileDb

  // Accepted by the caller's filter on owner, bitrate, frequency, speed and type.
  type Callback = Datum -> bool

  // The hit a scan makes of a record.
  ghost predicate Hit(heap: map<nat, Datum>, tokens: seq<string>, cb: Callback, r: nat) {
    && Living(heap, r)
    && (forall t :: t in tokens ==> t != "" && Occurs(heap[r].filename, t))
    && cb(heap[r])
  }

  ghost function HitsIn(heap: map<nat, Datum>, tokens: seq<string>, cb: Callback, list: seq<nat>): seq<nat> {
    if list == [] then []
    else
      var rest := HitsIn(heap, tokens, cb, list[..|list| - 1]);
      if Hit(heap, tokens, cb, list[|list| - 1]) then rest + [list[|list| - 1]] else rest
  }

  // A bin with the fewest files of those of the tokens, when every token has a bin.
  ghost predicate Smallest(table: map<string, Bin>, tokens: seq<string>, k: string) {
    && k in tokens && k in table
    && (forall t :: t in tokens ==> t in table && table[k].count <= table[t].count)
  }

  method SmallestBin(table: map<string, Bin>, tokens: seq<string>) returns (k: Option<string>)
    ensures k.Some? ==> Smallest(table, tokens, k.value)
    ensures k.None? ==> tokens == [] || exists t :: t in tokens && t !in table
  {
    k := None;
    var ptok := 0;
    while ptok < |tokens|
      invariant 0 <= ptok <= |tokens|
      invariant forall j :: 0 <= j < ptok ==> tokens[j] in table
      invariant k.None? <==> ptok == 0
      invariant k.Some? ==> k.value in tokens && k.value in table
                            && forall j :: 0 <= j < ptok ==> table[k.value].count <= table[tokens[j]].count
    {
      if tokens[ptok] !in table {
        return None;
      }
      if k.None? || table[tokens[ptok]].count < table[k.value].count {
        k := Some(tokens[ptok]);
      }
      ptok := ptok + 1;
    }
  }

  // A positive limit cuts the answer off.
  function Limited<T>(all: seq<T>, maxhits: int): seq<T> {
    if 0 < maxhits < |all| then all[..maxhits] else all
  }

  // fdb_search(): the records handed to the caller, in the order they are found.
  method FdbSearch(heap: map<nat, Datum>, table: map<string, Bin>, tokens: seq<string>, maxhits: int, cb: Callback)
    returns (hits: seq<nat>)
    requires forall k, r :: k in table && r in table[k].list ==> r in heap
    ensures (tokens == [] || exists t :: t in tokens && t !in table) ==> hits == []
    ensures tokens != [] && (forall t :: t in tokens ==> t in table) ==>
              exists k :: Smallest(table, tokens, k) && hits == Limited(HitsIn(heap, tokens, cb, table[k].list), maxhits)
  {
    hide HitsIn;
    hits := [];
    var flist := SmallestBin(table, tokens);
    NoHits(heap, tokens, cb);
    if flist.None? {
      return;
    }
    var list := table[flist.value].list;
    ghost var all := HitsIn(heap, tokens, cb, list);
    var ptok := 0;
    while ptok < |list|
      invariant 0 <= ptok <= |list|
      invariant hits == HitsIn(heap, tokens, cb, list[..ptok])
      invariant hits <= all
      invariant maxhits > 0 ==> |hits| < maxhits
    {
      var d := heap[list[ptok]];
      var matched := Match(tokens, d.filename);
      assert list[..ptok + 1][..ptok] == list[..ptok];
      HitsGrow(heap, tokens, cb, list, ptok + 1);
      OneMoreHit(heap, tokens, cb, list[..ptok + 1]);
      if d.size != DEAD && matched && cb(d) {
        hits := hits + [list[ptok]];
        if |hits| == maxhits {
          assert all[..maxhits] == hits;
          return;
        }
      }
      ptok := ptok + 1;
    }
    assert list[..ptok] == list;
  }

  lemma OneMoreHit(heap: map<nat, Datum>, tokens: seq<string>, cb: Callback, list: seq<nat>)
    requires list != []
    ensures var front, r := HitsIn(heap, tokens, cb, list[..|list| - 1]), list[|list| - 1];
      HitsIn(heap, tokens, cb, list) == if Hit(heap, tokens, cb, r) then front + [r] else front
  {
  }

  lemma NoHits(heap: map<nat, Datum>, tokens: seq<string>, cb: Callback)
    ensures HitsIn(heap, tokens, cb, []) == []
  {
  }

  lemma {:induction false} HitsGrow(heap: map<nat, Datum>, tokens: seq<string>, cb: Callback, list: seq<nat>, n: nat)
    requires n <= |list|
    ensures HitsIn(heap, tokens, cb, list[..n]) <= HitsIn(heap, tokens, cb, list)
    decreases |list| - n
  {
    if n == |list| {
      assert list[..n] == list;
    } else {
      assert list[..n + 1][..n] == list[..n];
      HitsGrow(heap, tokens, cb, list, n + 1);
    }
  }

  lemma {:induction false} HitsAre(heap: map<nat, Datum>, tokens: seq<string>, cb: Callback, list: seq<nat>, r: nat)
    ensures r in HitsIn(heap, tokens, cb, list) <==> r in list && Hit(heap, tokens, cb, r)
  {
    if list != [] {
      HitsAre(heap, tokens, cb, list[..|list| - 1], r);
      assert list == list[..|list| - 1] + [list[|list| - 1]];
    }
  }

  // The hits of two lists, one behind the other, come in this order.
  lemma {:induction false} HitsInOrder(heap: map<nat, Datum>, tokens: seq<string>, cb: Callback, a: seq<nat>, b: seq<nat>)
    ensures HitsIn(heap, tokens, cb, a + b) == HitsIn(heap, tokens, cb, a) + HitsIn(heap, tokens, cb, b)
    ensures |b| == 1 ==> HitsIn(heap, tokens, cb, b) == if Hit(heap, tokens, cb, b[0]) then b else []
  {
    hide Hit;
    if b == [] {
      assert a + b == a;
    } else {
      var front := b[..|b| - 1];
      HitsInOrder(heap, tokens, cb, a, front);
      assert (a + b)[..|a + b| - 1] == a + front && b == front + [b[|b| - 1]];
    }
  }

  lemma {:induction false} HitsOnce(heap: map<nat, Datum>, tokens: seq<string>, cb: Callback, list: seq<nat>)
    requires NoTwice(list)
    ensures NoTwice(HitsIn(heap, tokens, cb, list))
  {
    if list != [] {
      var front := list[..|list| - 1];
      HitsOnce(heap, tokens, cb, front);
      HitsAre(heap, tokens, cb, front, list[|list| - 1]);
    }
  }

  // A file the answer must not miss: all tokens are among the words its name was indexed under.
  ghost predicate Wanted(m: Model, tokens: seq<string>, cb: Callback, r: nat) {
    && Living(m.heap, r) && cb(m.heap[r]) && r in m.filters
    && "" !in tokens && tokens != []
    && forall t :: t in tokens ==> t in IndexWords(m.heap[r].filename, m.filters[r])
  }

  // Between two brute-force answers: nothing that is wanted is missing; everything in it is living,
  // accepted and has all tokens in its name; no file is in it twice.
  ghost predicate Bracketed(m: Model, tokens: seq<string>, cb: Callback, all: seq<nat>) {
    && NoTwice(all)
    && (forall r :: r in all ==> Hit(m.heap, tokens, cb, r))
    && forall r :: Wanted(m, tokens, cb, r) ==> r in all
  }

  lemma SearchIsBracketed(m: Model, tokens: seq<string>, cb: Callback, k: string)
    requires DbOk(m) && Smallest(m.table, tokens, k)
    ensures Bracketed(m, tokens, cb, HitsIn(m.heap, tokens, cb, m.table[k].list))
  {
    hide DbOk, Wanted, Hit;
    var list := m.table[k].list;
    BinsOk(m, k);
    HitsOnce(m.heap, tokens, cb, list);
    forall r | r in HitsIn(m.heap, tokens, cb, list) ensures Hit(m.heap, tokens, cb, r) {
      HitsAre(m.heap, tokens, cb, list, r);
    }
    forall r | Wanted(m, tokens, cb, r) ensures r in HitsIn(m.heap, tokens, cb, list) {
      HitsAre(m.heap, tokens, cb, list, r);
      WantedIsHit(m, tokens, cb, k, r);
    }
  }

  lemma BinsOk(m: Model, k: string)
    requires DbOk(m) && k in m.table
    ensures NoTwice(m.table[k].list) && forall r :: r in m.table[k].list ==> r in m.heap
  {
    assert BinOk(Store(m.heap, m.table), k);
  }

  // A living file is in the bin of each word of its name.
  lemma InItsBins(m: Model, t: string, r: nat)
    requires DbOk(m) && Living(m.heap, r)
    ensures r in m.filters
    ensures t in IndexWords(m.heap[r].filename, m.filters[r]) <==> t in m.table && r in m.table[t].list
  {
    hide IndexWords;
    assert RecordOk(Store(m.heap, m.table), m.owner.Keys, m.words, r);
    assert t in m.words[r] <==> t in Holding(m.table, r);
  }

  lemma WantedIsHit(m: Model, tokens: seq<string>, cb: Callback, k: string, r: nat)
    requires DbOk(m) && k in tokens && k in m.table && Wanted(m, tokens, cb, r)
    ensures r in m.table[k].list && Hit(m.heap, tokens, cb, r)
  {
    hide DbOk, IndexWords, Occurs;
    InItsBins(m, k, r);
    forall t | t in tokens ensures t != "" && Occurs(m.heap[r].filename, t) {
      IndexWordOccurs(m.heap[r].filename, m.filters[r], t);
    }
  }

  lemma IndexWordOccurs(filename: string, filter: Filter, t: string)
    requires t in IndexWords(filename, filter)
    ensures Occurs(filename, t)
  {
    hide IndexWords, Occurs;
    IndexWordsOk(filename, filter);
    assert t in WordSet(IndexWords(filename, filter));
  }

  // When some token has no bin, no living file has all tokens among its indexed words: the empty
  // answer misses nothing.
  lemma MissingBinMissesNothing(m: Model, tokens: seq<string>, cb: Callback, t: string)
    requires DbOk(m) && t in tokens && t !in m.table
    ensures Bracketed(m, tokens, cb, [])
  {
    hide DbOk;
    forall r ensures !Wanted(m, tokens, cb, r) {
      if Wanted(m, tokens, cb, r) {
        InItsBins(m, t, r);
      }
    }
  }

  // The whole search of a database: whatever its handlers have done to it before, the answer lies
  // between the two brute-force ones, and the limit takes the front of it.
  method Search(db: Database, tokens: seq<string>, maxhits: int, cb: Callback) returns (hits: seq<nat>)
    requires db.Valid()
    ensures exists all: seq<nat> :: Bracketed(db.All(), tokens, cb, all) && hits == Limited(all, maxhits)
    ensures maxhits > 0 ==> |hits| <= maxhits
    ensures forall i :: 0 <= i < |hits| ==> Hit(db.heap, tokens, cb, hits[i]) && forall j :: 0 <= j < i ==> hits[i] != hits[j]
    ensures maxhits <= 0 || |hits| < maxhits ==> forall r :: Wanted(db.All(), tokens, cb, r) ==> r in hits
  {
    hide DbOk, Bracketed, Wanted, Hit;
    ghost var m := db.All();
    forall k, r | k in db.table && r in db.table[k].list ensures r in db.heap {
      BinsOk(m, k);
    }
    hits := FdbSearch(db.heap, db.table, tokens, maxhits, cb);
    ghost var all: seq<nat> := [];
    if tokens == [] {
      NothingWanted(m, cb);
    } else if t :| t in tokens && t !in db.table {
      MissingBinMissesNothing(m, tokens, cb, t);
    } else {
      ghost var k :| Smallest(db.table, tokens, k) &&
        hits == Limited(HitsIn(db.heap, tokens, cb, db.table[k].list), maxhits);
      SearchIsBracketed(m, tokens, cb, k);
      all := HitsIn(db.heap, tokens, cb, db.table[k].list);
    }
    assert Bracketed(m, tokens, cb, all) && hits == Limited(all, maxhits);
    FrontIs(m, tokens, cb, all, maxhits);
  }

  lemma FrontIs(m: Model, tokens: seq<string>, cb: Callback, all: seq<nat>, maxhits: int)
    requires Bracketed(m, tokens, cb, all)
    ensures var hits := Limited(all, maxhits);
      && (maxhits > 0 ==> |hits| <= maxhits)
      && (forall i :: 0 <= i < |hits| ==> Hit(m.heap, tokens, cb, hits[i]) && forall j :: 0 <= j < i ==> hits[i] != hits[j])
      && (maxhits <= 0 || |hits| < maxhits ==> forall r :: Wanted(m, tokens, cb, r) ==> r in hits)
  {
    hide Hit, Wanted;
    forall i | 0 <= i < |Limited(all, maxhits)| ensures Limited(all, maxhits)[i] == all[i] && all[i] in all {}
  }

  lemma NothingWanted(m: Model, cb: Callback)
    ensures Bracketed(m, [], cb, [])
  {
  }

  // A query with an empty token finds nothing at all, whatever is shared.
  lemma EmptyTokenFindsNothing(heap: map<nat, Datum>, tokens: seq<string>, cb: Callback, list: seq<nat>)
    requires "" in tokens
    ensures HitsIn(heap, tokens, cb, list) == []
  {
    var hits := HitsIn(heap, tokens, cb, list);
    if hits != [] {
      HitsAre(heap, tokens, cb, list, hits[0]);
    }
  }
}
