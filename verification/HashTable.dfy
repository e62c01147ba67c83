/** hash.c: chained buckets of entries, keys compared without regard to case.
    The table is checked against the list of its entries, newest first. */
module HashTable {
  import opened Options
  import opened Text

  datatype Entry<T> = Entry(key: string, data: T)

  // --- The bucket function -----------------------------------------------------

  function Xor(a: nat, b: nat): nat {
    if a == 0 then b
    else if b == 0 then a
    else (a + b) % 2 + 2 * Xor(a / 2, b / 2)
  }

  // One round of the hash on 64-bit unsigned numbers. The nibble in bits 28 to 31
  // is folded into bits 4 to 7 and then cleared.
  function Round(h: nat, c: char): nat {
    var sum := (h * 16 + c as int % 256) % 0x1_0000_0000_0000_0000;
    var nibble := sum / 0x1000_0000 % 16;
    sum - sum % 256 + Xor(sum % 256, nibble * 16) - nibble * 0x1000_0000
  }

  function Rounds(h: nat, key: string): nat
    decreases |key|
  {
    if key == "" then h else Rounds(Round(h, key[0]), key[1..])
  }

  function HashString(key: string, numbuckets: nat): (r: nat)
    requires numbuckets > 0
    ensures r < numbuckets
  {
    Rounds(0, Lower(key)) % numbuckets
  }

  method HashKey(key: string, numbuckets: nat) returns (sum: nat)
    requires numbuckets > 0
    ensures sum == HashString(key, numbuckets)
  {
    hide Round;
    var h: nat := 0;
    var i := 0;
    while i < |key|
      invariant 0 <= i <= |key|
      invariant Rounds(h, Lower(key)[i..]) == Rounds(0, Lower(key))
    {
      assert Lower(key)[i..][1..] == Lower(key)[i + 1..];
      h := Round(h, ToLower(key[i]));
      i := i + 1;
    }
    sum := h % numbuckets;
  }

  // Keys equal ignoring case share a bucket.
  lemma HashIgnoresCase(a: string, b: string, numbuckets: nat)
    requires numbuckets > 0 && SameNoCase(a, b)
    ensures HashString(a, numbuckets) == HashString(b, numbuckets)
  {}

  // --- The table as a list of entries, newest first ----------------------------

  function Chain<T>(entries: seq<Entry<T>>, i: nat, numbuckets: nat): seq<Entry<T>>
    requires numbuckets > 0
  {
    if entries == [] then []
    else
      var rest := Chain(entries[1..], i, numbuckets);
      if HashString(entries[0].key, numbuckets) == i then [entries[0]] + rest else rest
  }

  function First<T>(entries: seq<Entry<T>>, key: string): Option<T> {
    if entries == [] then None
    else if SameNoCase(key, entries[0].key) then Some(entries[0].data)
    else First(entries[1..], key)
  }

  function WithoutFirst<T>(entries: seq<Entry<T>>, key: string): seq<Entry<T>> {
    if entries == [] then []
    else if SameNoCase(key, entries[0].key) then entries[1..]
    else [entries[0]] + WithoutFirst(entries[1..], key)
  }

  lemma {:induction false} LookupInChain<T>(entries: seq<Entry<T>>, key: string, numbuckets: nat)
    requires numbuckets > 0
    ensures First(Chain(entries, HashString(key, numbuckets), numbuckets), key) == First(entries, key)
  {
    if entries != [] {
      var i := HashString(key, numbuckets);
      LookupInChain(entries[1..], key, numbuckets);
      if SameNoCase(key, entries[0].key) {
        HashIgnoresCase(key, entries[0].key, numbuckets);
      }
      var chain := Chain(entries, i, numbuckets);
      if chain != [] && HashString(entries[0].key, numbuckets) == i {
        assert chain[1..] == Chain(entries[1..], i, numbuckets);
      }
    }
  }

  lemma {:induction false} RemoveInChain<T>(entries: seq<Entry<T>>, key: string, i: nat, numbuckets: nat)
    requires numbuckets > 0
    ensures Chain(WithoutFirst(entries, key), i, numbuckets)
         == if i == HashString(key, numbuckets) then WithoutFirst(Chain(entries, i, numbuckets), key)
            else Chain(entries, i, numbuckets)
  {
    if entries != [] {
      if SameNoCase(key, entries[0].key) {
        HashIgnoresCase(key, entries[0].key, numbuckets);
      } else {
        RemoveInChain(entries[1..], key, i, numbuckets);
        var rest := WithoutFirst(entries[1..], key);
        assert ([entries[0]] + rest)[1..] == rest;
      }
      if HashString(entries[0].key, numbuckets) == i {
        assert Chain(entries, i, numbuckets)[1..] == Chain(entries[1..], i, numbuckets);
      }
    }
  }

  lemma {:induction false} RemoveCounts<T>(entries: seq<Entry<T>>, key: string)
    ensures |WithoutFirst(entries, key)| == |entries| - (if First(entries, key).Some? then 1 else 0)
  {
    if entries != [] {
      RemoveCounts(entries[1..], key);
    }
  }

  // --- The view callers have: every key names a stack ---------------------------

  function Stack<T>(entries: seq<Entry<T>>, key: string): seq<T> {
    if entries == [] then []
    else
      var rest := Stack(entries[1..], key);
      if SameNoCase(key, entries[0].key) then [entries[0].data] + rest else rest
  }

  // Lookup sees the top of the key's stack, remove pops it and leaves the stacks
  // of all other keys alone, and spelling the key in another case changes nothing.
  lemma {:induction false} TableOfStacks<T>(entries: seq<Entry<T>>, key: string, other: string)
    ensures First(entries, key) == (if Stack(entries, key) == [] then None else Some(Stack(entries, key)[0]))
    ensures SameNoCase(key, other) ==> Stack(entries, other) == Stack(entries, key)
    ensures Stack(WithoutFirst(entries, key), other)
         == if SameNoCase(key, other) && Stack(entries, other) != [] then Stack(entries, other)[1..]
            else Stack(entries, other)
  {
    if entries != [] {
      TableOfStacks(entries[1..], key, other);
      if !SameNoCase(key, entries[0].key) {
        var rest := WithoutFirst(entries[1..], key);
        assert ([entries[0]] + rest)[1..] == rest;
      }
    }
  }

  // All entries of the buckets i, i+1, ..., chain after chain.
  function Laid<T>(entries: seq<Entry<T>>, i: nat, numbuckets: nat): seq<Entry<T>>
    requires 0 < numbuckets && i <= numbuckets
    decreases numbuckets - i
  {
    if i == numbuckets then [] else Chain(entries, i, numbuckets) + Laid(entries, i + 1, numbuckets)
  }

  lemma {:induction false} LaidStep<T>(entries: seq<Entry<T>>, i: nat, numbuckets: nat)
    requires 0 < numbuckets && i <= numbuckets && entries != []
    ensures multiset(Laid(entries, i, numbuckets))
         == multiset(Laid(entries[1..], i, numbuckets))
            + (if HashString(entries[0].key, numbuckets) >= i then multiset{entries[0]} else multiset{})
    decreases numbuckets - i
  {
    hide HashString;
    if i < numbuckets {
      LaidStep(entries, i + 1, numbuckets);
    }
  }

  // Going through the buckets one after the other meets every entry once.
  lemma {:induction false} BucketsHoldEverything<T>(entries: seq<Entry<T>>, numbuckets: nat)
    requires 0 < numbuckets
    ensures multiset(Laid(entries, 0, numbuckets)) == multiset(entries)
  {
    hide Laid, HashString;
    if entries == [] {
      EmptyLaid<T>(0, numbuckets);
    } else {
      LaidStep(entries, 0, numbuckets);
      BucketsHoldEverything(entries[1..], numbuckets);
      assert entries == [entries[0]] + entries[1..];
    }
  }

  lemma {:induction false} EmptyLaid<T>(i: nat, numbuckets: nat)
    requires 0 < numbuckets && i <= numbuckets
    ensures Laid<T>([], i, numbuckets) == []
    decreases numbuckets - i
  {
    if i < numbuckets {
      EmptyLaid<T>(i + 1, numbuckets);
    }
  }

  // --- The table ------------------------------------------------------------------

  class Hash<T> {
    const bucket: array<seq<Entry<T>>>
    var dbsize: int
    ghost var Entries: seq<Entry<T>>

    ghost predicate Valid()
      reads this, bucket
    {
      && bucket.Length > 0
      && dbsize == |Entries|
      && forall i :: 0 <= i < bucket.Length ==> bucket[i] == Chain(Entries, i, bucket.Length)
    }

    constructor (buckets: nat)
      requires buckets > 0
      ensures Valid() && fresh(bucket) && bucket.Length == buckets && Entries == []
    {
      bucket := new seq<Entry<T>>[buckets](_ => []);
      dbsize := 0;
      Entries := [];
    }

    method Add(key: string, data: T)
      requires Valid()
      modifies this, bucket
      ensures Valid() && Entries == [Entry(key, data)] + old(Entries)
    {
      var he := Entry(key, data);
      var sum := HashKey(key, bucket.Length);
      bucket[sum] := [he] + bucket[sum];
      dbsize := dbsize + 1;
      assert ([he] + Entries)[1..] == Entries;
      Entries := [he] + Entries;
    }

    method Lookup(key: string) returns (r: Option<T>)
      requires Valid()
      ensures r == First(Entries, key)
    {
      var sum := HashKey(key, bucket.Length);
      var chain := bucket[sum];
      LookupInChain(Entries, key, bucket.Length);
      var i := 0;
      while i < |chain|
        invariant 0 <= i <= |chain|
        invariant First(chain[i..], key) == First(Entries, key)
      {
        if SameNoCase(key, chain[i].key) {
          return Some(chain[i].data);
        }
        i := i + 1;
      }
      return None;
    }

    // The data of the entry taken out is what the table's destructor is called with.
    method Remove(key: string) returns (destroyed: Option<T>)
      requires Valid()
      modifies this, bucket
      ensures Valid() && Entries == WithoutFirst(old(Entries), key)
      ensures destroyed == First(old(Entries), key)
      ensures forall j :: 0 <= j < bucket.Length ==>
                bucket[j] == (if j == HashString(key, bucket.Length) then WithoutFirst(old(bucket[j]), key)
                              else old(bucket[j]))
    {
      var sum := HashKey(key, bucket.Length);
      var chain := bucket[sum];
      var i := 0;
      while i < |chain| && !SameNoCase(key, chain[i].key)
        invariant 0 <= i <= |chain|
        invariant forall j :: 0 <= j < i ==> !SameNoCase(key, chain[j].key)
      {
        i := i + 1;
      }
      FirstAt(chain, key, i);
      LookupInChain(Entries, key, bucket.Length);
      RemoveInChains(Entries, key, bucket.Length);
      RemoveCounts(Entries, key);
      Entries := WithoutFirst(Entries, key);
      if i == |chain| {
        return None;
      }
      bucket[sum] := chain[..i] + chain[i + 1..];
      dbsize := dbsize - 1;
      return Some(chain[i].data);
    }

    // hash_foreach with a callback that may remove the entry it is handed.
    method ForEach(doomed: Entry<T> -> bool) returns (visited: seq<Entry<T>>)
      requires Valid()
      modifies this, bucket
      ensures Valid()
      ensures visited == Laid(old(Entries), 0, bucket.Length)
      ensures Reaped(old(Entries), Entries, Keep(visited, doomed))
    {
      hide Reaped, Distinct, Keep, Chain, HashString, SameNoCase, First;
      visited := [];
      ghost var es, n := Entries, bucket.Length;
      var i := 0;
      NothingReaped(es, doomed);
      while i < bucket.Length
        invariant 0 <= i <= n == bucket.Length && Valid()
        invariant visited + Laid(es, i, n) == Laid(es, 0, n)
        invariant forall j :: i <= j < n ==> bucket[j] == Chain(es, j, n)
        invariant Reaped(es, Entries, Keep(visited, doomed))
      {
        visited := ForEachInBucket(i, doomed, visited, es);
        i := i + 1;
      }
    }

    // The pointer into the chain is the number of entries from it to the chain's
    // end; it moves on before the callback runs.
    method ForEachInBucket(i: nat, doomed: Entry<T> -> bool, before: seq<Entry<T>>, ghost es: seq<Entry<T>>)
      returns (visited: seq<Entry<T>>)
      requires Valid() && i < bucket.Length
      requires Reaped(es, Entries, Keep(before, doomed))
      modifies this, bucket
      ensures Valid()
      ensures visited == before + old(bucket[i])
      ensures forall j :: 0 <= j < bucket.Length && j != i ==> bucket[j] == old(bucket[j])
      ensures Reaped(es, Entries, Keep(visited, doomed))
    {
      hide Reaped, Distinct, Keep, Chain, HashString, SameNoCase, First;
      visited := before;
      var left := |bucket[i]|;
      ghost var chain := bucket[i];
      while left > 0
        invariant 0 <= left <= |bucket[i]| && left <= |chain| && Valid()
        invariant bucket[i][|bucket[i]| - left..] == chain[|chain| - left..]
        invariant visited == before + chain[..|chain| - left]
        invariant forall j :: 0 <= j < bucket.Length && j != i ==> bucket[j] == old(bucket[j])
        invariant Reaped(es, Entries, Keep(visited, doomed))
      {
        var p := |bucket[i]| - left;
        var ptr := bucket[i][p];
        assert ptr == bucket[i][p..][0] == chain[|chain| - left];
        ghost var taken := Keep(visited, doomed);
        KeepOneMore(visited, ptr, doomed);
        left := left - 1;
        visited := visited + [ptr];
        assert bucket[i][p + 1..] == bucket[i][p..][1..] == chain[|chain| - left..];
        if doomed(ptr) {
          ChainMember(Entries, i, bucket.Length, p);
          SuffixStays(bucket[i], ptr.key, p);
          ReapedOneMore(es, Entries, taken, ptr);
          var _ := Remove(ptr.key);
        }
      }
    }
  }

  // es has lost exactly the entries taken, provided no two keys of it are equal.
  ghost predicate Reaped<T>(es: seq<Entry<T>>, now: seq<Entry<T>>, taken: seq<Entry<T>>) {
    Distinct(es) ==> Distinct(now) && multiset(es) == multiset(now) + multiset(taken)
  }

  lemma NothingReaped<T>(es: seq<Entry<T>>, doomed: Entry<T> -> bool)
    ensures Reaped(es, es, Keep([], doomed))
  {}

  ghost predicate Distinct<T>(es: seq<Entry<T>>) {
    es == [] || ((forall e :: e in es[1..] ==> !SameNoCase(es[0].key, e.key)) && Distinct(es[1..]))
  }

  ghost function Keep<T>(es: seq<Entry<T>>, p: Entry<T> -> bool): seq<Entry<T>> {
    if es == [] then []
    else
      var rest := Keep(es[..|es| - 1], p);
      if p(es[|es| - 1]) then rest + [es[|es| - 1]] else rest
  }

  lemma KeepOneMore<T>(es: seq<Entry<T>>, e: Entry<T>, p: Entry<T> -> bool)
    ensures Keep(es + [e], p) == if p(e) then Keep(es, p) + [e] else Keep(es, p)
  {
    assert (es + [e])[..|es|] == es;
  }

  lemma {:induction false} ChainMember<T>(entries: seq<Entry<T>>, i: nat, numbuckets: nat, p: nat)
    requires numbuckets > 0 && p < |Chain(entries, i, numbuckets)|
    ensures HashString(Chain(entries, i, numbuckets)[p].key, numbuckets) == i
    ensures Chain(entries, i, numbuckets)[p] in entries
  {
    if HashString(entries[0].key, numbuckets) != i {
      ChainMember(entries[1..], i, numbuckets, p);
    } else if p > 0 {
      ChainMember(entries[1..], i, numbuckets, p - 1);
    }
  }

  lemma FirstAt<T>(chain: seq<Entry<T>>, key: string, p: nat)
    requires p <= |chain|
    requires forall j :: 0 <= j < p ==> !SameNoCase(key, chain[j].key)
    requires p < |chain| ==> SameNoCase(key, chain[p].key)
    ensures p < |chain| ==> First(chain, key) == Some(chain[p].data)
                            && WithoutFirst(chain, key) == chain[..p] + chain[p + 1..]
    ensures p == |chain| ==> First(chain, key) == None && WithoutFirst(chain, key) == chain
  {
    hide SameNoCase, First, WithoutFirst;
    SkipOthers(chain, key, p);
    assert chain[..p] + chain[p..] == chain;
    if p < |chain| {
      HeadMatches(chain[p..], key);
      assert chain[p..][1..] == chain[p + 1..];
    } else {
      NoneLeft<T>(key);
      assert chain[p..] == [];
    }
  }

  lemma NoneLeft<T>(key: string)
    ensures First<T>([], key) == None && WithoutFirst<T>([], key) == []
  {}

  lemma HeadMatches<T>(chain: seq<Entry<T>>, key: string)
    requires chain != [] && SameNoCase(key, chain[0].key)
    ensures First(chain, key) == Some(chain[0].data) && WithoutFirst(chain, key) == chain[1..]
  {}

  lemma HeadDiffers<T>(chain: seq<Entry<T>>, key: string)
    requires chain != [] && !SameNoCase(key, chain[0].key)
    ensures First(chain, key) == First(chain[1..], key) && WithoutFirst(chain, key) == [chain[0]] + WithoutFirst(chain[1..], key)
  {}

  lemma {:induction false} SkipOthers<T>(chain: seq<Entry<T>>, key: string, p: nat)
    requires p <= |chain| && forall j :: 0 <= j < p ==> !SameNoCase(key, chain[j].key)
    ensures First(chain, key) == First(chain[p..], key) && WithoutFirst(chain, key) == chain[..p] + WithoutFirst(chain[p..], key)
  {
    hide SameNoCase, First, WithoutFirst;
    if p == 0 {
      assert chain[0..] == chain;
    } else {
      HeadDiffers(chain, key);
      SkipOthers(chain[1..], key, p - 1);
      assert chain[1..][p - 1..] == chain[p..] && chain[..p] == [chain[0]] + chain[1..][..p - 1];
    }
  }

  lemma RemoveInChains<T>(entries: seq<Entry<T>>, key: string, numbuckets: nat)
    requires numbuckets > 0
    ensures forall i :: 0 <= i < numbuckets ==>
              Chain(WithoutFirst(entries, key), i, numbuckets)
              == (if i == HashString(key, numbuckets) then WithoutFirst(Chain(entries, i, numbuckets), key)
                  else Chain(entries, i, numbuckets))
  {
    forall i | 0 <= i < numbuckets
      ensures Chain(WithoutFirst(entries, key), i, numbuckets)
           == if i == HashString(key, numbuckets) then WithoutFirst(Chain(entries, i, numbuckets), key)
              else Chain(entries, i, numbuckets)
    {
      RemoveInChain(entries, key, i, numbuckets);
    }
  }

  // Removing by the key of an entry takes that entry or a newer one: the chain
  // behind it stays.
  lemma {:induction false} SuffixStays<T>(chain: seq<Entry<T>>, key: string, p: nat)
    requires p < |chain| && SameNoCase(key, chain[p].key)
    ensures |WithoutFirst(chain, key)| == |chain| - 1
    ensures WithoutFirst(chain, key)[p..] == chain[p + 1..]
  {
    if !SameNoCase(key, chain[0].key) {
      SuffixStays(chain[1..], key, p - 1);
    } else if p > 0 {
      assert chain[1..][p..] == chain[p + 1..];
    }
  }

  lemma {:induction false} RemoveTakesTheEntry<T>(es: seq<Entry<T>>, e: Entry<T>)
    requires Distinct(es) && e in es
    ensures multiset(es) == multiset(WithoutFirst(es, e.key)) + multiset{e}
    ensures Distinct(WithoutFirst(es, e.key))
    ensures forall x :: x in WithoutFirst(es, e.key) ==> x in es
  {
    var rest := es[1..];
    assert es == [es[0]] + rest;
    if e != es[0] {
      assert e in rest;
      RemoveTakesTheEntry(rest, e);
      var w := WithoutFirst(rest, e.key);
      assert ([es[0]] + w)[1..] == w;
    }
  }

  lemma ReapedOneMore<T>(es: seq<Entry<T>>, now: seq<Entry<T>>, taken: seq<Entry<T>>, e: Entry<T>)
    requires Reaped(es, now, taken) && e in now
    ensures Reaped(es, WithoutFirst(now, e.key), taken + [e])
  {
    if Distinct(es) {
      RemoveTakesTheEntry(now, e);
    }
  }
}
