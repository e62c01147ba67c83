/** The inverted index of shared files: records counted by reference, bins of records
    per word, lazy deletion and the garbage collector (add_file.c, search.c). */
module FileIndex {
  import opened Options
  import opened Tokens

  const DEAD: nat := 0xFFFF_FFFF
  const MAX_WORDS: nat := 30

  // Allowed bit and sample rates; a record holds the positions of its own.
  const BIT_RATES: seq<nat> := [8, 16, 24, 32, 40, 48, 56, 64, 80, 96, 112, 128, 144, 160, 192, 224, 256, 320]
  const SAMPLE_RATES: seq<nat> := [16000, 24000, 22050, 32000, 44100, 48000]

  type BitRateMask = i: nat | i < 18
  type SampleRateMask = i: nat | i < 6

  datatype Datum = Datum(
    user: Option<nat>,
    filename: string,
    size: nat,
    bitrate: BitRateMask,
    frequency: SampleRateMask,
    kind: nat,
    refcount: nat)     // a field of 5 bits

  datatype Bin = Bin(list: seq<nat>, count: int)

  // Allocated records by address, and the bins by lower-case word. An address that is
  // not in the heap has been freed.
  datatype Store = Store(heap: map<nat, Datum>, table: map<string, Bin>)

  // The last thirty words of a file name are indexed.
  function IndexWords(filename: string, filter: Filter): seq<string> {
    var words := Tokenized(filename, filter);
    if |words| > MAX_WORDS then words[|words| - MAX_WORDS..] else words
  }

  function MoreRefs(d: Datum): Datum {
    d.(refcount := (d.refcount + 1) % 32)
  }

  // fdb_add()
  function Added(st: Store, key: string, r: nat): Store
    requires r in st.heap
  {
    var bin := if key in st.table then st.table[key] else Bin([], 0);
    Store(st.heap[r := MoreRefs(st.heap[r])], st.table[key := Bin(bin.list + [r], bin.count + 1)])
  }

  // free_datum(): mark the record, drop one reference, free it with the last one.
  function Freed(heap: map<nat, Datum>, r: nat): map<nat, Datum>
    requires r in heap
  {
    var d := heap[r].(size := DEAD, user := None, refcount := (heap[r].refcount + 31) % 32);
    if d.refcount == 0 then heap - {r} else heap[r := d]
  }

  // --- The invariant -----------------------------------------------------------------

  function Holding(table: map<string, Bin>, r: nat): set<string> {
    set k | k in table && r in table[k].list
  }

  ghost predicate NoTwice(list: seq<nat>) {
    forall i, j :: 0 <= i < j < |list| ==> list[i] != list[j]
  }

  // References to a record: one from its owner's table, one from every bin that holds it.
  function Refs(st: Store, owned: set<nat>, r: nat): nat {
    |Holding(st.table, r)| + (if r in owned then 1 else 0)
  }

  // The words every record was indexed under, when it was added.
  type Words = map<nat, set<string>>

  ghost predicate WordsOk(filename: string, ws: set<string>) {
    |ws| <= MAX_WORDS && forall w :: w in ws ==> Occurs(filename, w)
  }

  ghost predicate RecordOk(st: Store, owned: set<nat>, words: Words, r: nat)
    requires r in st.heap
  {
    var d := st.heap[r];
    && r in words && WordsOk(d.filename, words[r])
    && d.refcount == Refs(st, owned, r) && 1 <= d.refcount
    && Holding(st.table, r) <= words[r]
    && (d.size != DEAD ==> r in owned && Holding(st.table, r) == words[r])
  }

  ghost predicate BinOk(st: Store, k: string)
    requires k in st.table
  {
    && st.table[k].count == |st.table[k].list|
    && NoTwice(st.table[k].list)
    && forall r :: r in st.table[k].list ==> r in st.heap
  }

  ghost predicate StoreOk(st: Store, owned: set<nat>, words: Words) {
    && owned <= st.heap.Keys
    && (forall r :: r in st.heap ==> RecordOk(st, owned, words, r))
    && (forall k :: k in st.table ==> BinOk(st, k))
  }

  ghost predicate NoEmptyBin(table: map<string, Bin>) {
    forall k :: k in table ==> table[k].list != []
  }

  // The words a record is indexed under fit into the five bits of its counter, together
  // with the owner's reference.
  lemma CounterFits(st: Store, owned: set<nat>, words: Words, r: nat)
    requires StoreOk(st, owned, words) && r in st.heap
    ensures st.heap[r].refcount <= 31
  {
    assert RecordOk(st, owned, words, r);
    SmallerSet(Holding(st.table, r), words[r]);
  }

  lemma {:induction false} SmallerSet(a: set<string>, b: set<string>)
    requires a <= b
    ensures |a| <= |b|
    ensures |a| == |b| ==> a == b
  {
    if a != {} {
      var x :| x in a;
      SmallerSet(a - {x}, b - {x});
    }
  }

  function WordSet(ws: seq<string>): set<string> {
    set w | w in ws
  }

  // Every record is indexed under the words its name had under the filter it was shared with;
  // the filter can be loaded anew while the server runs.
  type Filters = map<nat, Filter>

  ghost predicate Indexed(heap: map<nat, Datum>, words: Words, filters: Filters) {
    forall r :: r in heap ==>
      r in words && r in filters && words[r] == WordSet(IndexWords(heap[r].filename, filters[r]))
  }

  ghost predicate SameNames(heap: map<nat, Datum>, heap': map<nat, Datum>) {
    forall r :: r in heap' ==> r in heap && heap'[r].filename == heap[r].filename
  }

  lemma IndexedStays(heap: map<nat, Datum>, heap': map<nat, Datum>, words: Words, filters: Filters)
    requires Indexed(heap, words, filters) && SameNames(heap, heap')
    ensures Indexed(heap', words, filters)
  {}

  lemma FreedKeepsNames(heap: map<nat, Datum>, r: nat)
    requires r in heap
    ensures SameNames(heap, Freed(heap, r))
  {}

  // The words of a file name that are indexed are few and occur in it.
  lemma IndexWordsOk(filename: string, filter: Filter)
    ensures WordsOk(filename, WordSet(IndexWords(filename, filter)))
    ensures NoRepeats(IndexWords(filename, filter))
  {
    var ws := IndexWords(filename, filter);
    TokenizedIsWords(filename, filter);
    SetOfSeq(ws);
    forall w | w in ws ensures Occurs(filename, w) {
      WordsOccur(filename, filter, w);
    }
  }

  lemma {:induction false} SetOfSeq(ws: seq<string>)
    ensures |WordSet(ws)| <= |ws|
  {
    if ws != [] {
      SetOfSeq(ws[1..]);
      assert WordSet(ws) == WordSet(ws[1..]) + {ws[0]};
    }
  }

  // --- Adding a record to a bin ----------------------------------------------------------

  lemma HoldingAdded(st: Store, key: string, r: nat, x: nat)
    requires r in st.heap
    ensures Holding(Added(st, key, r).table, x) == Holding(st.table, x) + (if x == r then {key} else {})
  {}

  // While a new record is being indexed under its words, everything but its own
  // completeness holds.
  ghost predicate Indexing(st: Store, owned: set<nat>, words: Words, r: nat, done: set<string>) {
    && r in st.heap && r !in owned
    && owned <= st.heap.Keys
    && (forall x :: x in st.heap && x != r ==> RecordOk(st, owned, words, x))
    && (forall k :: k in st.table ==> BinOk(st, k))
    && Holding(st.table, r) == done
    && st.heap[r].refcount == 1 + |done|
    && r in words && done <= words[r] && WordsOk(st.heap[r].filename, words[r])
  }

  lemma AddedBin(st: Store, r: nat, key: string, k: string)
    requires r in st.heap && key !in Holding(st.table, r) && k in Added(st, key, r).table
    requires k in st.table ==> BinOk(st, k)
    ensures BinOk(Added(st, key, r), k)
  {}

  lemma AddedRecord(st: Store, owned: set<nat>, words: Words, r: nat, key: string, x: nat)
    requires r in st.heap && x in st.heap && x != r && RecordOk(st, owned, words, x)
    ensures RecordOk(Added(st, key, r), owned, words, x)
  {
    HoldingAdded(st, key, r, x);
  }

  lemma AddedKeeps(st: Store, owned: set<nat>, words: Words, r: nat, done: set<string>, key: string)
    requires Indexing(st, owned, words, r, done) && key !in done && key in words[r]
    ensures Indexing(Added(st, key, r), owned, words, r, done + {key})
  {
    hide RecordOk, BinOk, WordsOk, Holding;
    var st' := Added(st, key, r);
    HoldingAdded(st, key, r, r);
    SmallerSet(done + {key}, words[r]);
    assert |words[r]| <= MAX_WORDS by { WordsFit(st.heap[r].filename, words[r]); }
    forall x | x in st'.heap && x != r ensures RecordOk(st', owned, words, x) {
      AddedRecord(st, owned, words, r, key, x);
    }
    forall k | k in st'.table ensures BinOk(st', k) {
      AddedBin(st, r, key, k);
    }
  }

  lemma WordsFit(filename: string, ws: set<string>)
    requires WordsOk(filename, ws)
    ensures |ws| <= MAX_WORDS
  {}

  lemma IndexingDone(st: Store, owned: set<nat>, words: Words, r: nat, done: set<string>)
    requires Indexing(st, owned, words, r, done) && done == words[r]
    ensures StoreOk(st, owned + {r}, words)
  {
    forall x | x in st.heap ensures RecordOk(st, owned + {r}, words, x) {
      if x != r {
        assert RecordOk(st, owned, words, x);
      }
    }
  }

  // --- Dropping a reference -----------------------------------------------------------------

  // The owner lets go of a record.
  lemma OwnerLetsGo(st: Store, owned: set<nat>, words: Words, r: nat)
    requires StoreOk(st, owned, words) && r in owned
    ensures StoreOk(st.(heap := Freed(st.heap, r)), owned - {r}, words)
    ensures r in Freed(st.heap, r) <==> Holding(st.table, r) != {}
  {
    var st' := st.(heap := Freed(st.heap, r));
    CounterFits(st, owned, words, r);
    assert RecordOk(st, owned, words, r);
    forall x | x in st'.heap ensures RecordOk(st', owned - {r}, words, x) {
      assert RecordOk(st, owned, words, x);
    }
    forall k | k in st'.table ensures BinOk(st', k) {
      assert BinOk(st, k);
      assert r in st.table[k].list ==> k in Holding(st.table, r);
    }
  }

  function Unlinked(list: seq<nat>, i: nat): seq<nat>
    requires i < |list|
  {
    list[..i] + list[i + 1..]
  }

  // A bin lets go of the dead record at position i.
  function Reaped(st: Store, k: string, i: nat): Store
    requires k in st.table && i < |st.table[k].list| && st.table[k].list[i] in st.heap
  {
    var bin := st.table[k];
    Store(Freed(st.heap, bin.list[i]), st.table[k := Bin(Unlinked(bin.list, i), bin.count - 1)])
  }

  lemma HoldingReaped(st: Store, k: string, i: nat, x: nat)
    requires k in st.table && BinOk(st, k) && i < |st.table[k].list|
    ensures var r := st.table[k].list[i];
            Holding(Reaped(st, k, i).table, x) == Holding(st.table, x) - (if x == r then {k} else {})
  {
    var list := st.table[k].list;
    var rest := Unlinked(list, i);
    assert forall j :: 0 <= j < |rest| ==> rest[j] == if j < i then list[j] else list[j + 1];
    assert x != list[i] && x in list ==> x in rest by {
      if x != list[i] && x in list {
        var j :| 0 <= j < |list| && list[j] == x;
        assert rest[if j < i then j else j - 1] == x;
      }
    }
  }

  lemma ReapedBin(st: Store, k: string, i: nat, b: string)
    requires k in st.table && i < |st.table[k].list| && st.table[k].list[i] in st.heap
    requires b in st.table && BinOk(st, b)
    requires st.table[k].list[i] in Freed(st.heap, st.table[k].list[i]) || b == k || st.table[k].list[i] !in st.table[b].list
    ensures BinOk(Reaped(st, k, i), b)
  {}

  lemma ReapedRecord(st: Store, owned: set<nat>, words: Words, k: string, i: nat, x: nat)
    requires k in st.table && BinOk(st, k) && i < |st.table[k].list| && st.table[k].list[i] in st.heap
    requires st.heap[st.table[k].list[i]].size == DEAD && st.heap[st.table[k].list[i]].refcount <= 31
    requires x in Reaped(st, k, i).heap && RecordOk(st, owned, words, x)
    ensures RecordOk(Reaped(st, k, i), owned, words, x)
  {
    hide Holding, WordsOk, NoTwice, Unlinked;
    assert st.table[k].list[i] == x ==> k in Holding(st.table, x) by { HeldBy(st.table, k, i); }
    HoldingReaped(st, k, i, x);
  }

  lemma HeldBy(table: map<string, Bin>, k: string, i: nat)
    requires k in table && i < |table[k].list|
    ensures k in Holding(table, table[k].list[i])
  {}

  // The record goes exactly when nothing refers to it any more.
  lemma ReapedIsFreed(st: Store, owned: set<nat>, words: Words, k: string, i: nat)
    requires k in st.table && BinOk(st, k) && i < |st.table[k].list|
    requires var r := st.table[k].list[i];
             r in st.heap && RecordOk(st, owned, words, r) && st.heap[r].refcount <= 31
    ensures var r := st.table[k].list[i];
            r in Reaped(st, k, i).heap <==> Refs(Reaped(st, k, i), owned, r) > 0
  {
    assert k in Holding(st.table, st.table[k].list[i]);
    HoldingReaped(st, k, i, st.table[k].list[i]);
  }

  lemma BinLetsGo(st: Store, owned: set<nat>, words: Words, k: string, i: nat)
    requires StoreOk(st, owned, words) && k in st.table && i < |st.table[k].list|
    requires st.table[k].list[i] in st.heap && st.heap[st.table[k].list[i]].size == DEAD
    ensures StoreOk(Reaped(st, k, i), owned, words)
  {
    var r, st' := st.table[k].list[i], Reaped(st, k, i);
    CounterFits(st, owned, words, r);
    HoldingReaped(st, k, i, r);
    ReapedIsFreed(st, owned, words, k, i);
    forall x | x in st'.heap ensures RecordOk(st', owned, words, x) {
      ReapedRecord(st, owned, words, k, i, x);
    }
    hide RecordOk, BinOk;
    forall b | b in st'.table ensures BinOk(st', b) {
      assert b != k && r in st.table[b].list ==> b in Holding(st'.table, r);
      ReapedBin(st, k, i, b);
    }
  }
}
