/** The handlers that add, remove and collect shared files, and the totals they keep
    (add_file.c, remove_file.c, free_user.c, search.c). */
module FileDb {
  import opened Options
  import opened Text
  import opened Tokens
  import opened FileIndex
  import H = HashTable

  // A logged-in user; local users have a table of their files, newest first.
  datatype User = User(online: bool, local: bool, shared: int, libsize: int, files: seq<H.Entry<nat>>)

  datatype Outcome = Done | TooMany | TooLong | TooBig | Duplicate | NotSharing | NoSuchFile

  const TWO16: nat := 0x1_0000         // a user's number of files is an unsigned short,
  const TWO32: nat := 0x1_0000_0000    // its library size an unsigned int
  const PATH_MAX: nat := 256

  function Short(n: int): (r: nat)
    ensures r < TWO16 && (0 <= n < TWO16 ==> r == n)
  {
    n % TWO16
  }

  function Word(n: int): (r: nat)
    ensures r < TWO32 && (0 <= n < TWO32 ==> r == n)
  {
    n % TWO32
  }

  // --- What the handlers compute ---------------------------------------------------------

  // The first of the rates that is not below the given one; the first of all for a rate above them.
  function MaskOf(rates: seq<nat>, rate: int): (i: nat)
    ensures i < |rates| || rates == []
  {
    if exists i :: 0 <= i < |rates| && rate <= rates[i] then FirstOf(rates, rate) else 0
  }

  function FirstOf(rates: seq<nat>, rate: int): (i: nat)
    requires exists i :: 0 <= i < |rates| && rate <= rates[i]
    ensures i < |rates| && rate <= rates[i] && forall j :: 0 <= j < i ==> rates[j] < rate
  {
    if rate <= rates[0] then 0
    else
      assert exists i :: 0 <= i < |rates[1..]| && rate <= rates[1..][i] by {
        var i :| 0 <= i < |rates| && rate <= rates[i];
        assert rates[1..][i - 1] == rates[i];
      }
      1 + FirstOf(rates[1..], rate)
  }

  lemma MaskIsFirst(rates: seq<nat>, rate: int, i: nat)
    requires i <= |rates| && (forall j :: 0 <= j < i ==> rates[j] < rate) && (i < |rates| ==> rate <= rates[i])
    ensures MaskOf(rates, rate) == if i < |rates| then i else 0
  {}

  // The first rate that is not below the given one, the first of all for a rate above them.
  ghost predicate IsMask(rates: seq<nat>, rate: int, i: nat) {
    && i < |rates| && ((forall j :: 0 <= j < |rates| ==> rates[j] < rate) ==> i == 0)
    && ((exists j :: 0 <= j < |rates| && rate <= rates[j]) ==> rate <= rates[i] && forall j :: 0 <= j < i ==> rates[j] < rate)
  }

  lemma {:induction false} Rising(rates: seq<nat>, i: nat, j: nat)
    requires i < j < |rates| && forall k :: 0 <= k < |rates| - 1 ==> rates[k] < rates[k + 1]
    ensures rates[i] < rates[j]
  {
    if i < j - 1 {
      Rising(rates, i, j - 1);
    }
  }

  // In a table that rises an allowed rate is kept; any other one becomes the next allowed one, or the
  // least of all when it is above them.
  lemma AllowedRate(rates: seq<nat>, rate: int, i: nat)
    requires (forall j, k :: 0 <= j < k < |rates| ==> rates[j] < rates[k]) && IsMask(rates, rate, i)
    ensures rates[i] == rate <==> rate in rates
    ensures if rate <= rates[|rates| - 1] then rate <= rates[i] && forall b <- rates :: rate <= b ==> rates[i] <= b
            else rates[i] == rates[0]
  {}

  lemma BitRatesRise()
    ensures |BIT_RATES| == 18 && BIT_RATES[0] == 8 && BIT_RATES[17] == 320
    ensures forall j, k :: 0 <= j < k < |BIT_RATES| ==> BIT_RATES[j] < BIT_RATES[k]
  {
    assert forall k :: 0 <= k < |BIT_RATES| - 1 ==> BIT_RATES[k] < BIT_RATES[k + 1];
    forall j, k | 0 <= j < k < |BIT_RATES| ensures BIT_RATES[j] < BIT_RATES[k] {
      Rising(BIT_RATES, j, k);
    }
  }

  // The table of sample rates is out of order: 24000 stands in front of 22050, which is therefore never
  // chosen. Every other allowed rate is kept.
  lemma SampleRateKept(rate: int, i: nat)
    requires IsMask(SAMPLE_RATES, rate, i)
    ensures SAMPLE_RATES[i] == rate <==> rate in SAMPLE_RATES && rate != 22050
    ensures SAMPLE_RATES[i] != 22050
    ensures if rate <= 48000 then
              rate <= SAMPLE_RATES[i] && forall b <- SAMPLE_RATES :: rate <= b && b != 22050 ==> SAMPLE_RATES[i] <= b
            else SAMPLE_RATES[i] == 16000
  {
    assert SAMPLE_RATES[0] == 16000 && SAMPLE_RATES[1] == 24000 && SAMPLE_RATES[2] == 22050 && SAMPLE_RATES[3] == 32000
        && SAMPLE_RATES[4] == 44100 && SAMPLE_RATES[5] == 48000;
  }

  function NewDatum(u: nat, filename: string, number: nat, bitrate: int, frequency: int): Datum {
    Datum(Some(u), filename, Word(number), MaskOf(BIT_RATES, bitrate), MaskOf(SAMPLE_RATES, frequency), 0, 0)
  }

  function Inserted(st: Store, ws: seq<string>, r: nat): Store
    requires r in st.heap
    decreases |ws|
  {
    if ws == [] then st else Inserted(Added(st, ws[0], r), ws[1..], r)
  }

  function KiloBytes(files: seq<H.Entry<nat>>, heap: map<nat, Datum>): nat {
    if files == [] then 0
    else (if files[0].data in heap then heap[files[0].data].size / 1024 else 0) + KiloBytes(files[1..], heap)
  }

  // A user after one more file, and after one fewer. Both numbers wrap around.
  function Sharing(user: User, d: Datum, r: nat): User {
    user.(shared := Short(user.shared + 1), libsize := Word(user.libsize + d.size / 1024),
          files := [H.Entry(d.filename, r)] + user.files)
  }

  function Unsharing(user: User, d: Datum): User {
    user.(shared := Short(user.shared - 1), libsize := Word(user.libsize - d.size / 1024),
          files := H.WithoutFirst(user.files, d.filename))
  }

  function SumShared(users: seq<User>): int {
    if users == [] then 0 else users[0].shared + SumShared(users[1..])
  }

  function SumLocal(users: seq<User>): int {
    if users == [] then 0
    else (if users[0].local then users[0].shared else 0) + SumLocal(users[1..])
  }

  function SumSize(users: seq<User>): int {
    if users == [] then 0 else users[0].libsize + SumSize(users[1..])
  }

  predicate Living(heap: map<nat, Datum>, r: nat) {
    r in heap && heap[r].size != DEAD
  }

  function LiveOf(list: seq<nat>, heap: map<nat, Datum>): seq<nat> {
    if list == [] then []
    else
      var rest := LiveOf(list[..|list| - 1], heap);
      if Living(heap, list[|list| - 1]) then rest + [list[|list| - 1]] else rest
  }

  lemma {:induction false} LiveInOrder(a: seq<nat>, b: seq<nat>, heap: map<nat, Datum>)
    ensures LiveOf(a + b, heap) == LiveOf(a, heap) + LiveOf(b, heap)
    ensures |b| == 1 ==> LiveOf(b, heap) == if b[0] in heap && heap[b[0]].size != DEAD then b else []
  {
    if b == [] {
      assert a + b == a;
    } else {
      var front := b[..|b| - 1];
      LiveInOrder(a, front, heap);
      assert (a + b)[..|a + b| - 1] == a + front && b == front + [b[|b| - 1]];
    }
  }

  // The table without its dead entries and without the bins they leave empty.
  function Swept(table: map<string, Bin>, heap: map<nat, Datum>): map<string, Bin> {
    map k | k in table && LiveOf(table[k].list, heap) != [] :: Bin(LiveOf(table[k].list, heap), |LiveOf(table[k].list, heap)|)
  }

  // --- Arithmetic of the totals ------------------------------------------------------------

  lemma {:induction false} SumsChange(users: seq<User>, u: nat, v: User)
    requires u < |users|
    ensures SumShared(users[u := v]) == SumShared(users) - users[u].shared + v.shared
    ensures SumSize(users[u := v]) == SumSize(users) - users[u].libsize + v.libsize
    ensures SumLocal(users[u := v]) == SumLocal(users) - (if users[u].local then users[u].shared else 0)
                                       + (if v.local then v.shared else 0)
  {
    if u == 0 {
      assert users[u := v][1..] == users[1..];
    } else {
      SumsChange(users[1..], u - 1, v);
      assert users[u := v][1..] == users[1..][u - 1 := v];
    }
  }

  lemma {:induction false} SumsGrow(users: seq<User>, v: User)
    ensures SumShared(users + [v]) == SumShared(users) + v.shared
    ensures SumSize(users + [v]) == SumSize(users) + v.libsize
    ensures SumLocal(users + [v]) == SumLocal(users) + (if v.local then v.shared else 0)
  {
    if users == [] {
      assert ([v])[1..] == [];
    } else {
      SumsGrow(users[1..], v);
      assert (users + [v])[1..] == users[1..] + [v];
    }
  }

  ghost predicate SameSizes(files: seq<H.Entry<nat>>, heap: map<nat, Datum>, heap': map<nat, Datum>) {
    forall e :: e in files ==> e.data in heap && e.data in heap' && heap'[e.data].size == heap[e.data].size
  }

  lemma {:induction false} SameSizesSameSum(files: seq<H.Entry<nat>>, heap: map<nat, Datum>, heap': map<nat, Datum>)
    requires SameSizes(files, heap, heap')
    ensures KiloBytes(files, heap') == KiloBytes(files, heap)
  {
    if files != [] {
      assert files[0] in files;
      SameSizesSameSum(files[1..], heap, heap');
    }
  }

  // --- The invariant --------------------------------------------------------------------------

  ghost predicate EntryOk(heap: map<nat, Datum>, owner: map<nat, nat>, u: nat, e: H.Entry<nat>) {
    && e.data in owner && owner[e.data] == u
    && e.data in heap && heap[e.data].filename == e.key
    && (heap[e.data].size != DEAD ==> heap[e.data].user == Some(u))
  }

  ghost predicate Listed(files: seq<H.Entry<nat>>, r: nat) {
    exists e :: e in files && e.data == r
  }

  ghost predicate UserOk(heap: map<nat, Datum>, owner: map<nat, nat>, u: nat, user: User) {
    && (forall e :: e in user.files ==> EntryOk(heap, owner, u, e))
    && H.Distinct(user.files)
    && (!user.local ==> user.files == [])
    && 0 <= user.shared < TWO16 && 0 <= user.libsize < TWO32
    && (!user.online ==> user.shared == 0 && user.libsize == 0 && user.files == [])
  }

  ghost predicate Owners(users: seq<User>, owner: map<nat, nat>) {
    forall r :: r in owner ==> owner[r] < |users| && Listed(users[owner[r]].files, r)
  }

  ghost predicate UsersOk(heap: map<nat, Datum>, owner: map<nat, nat>, users: seq<User>) {
    && Owners(users, owner)
    && forall u :: 0 <= u < |users| ==> UserOk(heap, owner, u, users[u])
  }

  ghost predicate TotalsOk(users: seq<User>, numFiles: int, numGigs: int, localFiles: int) {
    numFiles == SumShared(users) && numGigs == SumSize(users) && localFiles == SumLocal(users)
  }

  // A user's own numbers are right.
  ghost predicate ShareOk(heap: map<nat, Datum>, user: User) {
    user.local ==> user.shared == |user.files| && user.libsize == KiloBytes(user.files, heap)
  }

  ghost predicate SharesOk(heap: map<nat, Datum>, users: seq<User>) {
    forall u :: 0 <= u < |users| ==> ShareOk(heap, users[u])
  }

  lemma {:induction false} LookupFinds(files: seq<H.Entry<nat>>, key: string)
    ensures H.First(files, key).Some? ==> exists e :: e in files && SameNoCase(key, e.key) && e.data == H.First(files, key).value
    ensures H.First(files, key).None? ==> forall e :: e in files ==> !SameNoCase(key, e.key)
  {
    if files != [] {
      LookupFinds(files[1..], key);
      if SameNoCase(key, files[0].key) {
        assert files[0] in files;
      }
    }
  }

  // Everything the handlers share; the last three parts are only for the proofs.
  datatype Model = Model(heap: map<nat, Datum>, table: map<string, Bin>, users: seq<User>,
                         numFiles: int, numGigs: int, localFiles: int, words: Words, filters: Filters, owner: map<nat, nat>)

  // The index is sound: what every handler keeps, whatever peers report.
  ghost predicate DbOk(m: Model) {
    && StoreOk(Store(m.heap, m.table), m.owner.Keys, m.words) && NoEmptyBin(m.table)
    && UsersOk(m.heap, m.owner, m.users)
    && Indexed(m.heap, m.words, m.filters)
  }

  // The numbers are right: the users' own, and the totals over them.
  ghost predicate Balanced(m: Model) {
    SharesOk(m.heap, m.users) && TotalsOk(m.users, m.numFiles, m.numGigs, m.localFiles)
  }

  ghost predicate KeepsSizes(owner: map<nat, nat>, heap: map<nat, Datum>, heap': map<nat, Datum>) {
    forall r :: r in owner && r in heap ==> r in heap' && heap'[r].size == heap[r].size
  }

  // The numbers do not notice changes of the heap that keep the sizes of owned records.
  lemma SharesStay(heap: map<nat, Datum>, heap': map<nat, Datum>, owner: map<nat, nat>, users: seq<User>)
    requires UsersOk(heap, owner, users) && SharesOk(heap, users) && KeepsSizes(owner, heap, heap')
    ensures SharesOk(heap', users)
  {
    forall u | 0 <= u < |users| ensures ShareOk(heap', users[u]) {
      assert UserOk(heap, owner, u, users[u]) && ShareOk(heap, users[u]);
      assert forall e :: e in users[u].files ==> EntryOk(heap, owner, u, e);
      SameSizesSameSum(users[u].files, heap, heap');
    }
  }

  // --- Adding ------------------------------------------------------------------------------------

  lemma StartIndexing(st: Store, owned: set<nat>, words: Words, r: nat, d: Datum, ws: set<string>)
    requires StoreOk(st, owned, words) && r !in st.heap && d.refcount == 1 && WordsOk(d.filename, ws)
    ensures Indexing(Store(st.heap[r := d], st.table), owned, words[r := ws], r, {})
  {
    var st' := Store(st.heap[r := d], st.table);
    forall k | k in st'.table ensures BinOk(st', k) && r !in st.table[k].list {
      assert BinOk(st, k);
    }
    forall x | x in st'.heap && x != r ensures RecordOk(st', owned, words[r := ws], x) {
      assert RecordOk(st, owned, words, x);
    }
    assert Holding(st'.table, r) == {};
  }

  lemma {:induction false} InsertedKeeps(st: Store, ws: seq<string>, r: nat)
    requires r in st.heap
    ensures var st' := Inserted(st, ws, r);
            && st'.heap.Keys == st.heap.Keys
            && (forall x :: x in st.heap && x != r ==> st'.heap[x] == st.heap[x])
            && (exists n :: st'.heap[r] == st.heap[r].(refcount := n))
            && (NoEmptyBin(st.table) ==> NoEmptyBin(st'.table))
    decreases |ws|
  {
    if ws != [] {
      InsertedKeeps(Added(st, ws[0], r), ws[1..], r);
    } else {
      assert st.heap[r] == st.heap[r].(refcount := st.heap[r].refcount);
    }
  }

  lemma UsersGainFile(heap: map<nat, Datum>, heap': map<nat, Datum>, owner: map<nat, nat>, users: seq<User>, u: nat, r: nat, d: Datum)
    requires UsersOk(heap, owner, users) && u < |users| && users[u].local && users[u].online
    requires r !in heap && r !in owner && d.user == Some(u)
    requires heap'.Keys == heap.Keys + {r} && (exists n :: heap'[r] == d.(refcount := n))
    requires forall x :: x in heap ==> heap'[x] == heap[x]
    requires H.First(users[u].files, d.filename).None?
    ensures UsersOk(heap', owner[r := u], users[u := Sharing(users[u], d, r)])
  {
    hide UserOk, EntryOk, Listed, Sharing, H.First;
    var users', owner' := users[u := Sharing(users[u], d, r)], owner[r := u];
    forall w | 0 <= w < |users'| ensures UserOk(heap', owner', w, users'[w]) {
      if w == u {
        GainFile(heap, heap', owner, u, users[u], r, d);
      } else {
        OtherUserStays(heap, heap', owner, u, r, w, users[w]);
      }
    }
    forall x | x in owner' ensures owner'[x] < |users'| && Listed(users'[owner'[x]].files, x) {
      if x == r {
        ListedFirst(users[u], d, r);
      } else if owner[x] == u {
        ListedStill(users[u], d, r, x);
      }
    }
  }

  lemma OtherUserStays(heap: map<nat, Datum>, heap': map<nat, Datum>, owner: map<nat, nat>, u: nat, r: nat, w: nat, user: User)
    requires UserOk(heap, owner, w, user) && r !in owner && forall x :: x in heap ==> x in heap' && heap'[x] == heap[x]
    ensures UserOk(heap', owner[r := u], w, user)
  {
    assert forall x :: x in user.files ==> EntryOk(heap, owner, w, x);
  }

  lemma ListedFirst(user: User, d: Datum, r: nat)
    ensures Listed(Sharing(user, d, r).files, r)
  {
    assert H.Entry(d.filename, r) in Sharing(user, d, r).files;
  }

  lemma ListedStill(user: User, d: Datum, r: nat, x: nat)
    requires Listed(user.files, x)
    ensures Listed(Sharing(user, d, r).files, x)
  {
    var f :| f in user.files && f.data == x;
    assert f in Sharing(user, d, r).files;
  }

  // Neither the user's number of files nor its library size wraps around.
  predicate Fits(user: User, d: Datum) {
    user.shared + 1 < TWO16 && user.libsize + d.size / 1024 < TWO32
  }

  // The database once user u shares the new record r.
  ghost function WithFile(m: Model, u: nat, d: Datum, r: nat, filter: Filter): Model
    requires u < |m.users| && r !in m.heap
  {
    var ws := IndexWords(d.filename, filter);
    var st := Inserted(Store(m.heap[r := d.(refcount := 1)], m.table), ws, r);
    Model(st.heap, st.table, m.users[u := Sharing(m.users[u], d, r)],
          m.numFiles + 1, m.numGigs + d.size / 1024, m.localFiles + 1,
          m.words[r := WordSet(ws)], m.filters[r := filter], m.owner[r := u])
  }

  lemma {:induction false} InsertedRecord(st: Store, ws: seq<string>, r: nat)
    requires r in st.heap
    ensures var now := Inserted(st, ws, r).heap;
      && now.Keys == st.heap.Keys && now[r] == st.heap[r].(refcount := now[r].refcount)
      && forall q <- st.heap :: q != r ==> now[q] == st.heap[q]
    decreases |ws|
  {
    if ws != [] {
      InsertedRecord(Added(st, ws[0], r), ws[1..], r);
    }
  }

  // What the record and its user are after a file has been shared; nobody else changes.
  lemma FileIsThere(m: Model, u: nat, d: Datum, r: nat, filter: Filter)
    requires u < |m.users| && r !in m.heap
    ensures var now := WithFile(m, u, d, r, filter);
      && r in now.heap && now.heap[r] == d.(refcount := now.heap[r].refcount) && now.filters == m.filters[r := filter]
      && (forall q <- m.heap :: q in now.heap && now.heap[q] == m.heap[q])
      && now.users == m.users[u := m.users[u].(files := [H.Entry(d.filename, r)] + m.users[u].files,
                                               shared := (m.users[u].shared + 1) % 0x1_0000,
                                               libsize := (m.users[u].libsize + d.size / 1024) % 0x1_0000_0000)]
      && now.numFiles == m.numFiles + 1 && now.localFiles == m.localFiles + 1 && now.numGigs == m.numGigs + d.size / 1024
  {
    hide Inserted;
    InsertedRecord(Store(m.heap[r := d.(refcount := 1)], m.table), IndexWords(d.filename, filter), r);
  }

  lemma UserFits(heap: map<nat, Datum>, owner: map<nat, nat>, users: seq<User>, u: nat)
    requires UsersOk(heap, owner, users) && u < |users|
    ensures 0 <= users[u].shared < TWO16 && 0 <= users[u].libsize < TWO32
  {
    assert UserOk(heap, owner, u, users[u]);
  }

  // Entering a new record under all words of its name.
  lemma {:induction false} InsertedIndexing(st: Store, owned: set<nat>, words: Words, r: nat, done: set<string>, ws: seq<string>)
    requires Indexing(st, owned, words, r, done) && NoRepeats(ws) && words[r] == done + WordSet(ws) && done !! WordSet(ws)
    ensures Indexing(Inserted(st, ws, r), owned, words, r, words[r])
    decreases |ws|
  {
    hide RecordOk, BinOk, WordsOk, Holding, Added;
    if ws != [] {
      FirstWord(ws);
      AddedKeeps(st, owned, words, r, done, ws[0]);
      InsertedIndexing(Added(st, ws[0], r), owned, words, r, done + {ws[0]}, ws[1..]);
    } else {
      assert done + WordSet(ws) == done;
    }
  }

  lemma FirstWord(ws: seq<string>)
    requires ws != [] && NoRepeats(ws)
    ensures WordSet(ws) == {ws[0]} + WordSet(ws[1..]) && ws[0] !in WordSet(ws[1..]) && NoRepeats(ws[1..])
  {
  }

  lemma InsertedStoreOk(m: Model, d: Datum, r: nat, filter: Filter)
    requires StoreOk(Store(m.heap, m.table), m.owner.Keys, m.words) && r !in m.heap
    ensures var ws := IndexWords(d.filename, filter);
      StoreOk(Inserted(Store(m.heap[r := d.(refcount := 1)], m.table), ws, r), m.owner.Keys + {r}, m.words[r := WordSet(ws)])
  {
    hide StoreOk, WordSet, IndexWords, Inserted;
    var ws := IndexWords(d.filename, filter);
    IndexWordsOk(d.filename, filter);
    StartIndexing(Store(m.heap, m.table), m.owner.Keys, m.words, r, d.(refcount := 1), WordSet(ws));
    var words := m.words[r := WordSet(ws)];
    InsertedIndexing(Store(m.heap[r := d.(refcount := 1)], m.table), m.owner.Keys, words, r, {}, ws);
    InsertedKeeps(Store(m.heap[r := d.(refcount := 1)], m.table), ws, r);
    IndexingDone(Inserted(Store(m.heap[r := d.(refcount := 1)], m.table), ws, r), m.owner.Keys, words, r, WordSet(ws));
  }

  // Sharing a file keeps the index sound.
  lemma InsertOk(m: Model, u: nat, d: Datum, r: nat, filter: Filter)
    requires DbOk(m) && u < |m.users| && m.users[u].local && m.users[u].online
    requires r !in m.heap && d.user == Some(u) && H.First(m.users[u].files, d.filename).None?
    ensures DbOk(WithFile(m, u, d, r, filter))
  {
    hide StoreOk, UsersOk, NoEmptyBin, Inserted, H.First, UserOk, IndexWords, WordSet, Indexed, Sharing;
    var m' := WithFile(m, u, d, r, filter);
    InsertedStoreOk(m, d, r, filter);
    OwnersAreAllocated(m.heap, m.table, m.owner.Keys, m.words, r);
    InsertedKeeps(Store(m.heap[r := d.(refcount := 1)], m.table), IndexWords(d.filename, filter), r);
    UsersGainFile(m.heap, m'.heap, m.owner, m.users, u, r, d);
    InsertedIsIndexed(m, m', d, r, filter);
    assert m'.owner.Keys == m.owner.Keys + {r};
  }

  // It keeps the numbers right if and only if neither of the user's own wraps around.
  lemma InsertBalances(m: Model, u: nat, d: Datum, r: nat, filter: Filter)
    requires DbOk(m) && Balanced(m) && u < |m.users| && m.users[u].local && m.users[u].online && r !in m.heap
    ensures Balanced(WithFile(m, u, d, r, filter)) <==> Fits(m.users[u], d)
  {
    hide StoreOk, UsersOk, NoEmptyBin, SumShared, SumSize, SumLocal, Inserted, IndexWords, WordSet, Indexed, SharesOk, ShareOk;
    var m' := WithFile(m, u, d, r, filter);
    var users' := m.users[u := Sharing(m.users[u], d, r)];
    UserFits(m.heap, m.owner, m.users, u);
    InsertedKeeps(Store(m.heap[r := d.(refcount := 1)], m.table), IndexWords(d.filename, filter), r);
    SharesStay(m.heap, m'.heap, m.owner, m.users);
    ShareGrows(m'.heap, m.users, u, d, r);
    SumsChange(m.users, u, Sharing(m.users[u], d, r));
  }

  lemma ShareGrows(heap: map<nat, Datum>, users: seq<User>, u: nat, d: Datum, r: nat)
    requires u < |users| && users[u].local && SharesOk(heap, users) && r in heap && heap[r].size == d.size
    requires 0 <= users[u].shared < TWO16 && 0 <= users[u].libsize < TWO32
    ensures SharesOk(heap, users[u := Sharing(users[u], d, r)]) <==> Fits(users[u], d)
  {
    var users' := users[u := Sharing(users[u], d, r)];
    assert ShareOk(heap, users[u]) && users'[u].files[1..] == users[u].files;
    assert KiloBytes(users'[u].files, heap) == d.size / 1024 + KiloBytes(users[u].files, heap);
    assert ShareOk(heap, users'[u]) <==> Fits(users[u], d);
    forall w | 0 <= w < |users'| && w != u ensures ShareOk(heap, users'[w]) {
      assert ShareOk(heap, users[w]);
    }
  }

  lemma InsertedIsIndexed(m: Model, m': Model, d: Datum, r: nat, filter: Filter)
    requires Indexed(m.heap, m.words, m.filters) && r !in m.heap
    requires m'.heap.Keys == m.heap.Keys + {r} && (forall x :: x in m.heap ==> m'.heap[x] == m.heap[x])
    requires exists n :: m'.heap[r] == d.(refcount := n)
    requires m'.words == m.words[r := WordSet(IndexWords(d.filename, filter))] && m'.filters == m.filters[r := filter]
    ensures Indexed(m'.heap, m'.words, m'.filters)
  {
    hide WordSet, IndexWords;
  }

  lemma GainFile(heap: map<nat, Datum>, heap': map<nat, Datum>, owner: map<nat, nat>, u: nat, user: User, r: nat, d: Datum)
    requires UserOk(heap, owner, u, user) && user.local && user.online
    requires r !in owner && (forall x :: x in heap ==> x in heap' && heap'[x] == heap[x])
    requires r in heap' && d.user == Some(u) && exists n :: heap'[r] == d.(refcount := n)
    requires H.First(user.files, d.filename).None?
    ensures UserOk(heap', owner[r := u], u, Sharing(user, d, r))
  {
    OtherUserStays(heap, heap', owner, u, r, u, user);
    LookupFinds(user.files, d.filename);
    var files := Sharing(user, d, r).files;
    assert files[1..] == user.files;
    forall x | x in files ensures EntryOk(heap', owner[r := u], u, x) {}
  }

  // --- The database ------------------------------------------------------------------------------

  class Database {
    var heap: map<nat, Datum>
    var table: map<string, Bin>
    var users: seq<User>
    var numFiles: int
    var numGigs: int      // in kilobytes, whatever the name says
    var localFiles: int
    var filter: Filter
    const maxShared: int
    ghost var words: Words
    ghost var filters: Filters
    ghost var owner: map<nat, nat>

    ghost function All(): Model
      reads this
    {
      Model(heap, table, users, numFiles, numGigs, localFiles, words, filters, owner)
    }

    // The index is sound.
    ghost predicate Valid()
      reads this
    {
      DbOk(All())
    }

    // All numbers are right.
    ghost predicate InBalance()
      reads this
    {
      Balanced(All())
    }

    constructor (filter: Filter, maxShared: int)
      ensures Valid() && InBalance() && heap == map[] && table == map[] && users == [] && this.filter == filter && this.maxShared == maxShared
    {
      heap, table, users := map[], map[], [];
      numFiles, numGigs, localFiles := 0, 0, 0;
      words, filters, owner := map[], map[], map[];
      this.filter, this.maxShared := filter, maxShared;
    }

    // load_filter(), at startup and when the configuration is read again.
    method LoadFilter(filter: Filter)
      requires Valid()
      modifies `filter
      ensures Valid() && this.filter == filter && (old(InBalance()) ==> InBalance())
    {
      this.filter := filter;
    }

    method Login(local: bool) returns (u: nat)
      requires Valid()
      modifies `users
      ensures Valid() && u == |old(users)|
      ensures users == old(users) + [User(true, local, 0, 0, [])]
      ensures old(InBalance()) ==> InBalance()
    {
      hide StoreOk, NoEmptyBin, Indexed, UserOk, SumShared, SumSize, SumLocal;
      u := |users|;
      var v := User(true, local, 0, 0, []);
      SumsGrow(users, v);
      NewcomerIsOk(heap, owner, users, v);
      users := users + [v];
    }

    // fdb_add()
    method FdbAdd(key: string, r: nat)
      requires r in heap
      modifies `heap, `table
      ensures Store(heap, table) == Added(Store(old(heap), old(table)), key, r)
    {
      var files := if key in table then table[key] else Bin([], 0);
      files := files.(list := files.list + [r]);
      files := files.(count := files.count + 1);
      table := table[key := files];
      heap := heap[r := MoreRefs(heap[r])];
    }

    // insert_datum(): the allocator has picked the address of the new record.
    method InsertDatum(u: nat, d: Datum, r: nat)
      requires Valid() && u < |users| && users[u].local && users[u].online
      requires r !in heap && d.user == Some(u) && d.refcount == 0
      requires H.First(users[u].files, d.filename).None?
      modifies `heap, `table, `users, `numFiles, `numGigs, `localFiles, `words, `filters, `owner
      ensures Valid() && All() == WithFile(old(All()), u, d, r, filter)
      ensures old(InBalance()) ==> (InBalance() <==> Fits(old(users)[u], d))
    {
      hide StoreOk, DbOk, Balanced, Fits, Inserted, IndexWords, WordSet, H.First, Sharing;
      ghost var before := All();
      heap := heap[r := d.(refcount := 1)];
      IndexFile(d.filename, r);
      CountFile(u, d, r);
      words, filters, owner := words[r := WordSet(IndexWords(d.filename, filter))], filters[r := filter], owner[r := u];
      InsertOk(before, u, d, r, filter);
      if Balanced(before) {
        InsertBalances(before, u, d, r, filter);
      }
    }

    // The file goes into the table of its user and into all numbers.
    method CountFile(u: nat, d: Datum, r: nat)
      requires u < |users|
      modifies `users, `numFiles, `numGigs, `localFiles
      ensures users == old(users)[u := Sharing(old(users)[u], d, r)]
      ensures numFiles == old(numFiles) + 1 && numGigs == old(numGigs) + d.size / 1024 && localFiles == old(localFiles) + 1
    {
      var user := users[u];
      user := user.(files := [H.Entry(d.filename, r)] + user.files);
      var fsize := d.size / 1024;
      user := user.(shared := Short(user.shared + 1));
      user := user.(libsize := Word(user.libsize + fsize));
      users := users[u := user];
      numGigs := numGigs + fsize;
      numFiles := numFiles + 1;
      localFiles := localFiles + 1;
    }

    // bitrateToMask(), freqToMask(): the first of the allowed rates that is not below the given one.
    method RateToMask(rates: seq<nat>, rate: int) returns (i: nat)
      ensures i == MaskOf(rates, rate) && (rates != [] ==> IsMask(rates, rate, i))
    {
      i := 0;
      while i < |rates|
        invariant 0 <= i <= |rates| && forall j :: 0 <= j < i ==> rates[j] < rate
      {
        if rate <= rates[i] {
          MaskIsFirst(rates, rate, i);
          return;
        }
        i := i + 1;
      }
      MaskIsFirst(rates, rate, i);
      return 0;
    }

    // new_datum() and what add_file() enters into the record.
    method NewRecord(u: nat, filename: string, fsize: nat, bitrate: int, frequency: int) returns (d: Datum)
      ensures d == Datum(Some(u), filename, fsize, MaskOf(BIT_RATES, bitrate), MaskOf(SAMPLE_RATES, frequency), 0, 0)
      ensures BIT_RATES[d.bitrate] == bitrate <==> bitrate in BIT_RATES
      ensures SAMPLE_RATES[d.frequency] == frequency <==> frequency in SAMPLE_RATES && frequency != 22050
      ensures IsMask(BIT_RATES, bitrate, d.bitrate) && IsMask(SAMPLE_RATES, frequency, d.frequency)
    {
      hide MaskOf, IsMask;
      var mask := RateToMask(BIT_RATES, bitrate);
      var freq := RateToMask(SAMPLE_RATES, frequency);
      BitRatesRise();
      AllowedRate(BIT_RATES, bitrate, mask);
      SampleRateKept(frequency, freq);
      d := Datum(Some(u), filename, fsize, mask, freq, 0, 0);
    }

    // add_file(), once its arguments are parsed: the second one began gap characters behind the
    // first, and strtoul() read the size.
    method AddFile(u: nat, filename: string, gap: nat, number: nat, bitrate: int, frequency: int, r: nat) returns (o: Outcome)
      requires Valid() && u < |users| && users[u].local && users[u].online && r !in heap
      modifies `heap, `table, `users, `numFiles, `numGigs, `localFiles, `words, `filters, `owner
      ensures var user, size := old(users)[u], Word(number);
              o == if maxShared != 0 && user.shared > maxShared then TooMany
                   else if gap > PATH_MAX + 2 then TooLong
                   else if user.libsize + size >= TWO32 then TooBig
                   else if exists e :: e in user.files && SameNoCase(filename, e.key) then Duplicate
                   else Done
      ensures Valid() && All() == if o.Done? then WithFile(old(All()), u, NewDatum(u, filename, number, bitrate, frequency), r, filter)
                                  else old(All())
      ensures old(InBalance()) ==> (InBalance() <==> !o.Done? || old(users)[u].shared + 1 < TWO16)
      ensures o.Done? ==> r in heap && var d := heap[r];
        && d.filename == filename && d.user == Some(u) && d.kind == 0 && d.size == number % 0x1_0000_0000
        && (BIT_RATES[d.bitrate] == bitrate <==> bitrate in BIT_RATES)
        && (SAMPLE_RATES[d.frequency] == frequency <==> frequency in SAMPLE_RATES && frequency != 22050)
        && IsMask(BIT_RATES, bitrate, d.bitrate) && IsMask(SAMPLE_RATES, frequency, d.frequency)
      ensures o.Done? ==> filters == old(filters)[r := filter] && var was, size := old(users)[u], number % 0x1_0000_0000 / 1024;
        && users == old(users)[u := was.(files := [H.Entry(filename, r)] + was.files, shared := (was.shared + 1) % 0x1_0000,
                                         libsize := (was.libsize + size) % 0x1_0000_0000)]
        && numFiles == old(numFiles) + 1 && localFiles == old(localFiles) + 1 && numGigs == old(numGigs) + size
      ensures forall q <- old(heap) :: q in heap && heap[q] == old(heap)[q]
    {
      hide StoreOk, UsersOk, DbOk, Balanced, Inserted, Sharing, IndexWords, H.First, NoEmptyBin, Indexed, MaskOf, IsMask;
      if maxShared != 0 && users[u].shared > maxShared {
        return TooMany;
      }
      if gap > PATH_MAX + 2 {
        return TooLong;
      }
      var fsize := Word(number);
      UsersFor(All());
      UserFits(heap, owner, users, u);
      if Word(users[u].libsize + fsize) < users[u].libsize {
        return TooBig;
      }
      LookupFinds(users[u].files, filename);
      if H.First(users[u].files, filename).Some? {
        return Duplicate;
      }
      var d := NewRecord(u, filename, fsize, bitrate, frequency);
      FileIsThere(All(), u, d, r, filter);
      InsertDatum(u, d, r);
      return Done;
    }

    // remove_file(); the record stays, marked dead, as long as a bin holds it.
    method RemoveFile(u: nat, name: string) returns (o: Outcome)
      requires Valid() && u < |users| && users[u].local && users[u].online
      modifies `heap, `users, `numFiles, `numGigs, `localFiles, `owner
      ensures Valid() && (old(InBalance()) ==> InBalance())
      ensures var found := H.First(old(users)[u].files, name);
              && o == (if old(users)[u].shared == 0 then NotSharing else if found.None? then NoSuchFile else Done)
              && (if o.Done? then found.value in old(heap) && All() == WithoutFile(old(All()), u, found.value)
                  else All() == old(All()))
      ensures o.Done? ==> var was := old(users)[u]; var r := H.First(was.files, name).value;
        && r in old(heap) && (r !in heap || heap[r].size == DEAD)
        && (forall q <- old(heap) :: q != r ==> q in heap && heap[q] == old(heap)[q])
        && var size := old(heap)[r].size / 1024;
        && users == old(users)[u := was.(shared := (was.shared - 1) % 0x1_0000, libsize := (was.libsize - size) % 0x1_0000_0000,
                                         files := H.WithoutFirst(was.files, old(heap)[r].filename))]
        && numFiles == old(numFiles) - 1 && localFiles == old(localFiles) - 1 && numGigs == old(numGigs) - size
    {
      hide StoreOk, NoEmptyBin, UsersOk, Balanced, Freed, KiloBytes, H.First, H.WithoutFirst, DbOk;
      UsersFor(All());
      var user := users[u];
      if user.shared == 0 {
        return NotSharing;
      }
      var info := H.First(user.files, name);
      if info.None? {
        return NoSuchFile;
      }
      ghost var before := All();
      var r := info.value;
      LookupIsOwned(heap, owner, users, u, name);
      var d := heap[r];
      var fsize := d.size / 1024;
      user := user.(libsize := Word(user.libsize - fsize));
      numGigs := numGigs - fsize;
      numFiles := numFiles - 1;
      localFiles := localFiles - 1;
      user := user.(shared := Short(user.shared - 1));
      // hash_remove() on the user's table, which frees the record
      user := user.(files := H.WithoutFirst(user.files, d.filename));
      users := users[u := user];
      FreedIs(heap, r);
      heap := Freed(heap, r);
      owner := owner - {r};
      RemoveOk(before, u, r);
      if Balanced(before) {
        RemoveBalances(before, u, r);
      }
      return Done;
    }

    method MoveTotals(user: User, shared: int, libsize: int)
      modifies `numFiles, `numGigs
      ensures numFiles == old(numFiles) - user.shared + shared
      ensures numGigs == old(numGigs) - user.libsize + libsize
    {
      if shared > user.shared {
        numFiles := numFiles + (shared - user.shared);
      } else {
        numFiles := numFiles - (user.shared - shared);
      }
      if libsize > user.libsize {
        numGigs := numGigs + (libsize - user.libsize);
      } else {
        numGigs := numGigs - (user.libsize - libsize);
      }
    }

    // user_sharing(): a peer reports what a user shares. The totals change by the numbers reported,
    // the user's number of files keeps only 16 bits of its own.
    method UserSharing(u: nat, shared: int, number: nat)
      requires Valid() && u < |users| && users[u].online
      modifies `users, `numFiles, `numGigs
      ensures Valid()
      ensures var files, size := if shared < 0 then 0 else shared, if shared < 0 then 0 else Word(number);
              && All() == Reported(old(All()), u, files, size)
              && (old(InBalance()) ==> (InBalance() <==> Faithful(old(users)[u], files, size)))
              && users == old(users)[u := old(users)[u].(shared := files % 0x1_0000, libsize := size)]
              && numFiles == old(numFiles) - old(users)[u].shared + files && localFiles == old(localFiles)
              && numGigs == old(numGigs) - old(users)[u].libsize + size
    {
      hide StoreOk, NoEmptyBin, UsersOk, UserOk, DbOk, Balanced, Faithful, Word;
      ghost var before := All();
      var user := users[u];
      if shared < 0 {
        numFiles := numFiles - user.shared;
        numGigs := numGigs - user.libsize;
        user := user.(shared := 0, libsize := 0);
        ReportOk(before, u, 0, 0);
        ReportBalances(before, u, 0, 0);
      } else {
        var libsize := Word(number);
        MoveTotals(user, shared, libsize);
        user := user.(shared := Short(shared), libsize := libsize);
        ReportOk(before, u, shared, libsize);
        ReportBalances(before, u, shared, libsize);
      }
      users := users[u := user];
    }

    // free_user() takes the user out of the totals, then free_hash() lets go of the files.
    method RemoveUser(u: nat)
      requires Valid() && u < |users| && users[u].online
      modifies `heap, `users, `numFiles, `numGigs, `localFiles, `owner
      ensures Valid() && (old(InBalance()) ==> InBalance())
      ensures users == old(users)[u := old(users)[u].(online := false, shared := 0, libsize := 0, files := [])]
      ensures heap == AllFreed(old(heap), old(users)[u].files)
      ensures numFiles == old(numFiles) - old(users)[u].shared && numGigs == old(numGigs) - old(users)[u].libsize
      ensures localFiles == old(localFiles) - (if old(users)[u].local then old(users)[u].shared else 0)
    {
      hide StoreOk, NoEmptyBin, UsersOk, Balanced, Freed, KiloBytes, H.WithoutFirst, DbOk, Leaving;
      var user := users[u];
      var gone := user.(online := false, shared := 0, libsize := 0, files := []);
      numFiles := numFiles - user.shared;
      numGigs := numGigs - user.libsize;
      if user.local {
        localFiles := localFiles - user.shared;
      }
      LeaveStart(old(All()), u, All().(users := users[u := gone]));
      var he := user.files;
      while he != []
        invariant users == old(users)
        invariant Leaving(All().(users := users[u := gone]), u, he)
        invariant old(InBalance()) ==> Balanced(All().(users := users[u := gone]))
        invariant AllFreed(heap, he) == AllFreed(old(heap), old(users)[u].files)
        invariant numFiles == old(numFiles) - old(users)[u].shared && numGigs == old(numGigs) - old(users)[u].libsize
        invariant localFiles == old(localFiles) - (if old(users)[u].local then old(users)[u].shared else 0)
        decreases |he|
      {
        var ptr := he[0];
        LeaveStep(All().(users := users[u := gone]), u, he);
        he := he[1..];
        heap := Freed(heap, ptr.data);
        owner := owner - {ptr.data};
      }
      LeaveEnd(All().(users := users[u := gone]), u);
      users := users[u := gone];
    }

    // collect_garbage() on one bin.
    method CollectBin(k: string)
      requires Valid() && k in table
      modifies `heap, `table
      ensures Valid() && (old(InBalance()) ==> InBalance())
      ensures table == (if LiveOf(old(table)[k].list, old(heap)) == [] then old(table) - {k}
                        else old(table)[k := Bin(LiveOf(old(table)[k].list, old(heap)), |LiveOf(old(table)[k].list, old(heap))|)])
      ensures KeepsLiving(old(heap), heap)
    {
      hide StoreOk, UsersOk, Balanced, NoEmptyBin, LiveOf, Reaped, DbOk, KeepsLiving, CollectingOk;
      ghost var list, was := table[k].list, All();
      CollectStart(was, k);
      var i, seen := 0, 0;
      while i < |table[k].list|
        invariant k in table && table[k].count == |table[k].list|
        invariant Collecting(was, All(), k, list, seen, i)
        decreases |list| - seen
      {
        var d := table[k].list[i];
        CollectIsThere(was, All(), k, list, seen, i);
        if heap[d].size == DEAD {
          CollectReap(was, All(), k, list, seen, i);
          table := table[k := Bin(FileIndex.Unlinked(table[k].list, i), table[k].count - 1)];
          heap := Freed(heap, d);
        } else {
          CollectKeep(was, All(), k, list, seen, i);
          i := i + 1;
        }
        seen := seen + 1;
      }
      CollectEnd(was, All(), k, list, seen, i);
      if table[k].count == 0 {
        table := table - {k};
      }
      if Balanced(was) {
        CollectBalances(was, All());
      }
    }

    // fdb_garbage_collect(): every bin, in whatever order the table keeps them.
    method GarbageCollect()
      requires Valid()
      modifies `heap, `table
      ensures Valid() && (old(InBalance()) ==> InBalance())
      ensures table == Swept(old(table), old(heap))
      ensures KeepsLiving(old(heap), heap) && heap.Keys == owner.Keys
    {
      hide StoreOk, UsersOk, Balanced, NoEmptyBin, LiveOf, DbOk, KeepsLiving;
      ghost var was := table;
      var keys := table.Keys;
      KeepsItself(heap);
      while keys != {}
        invariant Valid() && (old(InBalance()) ==> InBalance()) && KeepsLiving(old(heap), heap)
        invariant keys <= table.Keys && table.Keys <= was.Keys
        invariant forall k :: k in keys ==> table[k] == was[k]
        invariant forall k :: k in was && k !in keys ==>
                    (if k in table then LiveOf(was[k].list, old(heap)) != []
                                        && table[k] == Bin(LiveOf(was[k].list, old(heap)), |LiveOf(was[k].list, old(heap))|)
                     else LiveOf(was[k].list, old(heap)) == [])
        decreases |keys|
      {
        var k :| k in keys;
        LivingStay(old(heap), heap, table[k].list);
        ghost var h := heap;
        CollectBin(k);
        KeepsOn(old(heap), h, heap);
        keys := keys - {k};
      }
      assert table == Swept(old(table), old(heap));
      AllDeadGone(All(), old(table), old(heap));
    }

    // Too many words would overflow the reference count: the first ones go.
    method SkipExcess(tokens: seq<string>) returns (ptr: nat)
      ensures ptr <= |tokens|
      ensures tokens[ptr..] == if |tokens| > MAX_WORDS then tokens[|tokens| - MAX_WORDS..] else tokens
    {
      ptr := 0;
      var fsize := |tokens|;
      while fsize > MAX_WORDS
        invariant fsize == |tokens| - ptr
        invariant ptr > 0 ==> fsize >= MAX_WORDS
      {
        ptr := ptr + 1;
        fsize := fsize - 1;
      }
    }

    method AddToBins(list: seq<string>, r: nat)
      requires r in heap
      modifies `heap, `table
      ensures Store(heap, table) == Inserted(Store(old(heap), old(table)), list, r)
    {
      hide Added;
      var i := 0;
      while i < |list|
        invariant 0 <= i <= |list| && r in heap
        invariant Inserted(Store(heap, table), list[i..], r) == Inserted(Store(old(heap), old(table)), list, r)
      {
        assert list[i..][1..] == list[i + 1..];
        StaysThere(Store(heap, table), list[i], r);
        FdbAdd(list[i], r);
        i := i + 1;
      }
    }

    method IndexFile(filename: string, r: nat)
      requires r in heap
      modifies `heap, `table
      ensures Store(heap, table) == Inserted(Store(old(heap), old(table)), IndexWords(filename, filter), r)
    {
      hide Tokenized, Inserted;
      var tokens := Tokenize(filename, filter);
      var ptr := SkipExcess(tokens);
      AddToBins(tokens[ptr..], r);
    }
  }

  lemma StaysThere(st: Store, key: string, r: nat)
    requires r in st.heap
    ensures r in Added(st, key, r).heap
  {}

  lemma OwnersAreAllocated(heap: map<nat, Datum>, table: map<string, Bin>, owned: set<nat>, words: Words, r: nat)
    requires StoreOk(Store(heap, table), owned, words) && r !in heap
    ensures r !in owned
  {}

  lemma NewcomerIsOk(heap: map<nat, Datum>, owner: map<nat, nat>, users: seq<User>, v: User)
    requires UsersOk(heap, owner, users) && v.shared == 0 && v.libsize == 0 && v.files == []
    ensures UsersOk(heap, owner, users + [v])
    ensures SharesOk(heap, users) ==> SharesOk(heap, users + [v])
  {
    forall u | 0 <= u < |users + [v]| ensures UserOk(heap, owner, u, (users + [v])[u]) {
      if u < |users| {
        assert UserOk(heap, owner, u, users[u]);
      }
    }
  }

  // --- Removing ---------------------------------------------------------------------------------

  lemma {:induction false} FirstIsIn(files: seq<H.Entry<nat>>, name: string) returns (e: H.Entry<nat>)
    requires H.First(files, name).Some?
    ensures e in files && e.data == H.First(files, name).value && SameNoCase(name, e.key)
  {
    if SameNoCase(name, files[0].key) {
      e := files[0];
    } else {
      e := FirstIsIn(files[1..], name);
    }
  }

  lemma LookupIsOwned(heap: map<nat, Datum>, owner: map<nat, nat>, users: seq<User>, u: nat, name: string)
    requires UsersOk(heap, owner, users) && u < |users| && H.First(users[u].files, name).Some?
    ensures var r := H.First(users[u].files, name).value;
            && r in owner && owner[r] == u && r in heap
            && H.Entry(heap[r].filename, r) in users[u].files
  {
    assert UserOk(heap, owner, u, users[u]);
    var e := FirstIsIn(users[u].files, name);
    assert EntryOk(heap, owner, u, e);
    assert e == H.Entry(e.key, e.data);
  }

  // Taking an entry out by its key takes that entry: no two keys of a user's table are equal.
  lemma {:induction false} TableLosesEntry(files: seq<H.Entry<nat>>, heap: map<nat, Datum>, e: H.Entry<nat>)
    requires H.Distinct(files) && e in files && e.data in heap
    ensures var rest := H.WithoutFirst(files, e.key);
            && |rest| == |files| - 1 && H.Distinct(rest)
            && (forall x :: x in files && x != e ==> x in rest)
            && (forall x :: x in rest ==> x in files && !SameNoCase(e.key, x.key))
            && KiloBytes(rest, heap) == KiloBytes(files, heap) - heap[e.data].size / 1024
  {
    if files[0] == e {
    } else {
      assert e in files[1..];
      TableLosesEntry(files[1..], heap, e);
      var w := H.WithoutFirst(files[1..], e.key);
      assert ([files[0]] + w)[1..] == w;
    }
  }

  lemma UserLosesEntry(heap: map<nat, Datum>, heap': map<nat, Datum>, owner: map<nat, nat>, u: nat, user: User, e: H.Entry<nat>)
    requires UserOk(heap, owner, u, user) && user.local && user.online && e in user.files
    requires heap' == Freed(heap, e.data)
    ensures UserOk(heap', owner - {e.data}, u, Unsharing(user, heap[e.data]))
    ensures ShareOk(heap, user) ==> ShareOk(heap', Unsharing(user, heap[e.data]))
    ensures forall x :: x in user.files && x != e ==> x in H.WithoutFirst(user.files, heap[e.data].filename)
  {
    assert EntryOk(heap, owner, u, e);
    TableLosesEntry(user.files, heap, e);
    var rest := H.WithoutFirst(user.files, e.key);
    forall x | x in rest ensures EntryOk(heap', owner - {e.data}, u, x) && heap'[x.data].size == heap[x.data].size && x.data in heap {
      assert x in user.files && EntryOk(heap, owner, u, x);
      assert x.data != e.data;
    }
    SameSizesSameSum(rest, heap, heap');
  }

  lemma OtherUsersStay(heap: map<nat, Datum>, owner: map<nat, nat>, users: seq<User>, u: nat, r: nat, w: nat)
    requires w < |users| && UserOk(heap, owner, w, users[w]) && w != u
    requires r in heap && r in owner && owner[r] == u
    ensures UserOk(Freed(heap, r), owner - {r}, w, users[w])
    ensures ShareOk(heap, users[w]) ==> ShareOk(Freed(heap, r), users[w])
  {
    assert forall x :: x in users[w].files ==> EntryOk(heap, owner, w, x);
    SameSizesSameSum(users[w].files, heap, Freed(heap, r));
  }

  lemma UsersLoseFile(heap: map<nat, Datum>, owner: map<nat, nat>, users: seq<User>, u: nat, r: nat)
    requires UsersOk(heap, owner, users) && u < |users| && users[u].local && users[u].online
    requires r in heap && r in owner && owner[r] == u && H.Entry(heap[r].filename, r) in users[u].files
    ensures UsersOk(Freed(heap, r), owner - {r}, users[u := Unsharing(users[u], heap[r])])
  {
    hide UserOk, EntryOk, Unsharing, Freed;
    var e := H.Entry(heap[r].filename, r);
    var users' := users[u := Unsharing(users[u], heap[r])];
    UserLosesEntry(heap, Freed(heap, r), owner, u, users[u], e);
    forall w | 0 <= w < |users'| ensures UserOk(Freed(heap, r), owner - {r}, w, users'[w]) {
      if w != u {
        OtherUsersStay(heap, owner, users, u, r, w);
      }
    }
    forall x | x in owner - {r} ensures owner[x] < |users'| && Listed(users'[owner[x]].files, x) {
      StillListed(users, users[u := Unsharing(users[u], heap[r])], u, owner[x], heap[r], e, x);
    }
  }

  lemma StillListed(users: seq<User>, users': seq<User>, u: nat, w: nat, d: Datum, e: H.Entry<nat>, x: nat)
    requires u < |users| && w < |users| && Listed(users[w].files, x) && x != e.data
    requires users' == users[u := Unsharing(users[u], d)]
    requires forall f :: f in users[u].files && f != e ==> f in H.WithoutFirst(users[u].files, d.filename)
    ensures Listed(users'[w].files, x)
  {
    var f :| f in users[w].files && f.data == x;
    assert f in users'[w].files;
  }

  lemma UsersFor(m: Model)
    requires DbOk(m)
    ensures UsersOk(m.heap, m.owner, m.users)
  {}

  // The database once user u has let go of record r.
  ghost function WithoutFile(m: Model, u: nat, r: nat): Model
    requires u < |m.users| && r in m.heap
  {
    m.(heap := Freed(m.heap, r), users := m.users[u := Unsharing(m.users[u], m.heap[r])], owner := m.owner - {r},
       numFiles := m.numFiles - 1, numGigs := m.numGigs - m.heap[r].size / 1024, localFiles := m.localFiles - 1)
  }

  lemma FreedIs(heap: map<nat, Datum>, r: nat)
    requires r in heap
    ensures var now := Freed(heap, r);
      && (r !in now || now[r].size == DEAD) && forall q <- heap :: q != r ==> q in now && now[q] == heap[q]
  {}

  lemma RemoveOk(m: Model, u: nat, r: nat)
    requires DbOk(m) && u < |m.users| && m.users[u].local && m.users[u].online
    requires r in m.heap && r in m.owner && m.owner[r] == u && H.Entry(m.heap[r].filename, r) in m.users[u].files
    ensures DbOk(WithoutFile(m, u, r))
  {
    hide Indexed, SameNames, StoreOk, UsersOk, NoEmptyBin, Freed, Unsharing;
    FreedKeepsNames(m.heap, r);
    IndexedStays(m.heap, Freed(m.heap, r), m.words, m.filters);
    OwnerLetsGo(Store(m.heap, m.table), m.owner.Keys, m.words, r);
    UsersLoseFile(m.heap, m.owner, m.users, u, r);
    assert (m.owner - {r}).Keys == m.owner.Keys - {r};
  }

  lemma RemoveBalances(m: Model, u: nat, r: nat)
    requires DbOk(m) && Balanced(m) && u < |m.users| && m.users[u].local && m.users[u].online
    requires r in m.heap && r in m.owner && m.owner[r] == u && H.Entry(m.heap[r].filename, r) in m.users[u].files
    ensures Balanced(WithoutFile(m, u, r))
  {
    hide StoreOk, NoEmptyBin, Indexed, SumShared, SumSize, SumLocal, Freed, Unsharing, UserOk, ShareOk;
    var v := Unsharing(m.users[u], m.heap[r]);
    SumsChange(m.users, u, v);
    UnsharingIs(m.heap, m.owner, u, m.users[u], r);
    UserLosesEntry(m.heap, Freed(m.heap, r), m.owner, u, m.users[u], H.Entry(m.heap[r].filename, r));
    forall w | 0 <= w < |m.users| && w != u ensures ShareOk(Freed(m.heap, r), m.users[w]) {
      OtherUsersStay(m.heap, m.owner, m.users, u, r, w);
    }
  }

  // A user whose numbers are right has at least this file.
  lemma UnsharingIs(heap: map<nat, Datum>, owner: map<nat, nat>, u: nat, user: User, r: nat)
    requires UserOk(heap, owner, u, user) && ShareOk(heap, user) && user.local
    requires r in heap && H.Entry(heap[r].filename, r) in user.files
    ensures var v := Unsharing(user, heap[r]);
      v.shared == user.shared - 1 && v.libsize == user.libsize - heap[r].size / 1024 && v.local
  {
    TableLosesEntry(user.files, heap, H.Entry(heap[r].filename, r));
  }

  // --- Users who leave, and reports about remote users ---------------------------------------------

  // The totals change by the numbers reported, the user's own number of files keeps 16 bits.
  ghost function Reported(m: Model, u: nat, files: nat, size: nat): Model
    requires u < |m.users|
  {
    var was := m.users[u];
    m.(users := m.users[u := was.(shared := Short(files), libsize := size)],
       numFiles := m.numFiles - was.shared + files, numGigs := m.numGigs - was.libsize + size)
  }

  predicate Faithful(was: User, files: nat, size: nat) {
    files < TWO16 && (was.local ==> files == was.shared && size == was.libsize)
  }

  // Whatever is reported, the index stays sound.
  lemma ReportOk(m: Model, u: nat, files: nat, size: nat)
    requires DbOk(m) && u < |m.users| && m.users[u].online && size < TWO32
    ensures DbOk(Reported(m, u, files, size))
  {
    hide StoreOk, NoEmptyBin, Indexed, Owners;
    var now := m.users[u].(shared := Short(files), libsize := size);
    var users' := m.users[u := now];
    SameFilesSameOwners(m.users, u, now, m.owner);
    forall w | 0 <= w < |users'| ensures UserOk(m.heap, m.owner, w, users'[w]) {
      assert UserOk(m.heap, m.owner, w, m.users[w]);
    }
  }

  // A report keeps the numbers right if and only if its number of files fits and, for a user of
  // this server, it says what is so already.
  lemma ReportBalances(m: Model, u: nat, files: nat, size: nat)
    requires DbOk(m) && u < |m.users| && m.users[u].online && size < TWO32
    ensures Balanced(m) ==> (Balanced(Reported(m, u, files, size)) <==> Faithful(m.users[u], files, size))
  {
    hide StoreOk, NoEmptyBin, SumShared, SumSize, SumLocal, KiloBytes, Indexed, Owners;
    var now := m.users[u].(shared := Short(files), libsize := size);
    SumsChange(m.users, u, now);
    var users' := m.users[u := now];
    if Balanced(m) {
      assert ShareOk(m.heap, m.users[u]);
      if Faithful(m.users[u], files, size) {
        forall w | 0 <= w < |users'| ensures ShareOk(m.heap, users'[w]) {
          assert ShareOk(m.heap, m.users[w]);
        }
      } else if files < TWO16 {
        assert !ShareOk(m.heap, users'[u]);
      }
    }
  }

  // A client of this server who shares nothing, and a report that he shares seven files.
  lemma ReportAboutClient()
    ensures var m := Model(map[], map[], [User(true, true, 0, 0, [])], 0, 0, 0, map[], map[], map[]);
      DbOk(m) && Balanced(m) && DbOk(Reported(m, 0, 7, 7000)) && !Balanced(Reported(m, 0, 7, 7000))
  {
    var m := Model(map[], map[], [User(true, true, 0, 0, [])], 0, 0, 0, map[], map[], map[]);
    assert m.users[1..] == [];
    ReportOk(m, 0, 7, 7000);
    ReportBalances(m, 0, 7, 7000);
  }

  lemma SameFilesSameOwners(users: seq<User>, u: nat, now: User, owner: map<nat, nat>)
    requires Owners(users, owner) && u < |users| && now.files == users[u].files
    ensures Owners(users[u := now], owner)
  {}

  function AllFreed(heap: map<nat, Datum>, files: seq<H.Entry<nat>>): map<nat, Datum>
    decreases |files|
  {
    if files == [] then heap
    else AllFreed(if files[0].data in heap then Freed(heap, files[0].data) else heap, files[1..])
  }

  // While the files of user u are let go of: the ones left are still u's, nothing else is.
  ghost predicate Leaving(m: Model, u: nat, rest: seq<H.Entry<nat>>) {
    && u < |m.users| && m.users[u].files == [] && !m.users[u].online && m.users[u].shared == 0 && m.users[u].libsize == 0
    && StoreOk(Store(m.heap, m.table), m.owner.Keys, m.words) && NoEmptyBin(m.table)
    && Indexed(m.heap, m.words, m.filters)
    && (forall w :: 0 <= w < |m.users| ==> UserOk(m.heap, m.owner, w, m.users[w]))
    && (forall e :: e in rest ==> EntryOk(m.heap, m.owner, u, e)) && H.Distinct(rest)
    && forall r :: r in m.owner ==> m.owner[r] < |m.users| && Listed(if m.owner[r] == u then rest else m.users[m.owner[r]].files, r)
  }

  lemma LeaveStart(m: Model, u: nat, m': Model)
    requires DbOk(m) && u < |m.users| && m.users[u].online
    requires m' == m.(users := m.users[u := m.users[u].(online := false, shared := 0, libsize := 0, files := [])],
                      numFiles := m.numFiles - m.users[u].shared, numGigs := m.numGigs - m.users[u].libsize,
                      localFiles := m.localFiles - (if m.users[u].local then m.users[u].shared else 0))
    ensures Leaving(m', u, m.users[u].files)
    ensures Balanced(m) ==> Balanced(m')
  {
    hide StoreOk, NoEmptyBin, SumShared, SumSize, SumLocal, EntryOk, Listed, Indexed;
    SumsChange(m.users, u, m'.users[u]);
    assert UserOk(m.heap, m.owner, u, m.users[u]);
    forall w | 0 <= w < |m'.users| ensures UserOk(m'.heap, m'.owner, w, m'.users[w]) {
      assert UserOk(m.heap, m.owner, w, m.users[w]);
    }
  }

  lemma LeaveStep(m: Model, u: nat, rest: seq<H.Entry<nat>>)
    requires Leaving(m, u, rest) && rest != []
    ensures rest[0].data in m.heap
    ensures var m' := m.(heap := Freed(m.heap, rest[0].data), owner := m.owner - {rest[0].data});
      Leaving(m', u, rest[1..]) && (Balanced(m) ==> Balanced(m'))
  {
    hide StoreOk, NoEmptyBin, TotalsOk, Freed, UserOk, ShareOk, Listed, Indexed, SameNames;
    var e := rest[0];
    assert e in rest && EntryOk(m.heap, m.owner, u, e);
    var m' := m.(heap := Freed(m.heap, e.data), owner := m.owner - {e.data});
    FreedKeepsNames(m.heap, e.data);
    IndexedStays(m.heap, m'.heap, m.words, m.filters);
    OwnerLetsGo(Store(m.heap, m.table), m.owner.Keys, m.words, e.data);
    assert m'.owner.Keys == m.owner.Keys - {e.data};
    forall w | 0 <= w < |m'.users|
      ensures UserOk(m'.heap, m'.owner, w, m'.users[w]) && (ShareOk(m.heap, m.users[w]) ==> ShareOk(m'.heap, m'.users[w]))
    {
      if w != u {
        OtherUsersStay(m.heap, m.owner, m.users, u, e.data, w);
      } else {
        GoneIsOk(m.heap, m'.heap, m.owner, m'.owner, u, m.users[u]);
      }
    }
    LeftoversStay(m, u, rest);
  }

  lemma GoneIsOk(heap: map<nat, Datum>, heap': map<nat, Datum>, owner: map<nat, nat>, owner': map<nat, nat>, u: nat, user: User)
    requires UserOk(heap, owner, u, user) && user.files == []
    ensures UserOk(heap', owner', u, user) && (ShareOk(heap, user) ==> ShareOk(heap', user))
  {}

  lemma LeftoversStay(m: Model, u: nat, rest: seq<H.Entry<nat>>)
    requires Leaving(m, u, rest) && rest != [] && rest[0].data in m.heap
    ensures var owner', heap' := m.owner - {rest[0].data}, Freed(m.heap, rest[0].data);
            && (forall x :: x in rest[1..] ==> EntryOk(heap', owner', u, x))
            && forall r :: r in owner' ==> Listed(if owner'[r] == u then rest[1..] else m.users[owner'[r]].files, r)
  {
    hide StoreOk, NoEmptyBin, UserOk, Indexed;
    var e, owner', heap' := rest[0], m.owner - {rest[0].data}, Freed(m.heap, rest[0].data);
    assert EntryOk(m.heap, m.owner, u, e);
    forall x | x in rest[1..] ensures EntryOk(heap', owner', u, x) {
      assert x in rest && EntryOk(m.heap, m.owner, u, x);
      assert !SameNoCase(e.key, x.key);
    }
    forall r | r in owner' ensures Listed(if owner'[r] == u then rest[1..] else m.users[owner'[r]].files, r) {
      if owner'[r] == u {
        assert Listed(rest, r);
        var f :| f in rest && f.data == r;
        assert f in rest[1..];
      }
    }
  }

  lemma LeaveEnd(m: Model, u: nat)
    requires Leaving(m, u, [])
    ensures DbOk(m)
  {
    forall r | r in m.owner ensures m.owner[r] < |m.users| && Listed(m.users[m.owner[r]].files, r) {
      assert Listed(if m.owner[r] == u then [] else m.users[m.owner[r]].files, r);
    }
  }

  // --- Collecting garbage ---------------------------------------------------------------------------

  // Living records are not touched; no dead one comes back to life.
  ghost predicate KeepsLiving(heap: map<nat, Datum>, heap': map<nat, Datum>) {
    && heap'.Keys <= heap.Keys
    && (forall r :: Living(heap, r) ==> r in heap' && heap'[r] == heap[r])
    && forall r :: r in heap' && !Living(heap, r) ==>
         heap'[r].size == DEAD && heap'[r].filename == heap[r].filename
  }

  lemma KeepsItself(heap: map<nat, Datum>)
    ensures KeepsLiving(heap, heap)
  {}

  lemma KeepsOn(a: map<nat, Datum>, b: map<nat, Datum>, c: map<nat, Datum>)
    requires KeepsLiving(a, b) && KeepsLiving(b, c)
    ensures KeepsLiving(a, c)
  {}

  lemma {:induction false} LivingStay(heap: map<nat, Datum>, heap': map<nat, Datum>, list: seq<nat>)
    requires KeepsLiving(heap, heap')
    ensures LiveOf(list, heap') == LiveOf(list, heap)
  {
    if list != [] {
      LivingStay(heap, heap', list[..|list| - 1]);
    }
  }

  ghost predicate CollectingOk(m: Model) {
    && StoreOk(Store(m.heap, m.table), m.owner.Keys, m.words)
    && UsersOk(m.heap, m.owner, m.users)
    && Indexed(m.heap, m.words, m.filters)
  }

  // The bin has kept the living among the entries seen, and all that are to come.
  ghost predicate Collecting(was: Model, m: Model, k: string, list: seq<nat>, seen: nat, i: nat) {
    && CollectingOk(m) && m == was.(heap := m.heap, table := m.table)
    && KeepsLiving(was.heap, m.heap)
    && k in m.table && m.table == was.table[k := m.table[k]] && k in was.table && was.table[k].list == list
    && NoEmptyBin(was.table)
    && seen <= |list| && i == |LiveOf(list[..seen], was.heap)|
    && m.table[k].list == LiveOf(list[..seen], was.heap) + list[seen..]
  }

  lemma CollectStart(m: Model, k: string)
    requires DbOk(m) && k in m.table
    ensures Collecting(m, m, k, m.table[k].list, 0, 0)
    ensures m.table[k].count == |m.table[k].list|
  {
    KeepsItself(m.heap);
    assert BinOk(Store(m.heap, m.table), k);
    assert m.table[k].list == [] + m.table[k].list[0..];
    assert LiveOf(m.table[k].list[..0], m.heap) == [];
  }

  lemma BinIsThere(m: Model, k: string)
    requires CollectingOk(m) && k in m.table
    ensures forall r :: r in m.table[k].list ==> r in m.heap
  {
    assert BinOk(Store(m.heap, m.table), k);
  }

  lemma CollectIsThere(was: Model, m: Model, k: string, list: seq<nat>, seen: nat, i: nat)
    requires Collecting(was, m, k, list, seen, i) && i < |m.table[k].list|
    ensures seen < |list| && m.table[k].list[i] == list[seen] && list[seen] in m.heap
    ensures m.heap[list[seen]].size == DEAD <==> !Living(was.heap, list[seen])
    ensures var more := if Living(was.heap, list[seen]) then [list[seen]] else [];
            LiveOf(list[..seen + 1], was.heap) == LiveOf(list[..seen], was.heap) + more
    ensures m.table[k].list[i + 1..] == list[seen + 1..]
  {
    hide CollectingOk, NoEmptyBin;
    BinIsThere(m, k);
    assert m.table[k].list[i] in m.table[k].list;
    assert list[..seen + 1][..seen] == list[..seen];
  }

  lemma CollectKeep(was: Model, m: Model, k: string, list: seq<nat>, seen: nat, i: nat)
    requires Collecting(was, m, k, list, seen, i) && i < |m.table[k].list| && m.table[k].list[i] in m.heap
    requires m.heap[m.table[k].list[i]].size != DEAD
    ensures Collecting(was, m, k, list, seen + 1, i + 1)
  {
    hide CollectingOk, KeepsLiving, LiveOf, NoEmptyBin, Living;
    CollectIsThere(was, m, k, list, seen, i);
    assert list[seen..] == [list[seen]] + list[seen + 1..];
  }

  lemma CollectReap(was: Model, m: Model, k: string, list: seq<nat>, seen: nat, i: nat)
    requires Collecting(was, m, k, list, seen, i) && i < |m.table[k].list| && m.table[k].list[i] in m.heap
    requires m.heap[m.table[k].list[i]].size == DEAD
    ensures var r := m.table[k].list[i];
            var bin := Bin(FileIndex.Unlinked(m.table[k].list, i), m.table[k].count - 1);
            Collecting(was, m.(heap := Freed(m.heap, r), table := m.table[k := bin]), k, list, seen + 1, i)
  {
    hide CollectingOk, KeepsLiving, LiveOf, NoEmptyBin, Living, Freed;
    CollectIsThere(was, m, k, list, seen, i);
    ReapOk(m, k, i);
    ReapKeeps(was.heap, m.heap, list[seen]);
    assert FileIndex.Unlinked(m.table[k].list, i) == LiveOf(list[..seen], was.heap) + list[seen + 1..];
  }

  lemma ReapKeeps(heap: map<nat, Datum>, heap': map<nat, Datum>, r: nat)
    requires KeepsLiving(heap, heap') && r in heap' && heap'[r].size == DEAD
    ensures KeepsLiving(heap, Freed(heap', r))
  {}

  lemma ReapOk(m: Model, k: string, i: nat)
    requires CollectingOk(m) && k in m.table && i < |m.table[k].list|
    requires m.table[k].list[i] in m.heap && m.heap[m.table[k].list[i]].size == DEAD
    ensures var r := m.table[k].list[i];
            var bin := Bin(FileIndex.Unlinked(m.table[k].list, i), m.table[k].count - 1);
            CollectingOk(m.(heap := Freed(m.heap, r), table := m.table[k := bin]))
  {
    hide StoreOk, UsersOk, Indexed, SameNames;
    var r := m.table[k].list[i];
    ReapedStays(m, k, i);
    FreedKeepsNames(m.heap, r);
    IndexedStays(m.heap, Freed(m.heap, r), m.words, m.filters);
    BinLetsGo(Store(m.heap, m.table), m.owner.Keys, m.words, k, i);
    ReapedUsers(m, r, m.owner);
  }

  // A dead record that its owner still holds is not freed.
  lemma ReapedStays(m: Model, k: string, i: nat)
    requires StoreOk(Store(m.heap, m.table), m.owner.Keys, m.words) && k in m.table && i < |m.table[k].list|
    requires m.table[k].list[i] in m.heap
    ensures m.table[k].list[i] in m.owner ==> m.table[k].list[i] in Freed(m.heap, m.table[k].list[i])
  {
    var r, st := m.table[k].list[i], Store(m.heap, m.table);
    CounterFits(st, m.owner.Keys, m.words, r);
    assert RecordOk(st, m.owner.Keys, m.words, r) && BinOk(st, k);
    assert k in Holding(m.table, r);
  }

  lemma ReapedUsers(m: Model, r: nat, owner: map<nat, nat>)
    requires UsersOk(m.heap, owner, m.users) && r in m.heap && m.heap[r].size == DEAD
    requires r in owner ==> r in Freed(m.heap, r)
    ensures UsersOk(Freed(m.heap, r), owner, m.users)
  {
    hide UserOk, Owners, Freed;
    forall w | 0 <= w < |m.users| ensures UserOk(Freed(m.heap, r), owner, w, m.users[w]) {
      ReapedUser(m.heap, r, owner, w, m.users[w]);
    }
  }

  lemma ReapedUser(heap: map<nat, Datum>, r: nat, owner: map<nat, nat>, w: nat, user: User)
    requires UserOk(heap, owner, w, user) && r in heap && heap[r].size == DEAD
    requires r in owner ==> r in Freed(heap, r)
    ensures UserOk(Freed(heap, r), owner, w, user)
  {
    assert forall x :: x in user.files ==> EntryOk(heap, owner, w, x);
  }

  lemma CollectEnd(was: Model, m: Model, k: string, list: seq<nat>, seen: nat, i: nat)
    requires Collecting(was, m, k, list, seen, i) && i >= |m.table[k].list| && m.table[k].count == |m.table[k].list|
    ensures m.table[k].list == LiveOf(list, was.heap) && KeepsLiving(was.heap, m.heap)
    ensures DbOk(m.(table := if m.table[k].list == [] then m.table - {k} else m.table))
  {
    assert list[seen..] == [] && list[..seen] == list;
    if m.table[k].list == [] {
      EmptyBinGoes(Store(m.heap, m.table), m.owner.Keys, m.words, k);
    }
    hide StoreOk, UsersOk, LiveOf, KeepsLiving;
  }

  // Collecting does not touch a number: records that have an owner keep their sizes.
  lemma CollectBalances(m: Model, m': Model)
    requires DbOk(m) && DbOk(m') && Balanced(m) && KeepsLiving(m.heap, m'.heap)
    requires m' == m.(heap := m'.heap, table := m'.table)
    ensures Balanced(m')
  {
    hide UserOk, NoEmptyBin, Indexed, RecordOk, BinOk;
    SharesStay(m.heap, m'.heap, m.owner, m.users);
  }

  lemma EmptyBinGoes(st: Store, owned: set<nat>, words: Words, k: string)
    requires StoreOk(st, owned, words) && k in st.table && st.table[k].list == []
    ensures StoreOk(st.(table := st.table - {k}), owned, words)
  {
    var st' := st.(table := st.table - {k});
    forall r | r in st'.heap ensures RecordOk(st', owned, words, r) {
      assert RecordOk(st, owned, words, r);
      assert Holding(st'.table, r) == Holding(st.table, r);
    }
    forall b | b in st'.table ensures BinOk(st', b) {
      assert BinOk(st, b);
    }
  }

  // With no dead entry left in any bin, the only references are the owners'.
  lemma AllDeadGone(m: Model, table: map<string, Bin>, heap: map<nat, Datum>)
    requires DbOk(m) && m.table == Swept(table, heap) && KeepsLiving(heap, m.heap)
    ensures m.heap.Keys == m.owner.Keys
  {
    var st := Store(m.heap, m.table);
    forall r | r in m.heap ensures r in m.owner {
      assert RecordOk(st, m.owner.Keys, m.words, r);
      if r !in m.owner {
        assert Holding(st.table, r) != {};
        var k :| k in Holding(st.table, r);
        OnlyLiving(table[k].list, heap, r);
      }
    }
  }

  lemma {:induction false} OnlyLiving(list: seq<nat>, heap: map<nat, Datum>, r: nat)
    ensures r in LiveOf(list, heap) <==> r in list && Living(heap, r)
  {
    if list != [] {
      OnlyLiving(list[..|list| - 1], heap, r);
      assert list == list[..|list| - 1] + [list[|list| - 1]];
    }
  }
}
