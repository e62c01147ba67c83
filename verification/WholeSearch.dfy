/** search.c as a whole: a request is read, looked up in a server's files and printed for the peers;
    they do the same; what they find comes back. Nothing that was asked for is missing. */
module WholeSearch {
  import opened Options
  import opened Tokens
  import opened Arguments
  import opened QueryText
  import opened QueryForwarding
  import opened QueryMeaning
  import opened FileIndex
  import opened FileDb
  import opened FileSearch
  import opened PendingSearches
  import opened Orientation
  import opened SearchCluster
  import T = SearchTree
  import L = SearchLifetimes

  // A result: a record and the server that holds it.
  datatype Found = Found(server: nat, file: Datum)

  // Who shares a file; port 0 is somebody behind a firewall.
  datatype Owner = Owner(nick: string, port: int, speed: int)

  // Each server's word filter and Max_Search_Results, and what it knows of the owners of its files and
  // of the port of whoever searches.
  datatype World = World(
    filters: seq<Filter>,
    caps: seq<int>,
    owner: (nat, Datum) -> Owner,
    port: (nat, string) -> int)

  // The user does not get his own files, nor anything from behind a firewall when he is behind one.
  predicate Meets(w: World, x: nat, nick: string, d: Datum) {
    w.owner(x, d).nick != nick && !(w.port(x, nick) == 0 && w.owner(x, d).port == 0)
  }

  // --- search_internal on one server ------------------------------------------------------------

  function FileOf(w: World, x: nat, d: Datum): File {
    File(d.filename, d.kind, BIT_RATES[d.bitrate], SAMPLE_RATES[d.frequency], w.owner(x, d).speed)
  }

  predicate InRanges(q: Query, f: File) {
    q.kind == f.kind && Accepts(q.bitrate, f.bitrate) && Accepts(q.freq, f.freq) && Accepts(q.speed, f.speed)
  }

  // search_callback()
  function Picks(w: World, x: nat, nick: string, q: Query): Callback {
    (d: Datum) => Meets(w, x, nick, d) && InRanges(q, FileOf(w, x, d))
  }

  function FoundIn(x: nat, heap: map<nat, Datum>, list: seq<nat>): (r: seq<Found>)
    requires forall i :: 0 <= i < |list| ==> list[i] in heap
    ensures |r| == |list| && forall i :: 0 <= i < |r| ==> r[i] == Found(x, heap[list[i]])
  {
    seq(|list|, i requires 0 <= i < |list| => Found(x, heap[list[i]]))
  }

  // What is found, and the request for the peers: for the results still missing.
  function AnswerWith(x: nat, heap: map<nat, Datum>, q: Query, list: seq<nat>): Answer<Found>
    requires q.kind < 6 && forall i :: 0 <= i < |list| ==> list[i] in heap
  {
    Searched(q.limit, q.local, FoundIn(x, heap, list), Line(RequestItems(q.limit - |list|, q)))
  }

  ghost predicate AnsweredFrom(w: World, x: nat, m: Model, nick: string, q: Query, a: Answer<Found>, all: seq<nat>) {
    && q.kind < 6 && Bracketed(m, q.tokens, Picks(w, x, nick, q), all)
    && (forall i :: 0 <= i < |all| ==> all[i] in m.heap)
    && a == AnswerWith(x, m.heap, q, Limited(all, q.limit))
  }

  ghost predicate AnswersQuery(w: World, x: nat, m: Model, nick: string, q: Query, a: Answer<Found>) {
    exists all: seq<nat> :: AnsweredFrom(w, x, m, nick, q, a, all)
  }

  function ReadBy(w: World, x: nat, user: bool, text: string): QueryText.Outcome
    requires x < |w.caps| == |w.filters|
  {
    Read(AllArgs(Some(text)), Fresh(w.caps[x]), Setup(w.caps[x], user, w.filters[x]))
  }

  // The answer of server x, whose files are m, to a request.
  ghost predicate Answers(w: World, x: nat, user: bool, m: Model, nick: string, text: string, a: Answer<Found>)
    requires x < |w.caps| == |w.filters|
  {
    match ReadBy(w, x, user, text)
    case Asked(q) => AnswersQuery(w, x, m, nick, q, a)
    case _ => a == Refused
  }

  lemma BracketedIsThere(m: Model, tokens: seq<string>, cb: Callback, all: seq<nat>)
    requires Bracketed(m, tokens, cb, all)
    ensures forall i :: 0 <= i < |all| ==> all[i] in m.heap
  {
    forall i | 0 <= i < |all| ensures all[i] in m.heap {
      assert Hit(m.heap, tokens, cb, all[i]);
    }
  }

  // A living file of the server that the request accepts: not of a kind, rate or speed it excludes.
  ghost predicate Accepted(w: World, x: nat, m: Model, nick: string, q: Query, r: nat) {
    && r in m.heap && m.heap[r].size != DEAD
    && w.owner(x, m.heap[r]).nick != nick && (w.port(x, nick) != 0 || w.owner(x, m.heap[r]).port != 0)
    && m.heap[r].kind == q.kind
    && q.bitrate.min <= BIT_RATES[m.heap[r].bitrate] <= q.bitrate.max
    && q.freq.min <= SAMPLE_RATES[m.heap[r].frequency] <= q.freq.max
    && q.speed.min <= w.owner(x, m.heap[r]).speed <= q.speed.max
  }

  // A result the server may give: an accepted file of its own whose name contains all words.
  ghost predicate May(w: World, x: nat, m: Model, nick: string, q: Query, h: Found, r: nat) {
    && Accepted(w, x, m, nick, q, r) && h == Found(x, m.heap[r])
    && forall t <- q.tokens :: t != "" && Occurs(h.file.filename, t)
  }

  // One that it must give while the limit is not reached: its name is indexed under all words.
  ghost predicate Must(w: World, x: nat, m: Model, nick: string, q: Query, r: nat) {
    && Accepted(w, x, m, nick, q, r) && r in m.filters && q.tokens != [] && "" !in q.tokens
    && forall t <- q.tokens :: t in IndexWords(m.heap[r].filename, m.filters[r])
  }

  // What a server gives; a limit that is not positive is none.
  ghost predicate Gives(w: World, x: nat, m: Model, nick: string, q: Query, hits: seq<Found>) {
    && (q.limit > 0 ==> |hits| <= q.limit)
    && (forall h <- hits :: exists r :: May(w, x, m, nick, q, h, r))
    && (q.limit <= 0 || |hits| < q.limit ==> forall r :: Must(w, x, m, nick, q, r) ==> Found(x, m.heap[r]) in hits)
  }

  lemma AcceptedIsPicked(w: World, x: nat, m: Model, nick: string, q: Query, r: nat)
    ensures Accepted(w, x, m, nick, q, r) <==> Living(m.heap, r) && Picks(w, x, nick, q)(m.heap[r])
  {}

  // The answer to a request that is understood.
  lemma AnswerGives(w: World, x: nat, user: bool, m: Model, nick: string, text: string, q: Query, a: Answer<Found>)
    requires x < |w.caps| == |w.filters| && ReadBy(w, x, user, text) == Asked(q) && Answers(w, x, user, m, nick, text, a)
    ensures a.Searched? && a.maxResults == q.limit && a.localOnly == q.local && Gives(w, x, m, nick, q, a.hits)
    ensures w.caps[x] > 0 && q.limit > 0 ==> |a.hits| <= w.caps[x]
  {
    hide ReadBy, Picks, Accepted, IndexWords, Line, RequestItems;
    var all: seq<nat> :| AnsweredFrom(w, x, m, nick, q, a, all);
    var cb := Picks(w, x, nick, q);
    FrontIs(m, q.tokens, cb, all, q.limit);
    var hits := Limited(all, q.limit);
    forall h | h in a.hits ensures exists r :: May(w, x, m, nick, q, h, r) {
      var i :| 0 <= i < |hits| && a.hits[i] == h;
      assert Hit(m.heap, q.tokens, cb, hits[i]);
      AcceptedIsPicked(w, x, m, nick, q, hits[i]);
      assert May(w, x, m, nick, q, h, hits[i]);
    }
    if q.limit <= 0 || |a.hits| < q.limit {
      forall r | Must(w, x, m, nick, q, r) ensures r in m.heap && Found(x, m.heap[r]) in a.hits {
        AcceptedIsPicked(w, x, m, nick, q, r);
        assert Wanted(m, q.tokens, cb, r);
        var i :| 0 <= i < |hits| && hits[i] == r;
        assert a.hits[i] == Found(x, m.heap[r]);
      }
    }
    WithinCap(w, x, user, text, q);
  }

  lemma WithinCap(w: World, x: nat, user: bool, text: string, q: Query)
    requires x < |w.caps| == |w.filters| && ReadBy(w, x, user, text) == Asked(q)
    ensures w.caps[x] > 0 ==> q.limit <= w.caps[x]
  {
    hide Read, AllArgs, Written;
    var how := Setup(w.caps[x], user, w.filters[x]);
    var terms := ReadIsWritten(AllArgs(Some(text)), how, QueryText.Fresh(w.caps[x]));
    LimitIs(AllArgs(Some(text)), terms, how);
  }

  // With a limit that is not positive the answer is everything, so it stays within Max_Search_Results
  // if and only if there is no more.
  lemma CappedIff(w: World, x: nat, user: bool, m: Model, nick: string, text: string, q: Query, a: Answer<Found>, all: seq<nat>)
    requires x < |w.caps| == |w.filters| && ReadBy(w, x, user, text) == Asked(q) && w.caps[x] > 0
    requires AnsweredFrom(w, x, m, nick, q, a, all)
    ensures |a.hits| <= w.caps[x] <==> q.limit > 0 || |all| <= w.caps[x]
  {
    hide ReadBy, Picks, Line, RequestItems, Bracketed;
    WithinCap(w, x, user, text, q);
  }

  // Reading the request, fdb_search() and generate_request() together give such an answer.
  method LookUp(db: Database, w: World, x: nat, user: bool, nick: string, text: string) returns (a: Answer<Found>)
    requires db.Valid() && x < |w.caps| == |w.filters|
    ensures Answers(w, x, user, db.All(), nick, text, a)
    ensures a.Searched? <==> ReadBy(w, x, user, text).Asked?
    ensures a.Searched? ==> var q := ReadBy(w, x, user, text).query;
      && a.maxResults == q.limit && a.localOnly == q.local && Gives(w, x, db.All(), nick, q, a.hits)
      && (w.caps[x] > 0 && q.limit > 0 ==> |a.hits| <= w.caps[x])
  {
    hide DbOk, Read, AllArgs, Line, Bracketed, RequestItems, Picks, WellMade, FoundIn, Gives, Wanted, Hit;
    var how := Setup(w.caps[x], user, w.filters[x]);
    var r := ReadRequest(text, how);
    if !r.Asked? {
      return Refused;
    }
    var q := r.query;
    KindIsKnown(w, x, user, text);
    var hits := Search(db, q.tokens, q.limit, Picks(w, x, nick, q));
    ghost var all: seq<nat> :| Bracketed(db.All(), q.tokens, Picks(w, x, nick, q), all) && hits == Limited(all, q.limit);
    BracketedIsThere(db.All(), q.tokens, Picks(w, x, nick, q), all);
    var request := GenerateRequest(q.limit - |hits|, q.tokens, q);
    a := Searched(q.limit, q.local, FoundIn(x, db.heap, hits), request);
    assert AnsweredFrom(w, x, db.All(), nick, q, a, all);
    AnswerGives(w, x, user, db.All(), nick, text, q, a);
  }

  // A query for mp3 files of exactly these rates by somebody who may get a file of this owner, for words
  // it is indexed under.
  ghost predicate AsksFor(w: World, x: nat, nick: string, q: Query, d: Datum, words: seq<string>, bitrate: int, frequency: int) {
    && q.kind == 0 && q.bitrate == Range(bitrate, bitrate) && q.freq == Range(frequency, frequency)
    && q.speed.min <= w.owner(x, d).speed <= q.speed.max
    && w.owner(x, d).nick != nick && (w.port(x, nick) != 0 || w.owner(x, d).port != 0)
    && q.tokens != [] && "" !in q.tokens && forall t <- q.tokens :: t in words
  }

  lemma SharedIsFound(w: World, x: nat, m: Model, nick: string, q: Query, hits: seq<Found>, r: nat, bitrate: int, frequency: int)
    requires Gives(w, x, m, nick, q, hits) && (q.limit <= 0 || |hits| < q.limit) && r in m.heap && r in m.filters
    requires m.heap[r].kind == 0 && (BIT_RATES[m.heap[r].bitrate] == bitrate <==> bitrate in BIT_RATES)
    requires SAMPLE_RATES[m.heap[r].frequency] == frequency <==> frequency in SAMPLE_RATES && frequency != 22050
    requires AsksFor(w, x, nick, q, m.heap[r], IndexWords(m.heap[r].filename, m.filters[r]), bitrate, frequency)
    ensures Found(x, m.heap[r]) in hits <==>
              bitrate in BIT_RATES && frequency in SAMPLE_RATES && frequency != 22050 && m.heap[r].size != 0xffff_ffff
  {
    hide IndexWords;
    if Found(x, m.heap[r]) in hits {
      var r' :| May(w, x, m, nick, q, Found(x, m.heap[r]), r');
    }
    if m.heap[r].size != 0xffff_ffff && BIT_RATES[m.heap[r].bitrate] == bitrate
       && SAMPLE_RATES[m.heap[r].frequency] == frequency {
      assert Must(w, x, m, nick, q, r);
    }
  }

  // Somebody shares a file, and a request for some of its words and exactly its rates is looked up at
  // once, with room for all results. The file is found if and only if both rates are allowed ones, the
  // sample rate is not the one the table has out of place, and the size does not look like a dead
  // record's.
  method ShareAndLookUp(db: Database, u: nat, filename: string, gap: nat, number: nat, bitrate: int, frequency: int, r: nat,
                        w: World, x: nat, user: bool, nick: string, text: string)
    returns (o: FileDb.Outcome, a: Answer<Found>)
    requires db.Valid() && u < |db.users| && db.users[u].local && db.users[u].online && r !in db.heap
    requires x < |w.caps| == |w.filters|
    modifies db
    ensures db.Valid() && (o.Done? ==> r in db.heap) && (a.Searched? <==> ReadBy(w, x, user, text).Asked?)
    ensures o.Done? && a.Searched? ==> var q := ReadBy(w, x, user, text).query;
      AsksFor(w, x, nick, q, db.heap[r], IndexWords(filename, db.filter), bitrate, frequency)
      && (q.limit <= 0 || |a.hits| < q.limit) ==>
        (Found(x, db.heap[r]) in a.hits <==>
           bitrate in BIT_RATES && frequency in SAMPLE_RATES && frequency != 22050 && number % 0x1_0000_0000 != 0xffff_ffff)
  {
    hide ReadBy, Answers, IndexWords, IsMask, WithFile, DbOk, Balanced, Gives, AsksFor;
    o := db.AddFile(u, filename, gap, number, bitrate, frequency, r);
    a := LookUp(db, w, x, user, nick, text);
    if o.Done? && a.Searched? {
      ghost var q := ReadBy(w, x, user, text).query;
      if AsksFor(w, x, nick, q, db.heap[r], IndexWords(filename, db.filter), bitrate, frequency)
         && (q.limit <= 0 || |a.hits| < q.limit) {
        SharedIsFound(w, x, db.All(), nick, q, a.hits, r, bitrate, frequency);
      }
    }
  }

  lemma KindIsKnown(w: World, x: nat, user: bool, text: string)
    requires x < |w.caps| == |w.filters| && ReadBy(w, x, user, text).Asked?
    ensures WellMade(ReadBy(w, x, user, text).query, w.filters[x]) && ReadBy(w, x, user, text).query.kind < 6
  {
    hide Read, AllArgs, QueryForwarding.IsToken;
    ReadIsWellMade(AllArgs(Some(text)), Fresh(w.caps[x]), Setup(w.caps[x], user, w.filters[x]));
  }

  // A peer is asked for exactly the results that are missing, or for as many as it gives anybody.
  lemma MissingIsAsked(w: World, x: nat, user: bool, m: Model, nick: string, text: string, q: Query, a: Answer<Found>, y: nat)
    requires x < |w.caps| == |w.filters| && y < |w.caps| && ReadBy(w, x, user, text) == Asked(q)
    requires Answers(w, x, user, m, nick, text, a) && IsInt(q.limit) && |HitsOf(a)| < q.limit
    ensures a.Searched? && ReadBy(w, y, false, a.request).Asked?
    ensures var missing, next := q.limit - |a.hits|, ReadBy(w, y, false, a.request).query;
      && next.limit == (if w.caps[y] > 0 && missing > w.caps[y] then w.caps[y] else missing)
      && next.kind == q.kind && !next.local
  {
    hide Read, AllArgs, Line, RequestItems, WellMade, Worded, Bracketed, Picks;
    KindIsKnown(w, x, user, text);
    WellMadeIsWorded(q, w.filters[x]);
    ForwardedIs(q.limit - |HitsOf(a)|, q, Setup(w.caps[y], false, w.filters[y]));
  }

  // --- Requests on their way -----------------------------------------------------------------------

  // s accepts every value of the attribute that r accepts.
  ghost predicate Wider(r: Range, s: Range, hardmax: int) {
    forall v :: 0 <= v <= hardmax && Accepts(r, v) ==> Accepts(s, v)
  }

  predicate Filters(w: World, x: nat, t: string) { x < |w.filters| && w.filters[x](t) }

  // A word that no server filters.
  predicate Unfiltered(w: World, t: string) { forall x :: 0 <= x < |w.filters| ==> !w.filters[x](t) }

  // q asks for everything that q0 asks for, and for no less than the words that no server filters.
  ghost predicate Descends(w: World, q0: Query, q: Query) {
    && (forall t <- q.tokens :: t in q0.tokens)
    && (forall t <- q0.tokens :: t != "" && Unfiltered(w, t) ==> t in q.tokens)
    && q.kind == q0.kind && !q.local
    && Wider(q0.bitrate, q.bitrate, MAX_BITRATE) && Wider(q0.freq, q.freq, MAX_FREQUENCY)
    && Wider(q0.speed, q.speed, MAX_SPEED)
  }

  lemma HopDescends(w: World, q0: Query, q: Query, results: int, x: nat)
    requires x < |w.caps| == |w.filters| && Descends(w, q0, q) && Worded(q)
    ensures var how := Setup(w.caps[x], false, w.filters[x]);
      Descends(w, q0, Hop(q, results, how)) && WellMade(Hop(q, results, how), w.filters[x])
  {
    hide QueryForwarding.IsToken, WordLike, Tokenized, Joined, Reread, Accepts, Ints;
    HopIsWellMade(q, results, Setup(w.caps[x], false, w.filters[x]));
    WordsSeen(q.tokens, w.filters[x]);
    RangeForwarded(q.bitrate, MAX_BITRATE);
    RangeForwarded(q.freq, MAX_FREQUENCY);
    RangeForwarded(q.speed, MAX_SPEED);
  }

  // A search: who asks, under which id, with which text, how it is read; and a number of results
  // that is not reached.
  datatype Quest = Quest(nick: string, id: string, text: string, q: Query, bound: int)

  ghost predicate WorldOk(w: World, s: Quest, n: nat) {
    && |w.caps| == |w.filters| == n && forall x :: 0 <= x < n ==> IsInt(w.caps[x]) && (w.caps[x] <= 0 || w.caps[x] >= s.bound)
  }

  // The request is not confined to one server, and at least one of its words is filtered by none.
  ghost predicate QuestOk(w: World, s: Quest) {
    !s.q.local && s.q.limit >= s.bound && exists t <- s.q.tokens :: Unfiltered(w, t)
  }

  ghost predicate Prints(w: World, s: Quest, text: string, made: nat, q: Query, results: int) {
    && Worded(q) && Descends(w, s.q, q)
    && IsInt(results) && results >= s.bound - made && text == Line(RequestItems(results, q))
  }

  // A request that asks for all the quest asks for, and for as many results as may still be made.
  ghost predicate TextOk(w: World, s: Quest, text: string, made: nat) {
    exists q: Query, results: int :: Prints(w, s, text, made, q, results)
  }

  ghost predicate RequestOk(w: World, s: Quest, msg: Msg<Found>, made: nat) {
    msg.RemoteSearch? && msg.id == s.id ==> msg.nick == s.nick && TextOk(w, s, msg.request, made)
  }

  // A file of server x the quest must not miss: all its words that x does not filter are among those
  // the file is indexed under.
  ghost predicate Sought(w: World, s: Quest, x: nat, m: Model, r: nat) {
    && Living(m.heap, r) && Picks(w, x, s.nick, s.q)(m.heap[r]) && Real(FileOf(w, x, m.heap[r])) && r in m.filters
    && "" !in s.q.tokens
    && forall t <- s.q.tokens :: !Filters(w, x, t) ==> t in IndexWords(m.heap[r].filename, m.filters[r])
  }

  ghost predicate Complete(w: World, s: Quest, x: nat, m: Model, made: seq<Found>) {
    forall r :: Sought(w, s, x, m, r) ==> Found(x, m.heap[r]) in made
  }

  // A result server x may give: a living file of its that the quest's callback accepts and whose name
  // contains every word of the quest that no server filters.
  ghost predicate Fair(w: World, s: Quest, x: nat, m: Model, h: Found) {
    && h.server == x && Meets(w, x, s.nick, h.file) && h.file.kind == s.q.kind
    && (forall t <- s.q.tokens :: t != "" && Unfiltered(w, t) ==> Occurs(h.file.filename, t))
    && exists r :: Living(m.heap, r) && m.heap[r] == h.file
  }

  ghost predicate AllFair(w: World, s: Quest, x: nat, m: Model, hits: seq<Found>) {
    forall h <- hits :: Fair(w, s, x, m, h)
  }

  lemma MoreMade(w: World, s: Quest, x: nat, m: Model, made: seq<Found>, more: seq<Found>)
    requires Complete(w, s, x, m, made) || Complete(w, s, x, m, more)
    ensures Complete(w, s, x, m, made + more)
  {
    hide Sought;
  }

  lemma LaterRequest(w: World, s: Quest, msg: Msg<Found>, made: nat, more: nat)
    requires RequestOk(w, s, msg, made)
    ensures RequestOk(w, s, msg, made + more)
  {
    hide Worded, Descends, Line, RequestItems;
    if msg.RemoteSearch? && msg.id == s.id {
      var q: Query, results: int :| Prints(w, s, msg.request, made, q, results);
      assert Prints(w, s, msg.request, made + more, q, results);
    }
  }

  // What a query that descends from the quest's accepts.
  lemma PicksMeans(w: World, x: nat, nick: string, q: Query, d: Datum)
    ensures Picks(w, x, nick, q)(d) <==> Meets(w, x, nick, d) && InRanges(q, FileOf(w, x, d))
  {}

  lemma SoughtIsWanted(w: World, s: Quest, x: nat, m: Model, q: Query, r: nat)
    requires x < |w.filters| && Descends(w, s.q, q) && QuestOk(w, s) && WellMade(q, w.filters[x]) && Sought(w, s, x, m, r)
    ensures Wanted(m, q.tokens, Picks(w, x, s.nick, q), r)
  {
    hide IndexWords;
    PicksMeans(w, x, s.nick, s.q, m.heap[r]);
    PicksMeans(w, x, s.nick, q, m.heap[r]);
    var f := FileOf(w, x, m.heap[r]);
    var t0 :| t0 in s.q.tokens && Unfiltered(w, t0);
    assert t0 in q.tokens;
    forall t | t in q.tokens ensures t in IndexWords(m.heap[r].filename, m.filters[r]) {
      assert QueryForwarding.IsToken(t, w.filters[x]);
    }
    assert Accepts(s.q.bitrate, f.bitrate) && Accepts(s.q.freq, f.freq) && Accepts(s.q.speed, f.speed);
  }

  // A server that has read a query which descends from the quest's answers in full, asks its peers,
  // and asks them well.
  lemma Served(w: World, s: Quest, x: nat, m: Model, q: Query, made: nat, a: Answer<Found>)
    requires x < |w.filters| && QuestOk(w, s)
    requires Descends(w, s.q, q) && WellMade(q, w.filters[x]) && IsInt(q.limit) && q.limit >= s.bound - made
    requires AnswersQuery(w, x, m, s.nick, q, a) && made + |HitsOf(a)| < s.bound
    ensures a.Searched? && |a.hits| < a.maxResults && !a.localOnly
    ensures TextOk(w, s, a.request, made + |a.hits|)
    ensures Complete(w, s, x, m, a.hits) && AllFair(w, s, x, m, a.hits)
  {
    hide Descends, WellMade, Worded, Line, RequestItems, Bracketed, Picks, Sought, Wanted, Fair, QuestOk;
    WellMadeIsWorded(q, w.filters[x]);
    var all: seq<nat> :| AnsweredFrom(w, x, m, s.nick, q, a, all);
    assert Limited(all, q.limit) == all;
    assert !q.local by { NotLocal(w, s.q, q); }
    assert Prints(w, s, a.request, made + |a.hits|, q, q.limit - |all|);
    forall r: nat | Sought(w, s, x, m, r) ensures r in m.heap && Found(x, m.heap[r]) in a.hits {
      SoughtIsWanted(w, s, x, m, q, r);
      WantedIsIn(m, q.tokens, Picks(w, x, s.nick, q), all, r);
      var i :| 0 <= i < |all| && all[i] == r;
      assert a.hits[i] == Found(x, m.heap[r]);
    }
    forall h | h in a.hits ensures Fair(w, s, x, m, h) {
      var i :| 0 <= i < |all| && a.hits[i] == h;
      AnsweredIsFair(w, s, x, m, q, all, i);
    }
  }

  lemma AnsweredIsFair(w: World, s: Quest, x: nat, m: Model, q: Query, all: seq<nat>, i: nat)
    requires Descends(w, s.q, q) && Bracketed(m, q.tokens, Picks(w, x, s.nick, q), all) && i < |all| && all[i] in m.heap
    ensures Fair(w, s, x, m, Found(x, m.heap[all[i]]))
  {
    assert Hit(m.heap, q.tokens, Picks(w, x, s.nick, q), all[i]);
    PicksMeans(w, x, s.nick, q, m.heap[all[i]]);
  }

  lemma NotLocal(w: World, q0: Query, q: Query)
    requires Descends(w, q0, q)
    ensures !q.local
  {}

  lemma WantedIsIn(m: Model, tokens: seq<string>, cb: Callback, all: seq<nat>, r: nat)
    requires Bracketed(m, tokens, cb, all) && Wanted(m, tokens, cb, r)
    ensures r in all
  {}

  lemma {:induction false} ReadLimit(args: seq<string>, q: Query, how: Setup)
    requires IsInt(q.limit) && IsInt(how.cap)
    ensures Read(args, q, how).Asked? ==> IsInt(Read(args, q, how).query.limit)
    decreases |args|
  {
    hide IntArg, TokensFrom, Tokenized, ClauseOf, KindOf, Compared;
    if args != [] {
      var c := ClauseOf(args[0]);
      if c == FileName {
        if |args| >= 3 {
          ReadLimit(args[3..], q.(tokens := q.tokens + Tokenized(args[2], how.filter)), how);
        }
      } else if c == MaxResults {
        if |args| >= 2 && IntArg(args[1]).Some? {
          ReadLimit(args[2..], q.(limit := Capped(IntArg(args[1]).value, how.cap)), how);
        }
      } else if c == Type {
        if |args| >= 2 && KindOf(args[1], 0).Some? {
          ReadLimit(args[2..], q.(kind := KindOf(args[1], 0).value), how);
        }
      } else if c == Local {
        ReadLimit(args[1..], q.(local := true), how);
      } else if c != Unknown && |args| >= 3 && IntArg(args[2]).Some? {
        var r := Compared(args[1], IntArg(args[2]).value, RangeOf(q, c), how.user);
        if r.Some? {
          ReadLimit(args[3..], WithRange(q, c, r.value), how);
        }
      }
    }
  }

  lemma LimitIsInt(w: World, x: nat, text: string)
    requires x < |w.caps| == |w.filters| && IsInt(w.caps[x]) && ReadBy(w, x, true, text).Asked?
    ensures IsInt(ReadBy(w, x, true, text).query.limit)
  {
    hide Read, AllArgs;
    ReadLimit(AllArgs(Some(text)), Fresh(w.caps[x]), Setup(w.caps[x], true, w.filters[x]));
  }

  // The server of the user.
  lemma OriginServes(w: World, s: Quest, x: nat, m: Model, a: Answer<Found>)
    requires QuestOk(w, s) && x < |w.caps| == |w.filters| && IsInt(w.caps[x]) && ReadBy(w, x, true, s.text) == Asked(s.q)
    requires Answers(w, x, true, m, s.nick, s.text, a) && |HitsOf(a)| < s.bound
    ensures a.Searched? && |a.hits| < a.maxResults && !a.localOnly
    ensures TextOk(w, s, a.request, |a.hits|) && Complete(w, s, x, m, a.hits) && AllFair(w, s, x, m, a.hits)
  {
    hide WellMade, AnswersQuery, Complete, AllFair, TextOk, ReadBy;
    KindIsKnown(w, x, true, s.text);
    LimitIsInt(w, x, s.text);
    assert Descends(w, s.q, s.q) by { DescendsItself(w, s); }
    Served(w, s, x, m, s.q, 0, a);
  }

  lemma DescendsItself(w: World, s: Quest)
    requires QuestOk(w, s)
    ensures Descends(w, s.q, s.q)
  {}

  // A server that is asked by a peer.
  lemma PeerServes(w: World, s: Quest, n: nat, x: nat, m: Model, text: string, made: nat, a: Answer<Found>)
    requires WorldOk(w, s, n) && QuestOk(w, s) && x < n && TextOk(w, s, text, made)
    requires Answers(w, x, false, m, s.nick, text, a) && made + |HitsOf(a)| < s.bound
    ensures a.Searched? && |a.hits| < a.maxResults && !a.localOnly
    ensures TextOk(w, s, a.request, made + |a.hits|) && Complete(w, s, x, m, a.hits) && AllFair(w, s, x, m, a.hits)
  {
    hide WellMade, Worded, AnswersQuery, Complete, AllFair, Descends, Line, RequestItems, Read, AllArgs, QuestOk;
    var q: Query, results: int :| Prints(w, s, text, made, q, results);
    var how := Setup(w.caps[x], false, w.filters[x]);
    ForwardedIs(results, q, how);
    HopDescends(w, s.q, q, results, x);
    assert ReadBy(w, x, false, text) == Asked(Hop(q, results, how));
    Served(w, s, x, m, Hop(q, results, how), made, a);
  }

  // --- Every server is asked ----------------------------------------------------------------------

  // The request has come to server x and has been taken off its link.
  predicate Reached<H>(t: T.Tree, v: T.State<H>, x: nat)
    requires T.Shaped(t, v) && x < T.Size(t)
  {
    x == t.root || (v.asks[x] == 1 && v.down[x] == [])
  }

  // Whoever has been reached has asked everybody behind, but for those who were deaf to it.
  ghost predicate Spread<H>(t: T.Tree, v: T.State<H>, deaf: set<nat>)
    requires T.Shaped(t, v)
  {
    forall x: nat, z: nat :: x < T.Size(t) && T.Kid(t, x, z) && Reached(t, v, x) && x !in deaf ==> v.asks[z] == 1
  }

  lemma {:induction false} NoKids(t: T.Tree, x: nat, z: nat, k: nat)
    requires k <= T.Size(t) && T.Kids(t, x, k) == 0 && z < k
    ensures !T.Kid(t, x, z)
  {
    if z < k - 1 {
      NoKids(t, x, z, k - 1);
    }
  }

  lemma SpreadStarts<H>(t: T.Tree, hits: seq<H>, forward: bool)
    requires T.IsTree(t) && (forward || T.Kids(t, t.root, T.Size(t)) == 0)
    ensures T.Shaped(t, T.Start(t, hits, forward)) && Spread(t, T.Start(t, hits, forward), {})
    ensures forall x :: 0 <= x < T.Size(t) && Reached(t, T.Start(t, hits, forward), x) ==> x == t.root
  {
    var v := T.Start(t, hits, forward);
    forall x: nat, z: nat | x < T.Size(t) && T.Kid(t, x, z) && Reached(t, v, x) ensures v.asks[z] == 1 {
      if !forward {
        NoKids(t, x, z, T.Size(t));
      }
    }
  }

  lemma MoveChanges<H>(t: T.Tree, v: T.State<H>, tm: T.Move<H>, z: nat)
    requires T.Inv(t, v) && T.Enabled(t, v, tm) && z < T.Size(t)
    ensures var v' := T.Apply(t, v, tm);
            var kid := tm.TakeAsk? && tm.forward && T.Kid(t, tm.y, z);
      && T.Shaped(t, v')
      && v'.asks[z] == v.asks[z] + (if kid then 1 else 0)
      && v'.down[z] == if tm.TakeAsk? && z == tm.y then [] else if kid then v.down[z] + [T.Ask] else v.down[z]
  {
    NoGrandparentLoop(t, tm.y);
    if tm.TakeAsk? {
      T.NobodyBelowIsAsked(t, v, tm.y);
    }
    hide T.Inv, T.Kids, T.Hits;
  }

  lemma SpreadMoves<H>(t: T.Tree, v: T.State<H>, tm: T.Move<H>, deaf: set<nat>, deafNow: set<nat>)
    requires T.Inv(t, v) && T.Enabled(t, v, tm) && Spread(t, v, deaf) && deaf <= deafNow
    requires tm.TakeAsk? ==> tm.forward || T.Kids(t, tm.y, T.Size(t)) == 0 || tm.y in deafNow
    ensures var v' := T.Apply(t, v, tm);
      && T.Shaped(t, v') && Spread(t, v', deafNow)
      && forall x :: 0 <= x < T.Size(t) && Reached(t, v', x) ==> Reached(t, v, x) || (tm.TakeAsk? && x == tm.y)
  {
    hide T.Inv, T.Apply, T.Kids;
    InvIsShaped(t, v);
    var v' := T.Apply(t, v, tm);
    MoveChanges(t, v, tm, t.root);
    forall x | 0 <= x < T.Size(t) && Reached(t, v', x) ensures Reached(t, v, x) || (tm.TakeAsk? && x == tm.y) {
      MoveChanges(t, v, tm, x);
    }
    forall x: nat, z: nat | x < T.Size(t) && T.Kid(t, x, z) && Reached(t, v', x) && x !in deafNow ensures v'.asks[z] == 1 {
      MoveChanges(t, v, tm, x);
      MoveChanges(t, v, tm, z);
      if tm.TakeAsk? && x == tm.y {
        if tm.forward {
          T.NobodyBelowIsAsked(t, v, tm.y);
        } else {
          NoKids(t, x, z, T.Size(t));
        }
      }
    }
  }

  // Nobody between the origin and x is deaf; x may be.
  ghost predicate Audible(t: T.Tree, deaf: set<nat>, x: nat)
    requires T.IsTree(t) && x < T.Size(t)
  {
    forall y :: 0 <= y < T.Size(t) && y != x && T.Below(t, y, x) ==> y !in deaf
  }

  // Once the origin has nothing to wait for, the request has come to every server but those behind
  // a deaf one.
  lemma {:induction false} AllReached<H>(t: T.Tree, v: T.State<H>, deaf: set<nat>, x: nat)
    requires T.Inv(t, v) && Spread(t, v, deaf) && v.entry[t.root].None? && x < T.Size(t) && Audible(t, deaf, x)
    ensures Reached(t, v, x)
    decreases t.depth[x]
  {
    if x != t.root {
      var p := t.parent[x];
      assert T.Kid(t, p, x) && T.Below(t, p, x);
      forall y | 0 <= y < T.Size(t) && T.Below(t, y, p) ensures y != x && T.Below(t, y, x) {
        T.BelowDeeper(t, y, p);
      }
      AllReached(t, v, deaf, p);
      T.EverybodyIsBelow(t, x);
      T.BranchIsSettled(t, v, t.root, x);
    }
  }

  // --- What a server sends -----------------------------------------------------------------------

  lemma {:induction false} AddressedIn<H>(sent: seq<Packet<H>>, con: Con, msg: Msg<H>)
    requires msg in AddressedTo(sent, con)
    ensures exists p :: p in sent && p.msg == msg
  {
    if sent[0].to == con && sent[0].msg == msg {
      assert sent[0] in sent;
    } else {
      AddressedIn(sent[1..], con, msg);
      var p :| p in sent[1..] && p.msg == msg;
      assert p in sent;
    }
  }

  // The request a move makes its server send, if any.
  predicate Asks<H>(msg: Msg<H>, m: NetMove<H>) {
    m.answer.Searched? && (m.Begin? || (msg.RemoteSearch? && m.nickKnown))
  }

  function Request<H>(msg: Msg<H>, m: NetMove<H>): Msg<H>
    requires Asks(msg, m)
  {
    RemoteSearch(if m.Begin? then m.nick else msg.nick, MoveId(m, msg), m.answer.request)
  }

  lemma SearchSends<H>(table: seq<DSearch>, servers: seq<Con>, con: Con, nick: string, id: string, now: int, a: Answer<H>)
    ensures forall p :: p in OnSearch(table, servers, con, nick, id, now, a).sent && p.msg.RemoteSearch? ==>
              a.Searched? && p.msg == RemoteSearch(nick, id, a.request)
  {
    if a.Searched? {
      L.PassMessageSends<H>(servers, con, RemoteSearch(nick, id, a.request));
    }
  }

  lemma ReplySends<H>(servers: seq<Con>, timeout: int, table: seq<DSearch>, msg: Msg<H>, m: NetMove<H>)
    requires Ready(servers, timeout, table, msg, m)
    ensures forall p :: p in Handler(servers, timeout, table, msg, m).sent && p.msg.RemoteSearch? ==>
              Asks(msg, m) && p.msg == Request(msg, m)
  {
    match m
    case Begin(_, client, nick, id, answer, now) =>
      SearchSends(table, servers, Client(client), nick, id, now, answer);
    case Take(_, y, _, _, answer, now) =>
      match msg
      case RemoteSearch(nick, id, _) => SearchSends(table, servers, Peer(y), nick, id, now, answer);
      case RemoteResult(id, _) => NothingStale<H>(table, id, now, timeout);
      case RemoteEnd(id) => NothingStale<H>(table, id, now, timeout);
  }

  // --- One move of the cluster ----------------------------------------------------------------------

  // The server that moves answers the quest from its files.
  ghost predicate HonestMove(w: World, s: Quest, net: Net<Found>, m: NetMove<Found>, files: Model)
    requires m.x < |w.caps| == |w.filters|
  {
    var msg := Taken(net, m);
    MoveId(m, msg) == s.id ==>
      if m.Begin? then
        m.nick == s.nick && ReadBy(w, m.x, true, s.text) == Asked(s.q) && Answers(w, m.x, true, files, s.nick, s.text, m.answer)
      else
        msg.RemoteSearch? && m.nickKnown ==> Answers(w, m.x, false, files, msg.nick, msg.request, m.answer)
  }

  // The server that moves is asked for a user it does not know.
  predicate Deaf(s: Quest, net: Net<Found>, m: NetMove<Found>) {
    m.Take? && Taken(net, m).RemoteSearch? && Taken(net, m).id == s.id && !m.nickKnown
  }

  // The move looks the quest up in the files of server x.
  predicate LooksUp(s: Quest, net: Net<Found>, m: NetMove<Found>, x: nat) {
    m.x == x && MoveId(m, Taken(net, m)) == s.id && (m.Begin? || (Taken(net, m).RemoteSearch? && m.nickKnown))
  }

  ghost predicate LinksOk(c: Cluster, w: World, s: Quest, net: Net<Found>, made: nat)
    requires ShapedNet(c, net)
  {
    forall a, b, msg :: 0 <= a < T.Size(c.tree) && 0 <= b < T.Size(c.tree) && msg in net.link[a][b] ==> RequestOk(w, s, msg, made)
  }

  ghost predicate SpreadIn(c: Cluster, net: Net<Found>, id: string, deaf: set<nat>)
    requires ShapedNet(c, net) && id in net.log
  {
    Spread(TreeOf(c, net, id), View(TreeOf(c, net, id), net, id), deaf)
  }

  ghost predicate ReachedIn(c: Cluster, net: Net<Found>, id: string, x: nat)
    requires ShapedNet(c, net) && id in net.log && x < T.Size(c.tree)
  {
    Reached(TreeOf(c, net, id), View(TreeOf(c, net, id), net, id), x)
  }

  // What is new on the links after a move.
  lemma NewOnLink(c: Cluster, net: Net<Found>, m: NetMove<Found>, a: nat, b: nat, msg: Msg<Found>)
    requires Sound(c, net) && CanDo(c, net, m) && a < T.Size(c.tree) && b < T.Size(c.tree)
    requires msg in Do(c, net, m).link[a][b] && msg.RemoteSearch?
    ensures msg in net.link[a][b] || (Asks(Taken(net, m), m) && msg == Request(Taken(net, m), m))
  {
    hide Sound, CanDo, ReplyOf, LinkNext, LogNext, Taken, Handler, Ready, ShapedNet, AddressedTo;
    DoesLink(c, net, m, a, b);
    LinkHolds(c, net, m, a, b);
    if msg !in net.link[a][b] {
      MoveIsReady(c, net, m);
      ReplyIsHandler(c, net, m);
      ReplySends(c.servers[m.x], c.timeout, net.table[m.x], Taken(net, m), m);
      AddressedIn(ReplyOf(c, net, m).sent, Peer(b), msg);
    }
  }

  lemma DoesLink(c: Cluster, net: Net<Found>, m: NetMove<Found>, a: nat, b: nat)
    requires CanDo(c, net, m) && a < T.Size(c.tree) && b < T.Size(c.tree)
    ensures |net.link| == T.Size(c.tree) && |net.link[a]| == T.Size(c.tree)
    ensures Do(c, net, m).link == LinkNext(c, net, m, ReplyOf(c, net, m))
  {
    hide ReplyOf, LinkNext, LogNext;
  }

  lemma ReplyIsHandler(c: Cluster, net: Net<Found>, m: NetMove<Found>)
    requires CanDo(c, net, m)
    ensures m.x < |c.servers| && m.x < |net.table|
    ensures ReplyOf(c, net, m) == Handler(c.servers[m.x], c.timeout, net.table[m.x], Taken(net, m), m)
  {
    hide Handler, Taken;
  }

  // What a move adds to the results made.
  lemma MadeAfter(c: Cluster, net: Net<Found>, m: NetMove<Found>, id: string)
    requires Sound(c, net) && CanDo(c, net, m) && id in Do(c, net, m).log
    ensures var was, now := if id in net.log then net.log[id].made else [], Do(c, net, m).log[id].made;
      now == was + (if MoveId(m, Taken(net, m)) == id then MadeBy(Taken(net, m), m) else [])
    ensures id !in net.log ==> m.Begin? && m.id == id
  {
    hide ReplyOf, LinkNext, MadeBy, StraysBy, OutTo, ToUser;
  }

  lemma MadeGrows(c: Cluster, net: Net<Found>, m: NetMove<Found>, id: string)
    requires Sound(c, net) && CanDo(c, net, m) && id in net.log
    ensures net.log[id].made <= Do(c, net, m).log[id].made
  {
    hide Sound, CanDo, Do;
    MadeAfter(c, net, m, id);
  }

  // --- A move keeps what is on the links right, and spreads the request ------------------------------

  // The kids of a server are its peers but the one above it.
  lemma KidsOfPeers(c: Cluster, net: Net<Found>, id: string, x: nat)
    requires ShapedNet(c, net) && id in net.log && x < T.Size(c.tree)
    ensures x < |c.servers|
    ensures |c.servers[x]| == T.Kids(TreeOf(c, net, id), x, T.Size(c.tree)) + (if x == TreeOf(c, net, id).root then 0 else 1)
  {
    PeersInTree(c, net, id, x);
    PeersAreCounted(TreeOf(c, net, id), x, c.servers[x]);
  }

  lemma BeginLinksOk(c: Cluster, w: World, s: Quest, net: Net<Found>, m: NetMove<Found>, made: nat)
    requires Sound(c, net) && CanDo(c, net, m) && m.Begin? && m.id == s.id && m.nick == s.nick
    requires m.answer.Searched? && TextOk(w, s, m.answer.request, made)
    ensures LinksOk(c, w, s, Do(c, net, m), made)
  {
    hide Sound, Do, TextOk, Taken;
    var net' := Do(c, net, m);
    forall a, b, msg | 0 <= a < T.Size(c.tree) && 0 <= b < T.Size(c.tree) && msg in net'.link[a][b]
      ensures RequestOk(w, s, msg, made)
    {
      if msg.RemoteSearch? {
        NewOnLink(c, net, m, a, b, msg);
        LinkIsSound(c, net, a, b);
      }
    }
  }

  lemma BeginStep(c: Cluster, w: World, s: Quest, net: Net<Found>, m: NetMove<Found>, files: Model)
    requires Sound(c, net) && CanDo(c, net, m) && m.Begin? && m.id == s.id
    requires WorldOk(w, s, T.Size(c.tree)) && QuestOk(w, s) && HonestMove(w, s, net, m, files)
    requires |Do(c, net, m).log[s.id].made| < s.bound
    ensures var net' := Do(c, net, m);
      && LinksOk(c, w, s, net', |net'.log[s.id].made|) && SpreadIn(c, net', s.id, {})
      && (forall x :: 0 <= x < T.Size(c.tree) && ReachedIn(c, net', s.id, x) ==> x == m.x)
      && Complete(w, s, m.x, files, net'.log[s.id].made) && AllFair(w, s, m.x, files, net'.log[s.id].made)
  {
    hide Sound, Do, TextOk, Complete, AllFair, Answers, ReadBy, LinksOk, View, Spread, Reached, T.Start, T.Kids, T.Inv, Reroot, Taken;
    MadeAfter(c, net, m, s.id);
    assert Do(c, net, m).log[s.id].made == HitsOf(m.answer);
    OriginServes(w, s, m.x, files, m.answer);
    BeginLinksOk(c, w, s, net, m, |m.answer.hits|);
    NewTree(c, net, m);
    BeginStarts(c, net, m);
    KidsOfPeers(c, Do(c, net, m), s.id, m.x);
    SpreadStarts(Reroot(c.tree, m.x), m.answer.hits, AsksOthers(c.servers[m.x], Client(m.client), m.answer));
  }

  lemma TakeLinksOk(c: Cluster, w: World, s: Quest, net: Net<Found>, m: NetMove<Found>, made: nat, more: nat)
    requires Sound(c, net) && CanDo(c, net, m) && s.id in net.log && LinksOk(c, w, s, net, made)
    requires Asks(Taken(net, m), m) ==> RequestOk(w, s, Request(Taken(net, m), m), made + more)
    ensures LinksOk(c, w, s, Do(c, net, m), made + more)
  {
    hide Sound, CanDo, Do, RequestOk, Taken, Asks, Request;
    SoundIsShaped(c, net);
    var net' := Do(c, net, m);
    forall a, b, msg | 0 <= a < T.Size(c.tree) && 0 <= b < T.Size(c.tree) && msg in net'.link[a][b]
      ensures RequestOk(w, s, msg, made + more)
    {
      if msg.RemoteSearch? {
        NewOnLink(c, net, m, a, b, msg);
        if msg in net.link[a][b] {
          LaterRequest(w, s, msg, made, more);
        }
      } else {
        OnlyRequests(w, s, msg, made + more);
      }
    }
  }

  lemma OnlyRequests(w: World, s: Quest, msg: Msg<Found>, made: nat)
    requires !msg.RemoteSearch? || msg.id != s.id
    ensures RequestOk(w, s, msg, made)
  {}

  // What the server of a peer does with the quest.
  lemma TakeServes(c: Cluster, w: World, s: Quest, net: Net<Found>, m: NetMove<Found>, files: Model)
    requires Sound(c, net) && CanDo(c, net, m) && m.Take? && Taken(net, m).RemoteSearch? && Taken(net, m).id == s.id
    requires WorldOk(w, s, T.Size(c.tree)) && QuestOk(w, s) && HonestMove(w, s, net, m, files) && m.nickKnown
    requires s.id in net.log && LinksOk(c, w, s, net, |net.log[s.id].made|)
    requires |net.log[s.id].made| + |HitsOf(m.answer)| < s.bound
    ensures m.answer.Searched? && |m.answer.hits| < m.answer.maxResults && !m.answer.localOnly
    ensures Asks(Taken(net, m), m)
    ensures RequestOk(w, s, Request(Taken(net, m), m), |net.log[s.id].made| + |m.answer.hits|)
    ensures Complete(w, s, m.x, files, m.answer.hits) && AllFair(w, s, m.x, files, m.answer.hits)
  {
    hide Sound, TextOk, Complete, AllFair, Answers, QuestOk;
    var msg := Taken(net, m);
    assert msg in net.link[m.y][m.x];
    assert RequestOk(w, s, msg, |net.log[s.id].made|);
    PeerServes(w, s, T.Size(c.tree), m.x, files, msg.request, |net.log[s.id].made|, m.answer);
  }

  // It asks its peers whenever it has any but the one that asked it.
  lemma TakeForwards(c: Cluster, net: Net<Found>, m: NetMove<Found>)
    requires Sound(c, net) && CanDo(c, net, m) && m.Take? && Taken(net, m).RemoteSearch?
    requires m.nickKnown && m.answer.Searched? && |m.answer.hits| < m.answer.maxResults && !m.answer.localOnly
    ensures var t := TreeOf(c, net, IdOf(Taken(net, m)));
      TreeMove(c, net, m).TakeAsk? && TreeMove(c, net, m).y == m.x
      && (TreeMove(c, net, m).forward || T.Kids(t, m.x, T.Size(t)) == 0)
  {
    hide Sound, View, T.Kids, T.Inv;
    WhereItComesFrom(c, net, m);
    KidsOfPeers(c, net, IdOf(Taken(net, m)), m.x);
  }

  lemma TakeSpreads(c: Cluster, net: Net<Found>, m: NetMove<Found>, id: string, deaf: set<nat>, deafNow: set<nat>)
    requires Sound(c, net) && CanDo(c, net, m) && m.Take? && IdOf(Taken(net, m)) == id && id in net.log
    requires SpreadIn(c, net, id, deaf) && deaf <= deafNow
    requires var t, tm := TreeOf(c, net, id), TreeMove(c, net, m);
      tm.TakeAsk? ==> tm.forward || T.Kids(t, tm.y, T.Size(t)) == 0 || tm.y in deafNow
    ensures SpreadIn(c, Do(c, net, m), id, deafNow)
    ensures forall x :: 0 <= x < T.Size(c.tree) && ReachedIn(c, Do(c, net, m), id, x) ==>
              ReachedIn(c, net, id, x) || (TreeMove(c, net, m).TakeAsk? && x == TreeMove(c, net, m).y)
  {
    hide Sound, Do, View, TreeOf, TreeMove, T.Inv, T.Enabled, T.Apply, T.Kids, Spread, Reached, Taken, CanDo;
    SoundIsShaped(c, net);
    OldTree(c, net, m, id);
    MoveSimulates(c, net, m);
    SpreadMoves(TreeOf(c, net, id), Before(c, net, m), TreeMove(c, net, m), deaf, deafNow);
  }

  lemma TakeStep(c: Cluster, w: World, s: Quest, net: Net<Found>, m: NetMove<Found>, files: Model, deaf: set<nat>)
    requires Sound(c, net) && CanDo(c, net, m) && m.Take? && IdOf(Taken(net, m)) == s.id && s.id in net.log
    requires WorldOk(w, s, T.Size(c.tree)) && QuestOk(w, s) && HonestMove(w, s, net, m, files)
    requires LinksOk(c, w, s, net, |net.log[s.id].made|) && SpreadIn(c, net, s.id, deaf)
    requires |Do(c, net, m).log[s.id].made| < s.bound
    ensures var net', deafNow := Do(c, net, m), deaf + (if Deaf(s, net, m) then {m.x} else {});
      && LinksOk(c, w, s, net', |net'.log[s.id].made|) && SpreadIn(c, net', s.id, deafNow)
      && (forall x :: 0 <= x < T.Size(c.tree) && ReachedIn(c, net', s.id, x) ==>
            ReachedIn(c, net, s.id, x) || (LooksUp(s, net, m, x) && Complete(w, s, x, files, net'.log[s.id].made)) || x in deafNow)
      && (forall h <- net'.log[s.id].made :: h in net.log[s.id].made || (LooksUp(s, net, m, m.x) && Fair(w, s, m.x, files, h)))
  {
    hide Sound, Do, Complete, Fair, LinksOk, SpreadIn, ReachedIn, View, TreeOf, HonestMove, RequestOk, T.Kids, IsCluster, QuestOk;
    SoundIsShaped(c, net);
    MadeAfter(c, net, m, s.id);
    var made, msg := net.log[s.id].made, Taken(net, m);
    if msg.RemoteSearch? && m.nickKnown {
      TakeServes(c, w, s, net, m, files);
      TakeForwards(c, net, m);
      TakeLinksOk(c, w, s, net, m, |made|, |m.answer.hits|);
      MoreMade(w, s, m.x, files, made, m.answer.hits);
    } else {
      TakeLinksOk(c, w, s, net, m, |made|, 0);
      assert made + [] == made;
    }
    TakeSpreads(c, net, m, s.id, deaf, deaf + (if Deaf(s, net, m) then {m.x} else {}));
  }

  lemma OtherStep(c: Cluster, w: World, s: Quest, net: Net<Found>, m: NetMove<Found>, deaf: set<nat>)
    requires Sound(c, net) && CanDo(c, net, m) && MoveId(m, Taken(net, m)) != s.id && s.id in net.log
    requires LinksOk(c, w, s, net, |net.log[s.id].made|) && SpreadIn(c, net, s.id, deaf)
    ensures var net' := Do(c, net, m);
      && net'.log[s.id].made == net.log[s.id].made
      && LinksOk(c, w, s, net', |net'.log[s.id].made|) && SpreadIn(c, net', s.id, deaf)
      && (forall x :: 0 <= x < T.Size(c.tree) ==> (ReachedIn(c, net', s.id, x) <==> ReachedIn(c, net, s.id, x)))
  {
    hide Sound, Do, LinksOk, View, TreeOf, CanDo, Taken, Spread, Reached;
    SoundIsShaped(c, net);
    MadeAfter(c, net, m, s.id);
    var made := net.log[s.id].made;
    assert made + [] == made;
    if Asks(Taken(net, m), m) {
      OnlyRequests(w, s, Request(Taken(net, m), m), |made|);
    }
    TakeLinksOk(c, w, s, net, m, |made|, 0);
    OldTree(c, net, m, s.id);
    OtherView(c, net, m, s.id);
  }

  // --- Whole runs ------------------------------------------------------------------------------------

  // files[j] are the files, at that moment, of the server that makes move j.
  ghost predicate HonestRun(w: World, s: Quest, moves: seq<NetMove<Found>>, nets: seq<Net<Found>>, files: seq<Model>) {
    && |files| == |moves| && |nets| == |moves| + 1
    && forall j :: 0 <= j < |moves| ==> moves[j].x < |w.caps| == |w.filters| && HonestMove(w, s, nets[j], moves[j], files[j])
  }

  // The servers that were asked, in the first i moves, for a user they do not know.
  function DeafBy(s: Quest, moves: seq<NetMove<Found>>, nets: seq<Net<Found>>, i: nat): set<nat>
    requires i <= |moves| <= |nets|
  {
    if i == 0 then {}
    else DeafBy(s, moves, nets, i - 1) + (if Deaf(s, nets[i - 1], moves[i - 1]) then {moves[i - 1].x} else {})
  }

  // One of the first i moves has looked the quest up at server x, and all it must not miss has been made.
  ghost predicate LookedUp(w: World, s: Quest, moves: seq<NetMove<Found>>, nets: seq<Net<Found>>, files: seq<Model>, i: nat,
                           x: nat, made: seq<Found>)
    requires i <= |moves| == |files| && |nets| == |moves| + 1
  {
    exists j :: 0 <= j < i && LooksUp(s, nets[j], moves[j], x) && Complete(w, s, x, files[j], made)
  }

  // One of the first i moves has looked the quest up at the server of a result, which may give it.
  ghost predicate Given(w: World, s: Quest, moves: seq<NetMove<Found>>, nets: seq<Net<Found>>, files: seq<Model>, i: nat, h: Found)
    requires i <= |moves| == |files| && |nets| == |moves| + 1
  {
    exists j :: 0 <= j < i && LooksUp(s, nets[j], moves[j], h.server) && Fair(w, s, h.server, files[j], h)
  }

  lemma GivenOn(w: World, s: Quest, moves: seq<NetMove<Found>>, nets: seq<Net<Found>>, files: seq<Model>, i: nat, h: Found)
    requires i < |moves| == |files| && |nets| == |moves| + 1
    requires Given(w, s, moves, nets, files, i, h)
          || (LooksUp(s, nets[i], moves[i], moves[i].x) && Fair(w, s, moves[i].x, files[i], h))
    ensures Given(w, s, moves, nets, files, i + 1, h)
  {
    hide LooksUp;
  }

  lemma LookedUpOn(w: World, s: Quest, moves: seq<NetMove<Found>>, nets: seq<Net<Found>>, files: seq<Model>, i: nat, x: nat,
                   made: seq<Found>, now: seq<Found>)
    requires i < |moves| == |files| && |nets| == |moves| + 1 && made <= now
    requires LookedUp(w, s, moves, nets, files, i, x, made)
    ensures LookedUp(w, s, moves, nets, files, i + 1, x, now)
  {
    hide Complete, LooksUp;
    var j :| 0 <= j < i && LooksUp(s, nets[j], moves[j], x) && Complete(w, s, x, files[j], made);
    assert now == made + now[|made|..];
    MoreMade(w, s, x, files[j], made, now[|made|..]);
  }

  lemma LookedUpNow(w: World, s: Quest, moves: seq<NetMove<Found>>, nets: seq<Net<Found>>, files: seq<Model>, i: nat, x: nat,
                    made: seq<Found>)
    requires i < |moves| == |files| && |nets| == |moves| + 1
    requires LooksUp(s, nets[i], moves[i], x) && Complete(w, s, x, files[i], made)
    ensures LookedUp(w, s, moves, nets, files, i + 1, x, made)
  {
    hide Complete, LooksUp;
  }

  ghost predicate Reaches(c: Cluster, w: World, s: Quest, moves: seq<NetMove<Found>>, nets: seq<Net<Found>>, files: seq<Model>,
                          i: nat)
    requires i <= |moves| == |files| && |nets| == |moves| + 1
    requires ShapedNet(c, nets[i]) && s.id in nets[i].log
  {
    var made := nets[i].log[s.id].made;
    && LinksOk(c, w, s, nets[i], |made|) && SpreadIn(c, nets[i], s.id, DeafBy(s, moves, nets, i))
    && (forall x :: 0 <= x < T.Size(c.tree) && ReachedIn(c, nets[i], s.id, x) ==>
          LookedUp(w, s, moves, nets, files, i, x, made) || x in DeafBy(s, moves, nets, i))
    && forall h <- made :: Given(w, s, moves, nets, files, i, h)
  }

  lemma ReachesBegins(c: Cluster, w: World, s: Quest, moves: seq<NetMove<Found>>, nets: seq<Net<Found>>, files: seq<Model>, i: nat)
    requires HonestRun(w, s, moves, nets, files) && i < |moves| && Sound(c, nets[i]) && CanDo(c, nets[i], moves[i])
    requires nets[i + 1] == Do(c, nets[i], moves[i]) && WorldOk(w, s, T.Size(c.tree)) && QuestOk(w, s)
    requires moves[i].Begin? && moves[i].id == s.id && |nets[i + 1].log[s.id].made| < s.bound
    ensures Reaches(c, w, s, moves, nets, files, i + 1)
  {
    hide Sound, CanDo, Do, HonestMove, Complete, Fair, LinksOk, SpreadIn, ReachedIn, LookedUp, Given, QuestOk;
    BeginStep(c, w, s, nets[i], moves[i], files[i]);
    var made := nets[i + 1].log[s.id].made;
    forall h | h in made ensures Given(w, s, moves, nets, files, i + 1, h) {
      GivenOn(w, s, moves, nets, files, i, h);
    }
    LookedUpNow(w, s, moves, nets, files, i, moves[i].x, nets[i + 1].log[s.id].made);
    SpreadMore(c, nets[i + 1], s.id, DeafBy(s, moves, nets, i + 1));
  }

  lemma SpreadMore(c: Cluster, net: Net<Found>, id: string, deaf: set<nat>)
    requires ShapedNet(c, net) && id in net.log && SpreadIn(c, net, id, {})
    ensures SpreadIn(c, net, id, deaf)
  {
    hide IsCluster, View, TreeOf, SameLinks;
  }

  lemma ReachesOn(c: Cluster, w: World, s: Quest, moves: seq<NetMove<Found>>, nets: seq<Net<Found>>, files: seq<Model>, i: nat)
    requires HonestRun(w, s, moves, nets, files) && i < |moves| && Sound(c, nets[i]) && CanDo(c, nets[i], moves[i])
    requires nets[i + 1] == Do(c, nets[i], moves[i]) && WorldOk(w, s, T.Size(c.tree)) && s.id in nets[i].log
    requires QuestOk(w, s) && Reaches(c, w, s, moves, nets, files, i) && |nets[i + 1].log[s.id].made| < s.bound
    ensures Reaches(c, w, s, moves, nets, files, i + 1)
  {
    hide Sound, CanDo, Do, HonestMove, Complete, Fair, LinksOk, SpreadIn, ReachedIn, LookedUp, LooksUp, Given, WorldOk, QuestOk, Deaf, Taken;
    var net, m, net' := nets[i], moves[i], nets[i + 1];
    var deaf := DeafBy(s, moves, nets, i);
    assert DeafBy(s, moves, nets, i + 1) == deaf + (if Deaf(s, net, m) then {m.x} else {});
    SoundIsShaped(c, net);
    MadeGrows(c, net, m, s.id);
    if MoveId(m, Taken(net, m)) == s.id {
      OldTree(c, net, m, s.id);
      TakeStep(c, w, s, net, m, files[i], deaf);
    } else {
      OtherStep(c, w, s, net, m, deaf);
      if Deaf(s, net, m) {
        DeafIsAbout(s, net, m);
      }
      assert deaf + {} == deaf;
    }
    forall x | 0 <= x < T.Size(c.tree) && ReachedIn(c, net', s.id, x) && x !in DeafBy(s, moves, nets, i + 1)
      ensures LookedUp(w, s, moves, nets, files, i + 1, x, net'.log[s.id].made)
    {
      if ReachedIn(c, net, s.id, x) {
        LookedUpOn(w, s, moves, nets, files, i, x, net.log[s.id].made, net'.log[s.id].made);
      } else {
        LookedUpNow(w, s, moves, nets, files, i, x, net'.log[s.id].made);
      }
    }
    forall h | h in net'.log[s.id].made ensures Given(w, s, moves, nets, files, i + 1, h) {
      GivenOn(w, s, moves, nets, files, i, h);
    }
  }

  lemma DeafIsAbout(s: Quest, net: Net<Found>, m: NetMove<Found>)
    requires Deaf(s, net, m)
    ensures MoveId(m, Taken(net, m)) == s.id
  {}

  lemma {:induction false} RunReaches(c: Cluster, w: World, s: Quest, moves: seq<NetMove<Found>>, nets: seq<Net<Found>>,
                                      files: seq<Model>, i: nat)
    requires Runs(c, moves, nets) && HonestRun(w, s, moves, nets, files) && i <= |moves| && ShapedNet(c, nets[i])
    requires WorldOk(w, s, T.Size(c.tree)) && QuestOk(w, s) && s.id in nets[i].log && |nets[i].log[s.id].made| < s.bound
    ensures Reaches(c, w, s, moves, nets, files, i)
    decreases i
  {
    hide Runs, Sound, CanDo, Do, HonestRun, Reaches, WorldOk, QuestOk, Taken;
    RunStep(c, moves, nets, i);
    HonestLengths(w, s, moves, nets, files);
    var net, m := nets[i - 1], moves[i - 1];
    MoveIsAboutSomething(c, net, m);
    if s.id in net.log {
      MadeGrows(c, net, m, s.id);
      RunReaches(c, w, s, moves, nets, files, i - 1);
      ReachesOn(c, w, s, moves, nets, files, i - 1);
    } else {
      ReachesBegins(c, w, s, moves, nets, files, i - 1);
    }
  }

  lemma HonestLengths(w: World, s: Quest, moves: seq<NetMove<Found>>, nets: seq<Net<Found>>, files: seq<Model>)
    requires HonestRun(w, s, moves, nets, files)
    ensures |files| == |moves| && |nets| == |moves| + 1
  {}

  // --- Counting what the user was told --------------------------------------------------------------

  lemma {:induction false} CountIs<A>(xs: seq<A>, x: A)
    ensures T.Count(xs, x) == multiset(xs)[x]
  {
    if xs != [] {
      CountIs(xs[1..], x);
      assert xs == [xs[0]] + xs[1..];
    }
  }

  // The results among the messages.
  function Results<H>(msgs: seq<T.Message<H>>): (r: seq<H>)
    requires T.OnlyHits(msgs)
    ensures |r| == |msgs| && T.Hits(r) == msgs
  {
    var r := seq(|msgs|, i requires 0 <= i < |msgs| => msgs[i].hit);
    assert forall i :: 0 <= i < |msgs| ==> T.Hits(r)[i] == msgs[i];
    r
  }

  lemma CountTold<H>(user: seq<T.Message<H>>, h: H)
    requires T.HitsThenEnd(user)
    ensures T.Count(user, T.Hit(h)) == T.Count(Results(user[..|user| - 1]), h)
  {
    var front := user[..|user| - 1];
    assert user == front + [T.End];
    T.CountBoth(front, [T.End], T.Hit(h));
    T.EndIsNoHit(h);
    T.CountHits(Results(front), h);
  }

  // A user is told one message per result that was made and did not go astray, and the end.
  lemma MadeIsTold<H>(made: seq<H>, user: seq<T.Message<H>>, strays: seq<H>)
    requires T.HitsThenEnd(user) && forall h :: T.Count(made, h) == T.Count(user, T.Hit(h)) + T.Count(strays, h)
    ensures |made| == |user| - 1 + |strays|
    ensures forall h :: h in made <==> T.Hit(h) in user || h in strays
  {
    hide T.Count, T.HitsThenEnd;
    EndIsThere(user);
    var told := Results(user[..|user| - 1]);
    forall h ensures multiset(made)[h] == multiset(told + strays)[h] {
      CountTold(user, h);
      CountIs(made, h);
      CountIs(told, h);
      CountIs(strays, h);
    }
    SameCounts(made, told + strays);
    forall h ensures h in made <==> T.Hit(h) in user || h in strays {
      ToldIsTold(user, h);
    }
  }

  lemma EndIsThere<H>(user: seq<T.Message<H>>)
    requires T.HitsThenEnd(user)
    ensures user != [] && T.OnlyHits(user[..|user| - 1])
  {}

  lemma SameCounts<A>(xs: seq<A>, ys: seq<A>)
    requires forall x :: multiset(xs)[x] == multiset(ys)[x]
    ensures |xs| == |ys| && forall x :: x in xs <==> x in ys
  {
    assert multiset(xs) == multiset(ys);
    assert |multiset(xs)| == |xs| && |multiset(ys)| == |ys|;
    forall x ensures x in xs <==> x in ys {
      assert x in xs <==> x in multiset(xs);
      assert x in ys <==> x in multiset(ys);
    }
  }

  lemma ToldIsTold<H>(user: seq<T.Message<H>>, h: H)
    requires T.HitsThenEnd(user)
    ensures T.Hit(h) in user <==> h in Results(user[..|user| - 1])
  {
    var front := user[..|user| - 1];
    assert T.Hits(Results(front)) == front;
    if h in Results(front) {
      var i :| 0 <= i < |front| && Results(front)[i] == h;
      assert front[i] == T.Hit(h) && user[i] == front[i];
    }
    if T.Hit(h) in user {
      var i :| 0 <= i < |user| && user[i] == T.Hit(h);
      assert front[i] == T.Hit(h);
    }
  }

  // --- Nothing is missed ------------------------------------------------------------------------------

  // No server on the path from the user to server x, x included, was asked for a user it does not know.
  ghost predicate Heard(c: Cluster, s: Quest, moves: seq<NetMove<Found>>, nets: seq<Net<Found>>, i: nat, x: nat)
    requires i <= |moves| < |nets| && ShapedNet(c, nets[i]) && s.id in nets[i].log && x < T.Size(c.tree)
  {
    x !in DeafBy(s, moves, nets, i) && Audible(TreeOf(c, nets[i], s.id), DeafBy(s, moves, nets, i), x)
  }

  ghost predicate IsTold(log: Log<Found>, h: Found) {
    T.Hit(h) in log.user || h in log.strays
  }

  // When the user of a search is told its end, and has been told fewer results than the search and
  // each server allow, every server of the cluster has looked the request up, and every living file
  // there whose indexed words include all its tokens, and which the request accepts, has been told,
  // but for those whose owner the user's server did not know. Nothing else has been told than living
  // files of these servers whose names contain the words of the request.
  lemma NothingIsMissed(c: Cluster, w: World, s: Quest, moves: seq<NetMove<Found>>, nets: seq<Net<Found>>, files: seq<Model>,
                        i: nat, x: nat) returns (j: nat)
    requires Runs(c, moves, nets) && HonestRun(w, s, moves, nets, files) && i <= |moves| && ShapedNet(c, nets[i])
    requires WorldOk(w, s, T.Size(c.tree)) && QuestOk(w, s) && x < T.Size(c.tree)
    requires s.id in nets[i].log && T.End in nets[i].log[s.id].user
    requires |nets[i].log[s.id].user| + |nets[i].log[s.id].strays| <= s.bound && Heard(c, s, moves, nets, i, x)
    ensures j < i && LooksUp(s, nets[j], moves[j], x)
    ensures forall r :: Sought(w, s, x, files[j], r) ==> IsTold(nets[i].log[s.id], Found(x, files[j].heap[r]))
    ensures forall h :: IsTold(nets[i].log[s.id], h) ==> Given(w, s, moves, nets, files, i, h)
  {
    hide Given, Heard, Runs, ShapedNet, HonestRun, WorldOk, QuestOk, LinksOk, SpreadIn, Sought, LooksUp, Settled, T.HitsThenEnd, T.Count;
    HonestLengths(w, s, moves, nets, files);
    var log := nets[i].log[s.id];
    EndIsFinal(c, moves, nets, i, s.id);
    MadeIsTold(log.made, log.user, log.strays);
    RunReaches(c, w, s, moves, nets, files, i);
    AllReachedIn(c, w, s, moves, nets, files, i, x);
    j :| 0 <= j < i && LooksUp(s, nets[j], moves[j], x) && Complete(w, s, x, files[j], log.made);
  }

  lemma AllReachedIn(c: Cluster, w: World, s: Quest, moves: seq<NetMove<Found>>, nets: seq<Net<Found>>, files: seq<Model>,
                     i: nat, x: nat)
    requires Runs(c, moves, nets) && i <= |moves| == |files| && |nets| == |moves| + 1
    requires ShapedNet(c, nets[i]) && x < T.Size(c.tree)
    requires s.id in nets[i].log && T.End in nets[i].log[s.id].user && Reaches(c, w, s, moves, nets, files, i)
    requires Heard(c, s, moves, nets, i, x)
    ensures LookedUp(w, s, moves, nets, files, i, x, nets[i].log[s.id].made)
  {
    hide Runs, IsCluster, LinksOk, LookedUp, View, Reached, Spread, T.Inv, Settled, T.HitsThenEnd, T.Count, SameLinks;
    RunIsSound(c, moves, nets, i);
    EndIsFinal(c, moves, nets, i, s.id);
    var t := TreeOf(c, nets[i], s.id);
    ViewIs(c, nets[i], s.id);
    AllReached(t, View(t, nets[i], s.id), DeafBy(s, moves, nets, i), x);
  }

  lemma ViewIs(c: Cluster, net: Net<Found>, id: string)
    requires Sound(c, net) && ShapedNet(c, net) && id in net.log && Settled(c, net, id)
    ensures var t := TreeOf(c, net, id); T.Inv(t, View(t, net, id)) && View(t, net, id).entry[t.root].None?
  {
    hide T.Inv, IsCluster, SameLinks, ById;
  }

  // A file that server x shares all along is told; to the user, if his server knows all owners.
  lemma KeptFileIsTold(c: Cluster, w: World, s: Quest, moves: seq<NetMove<Found>>, nets: seq<Net<Found>>, files: seq<Model>,
                       i: nat, x: nat, r: nat, d: Datum)
    requires Runs(c, moves, nets) && HonestRun(w, s, moves, nets, files) && i <= |moves| && ShapedNet(c, nets[i])
    requires WorldOk(w, s, T.Size(c.tree)) && QuestOk(w, s) && x < T.Size(c.tree)
    requires s.id in nets[i].log && T.End in nets[i].log[s.id].user
    requires |nets[i].log[s.id].user| + |nets[i].log[s.id].strays| <= s.bound && Heard(c, s, moves, nets, i, x)
    requires forall j :: 0 <= j < i && moves[j].x == x ==> Sought(w, s, x, files[j], r) && files[j].heap[r] == d
    ensures IsTold(nets[i].log[s.id], Found(x, d))
    ensures (forall j :: 0 <= j < i && moves[j].Take? ==> moves[j].userKnown) ==> T.Hit(Found(x, d)) in nets[i].log[s.id].user
  {
    hide Runs, ShapedNet, HonestRun, WorldOk, QuestOk, Sought, T.Deepest, Heard;
    var j := NothingIsMissed(c, w, s, moves, nets, files, i, x);
    SearchIsFinite(c, moves, nets, i, s.id);
  }

  // --- A request on the wire ---------------------------------------------------------------------------

  // What remote_search() makes of a packet: it is cut short, perhaps behind the id, or it goes on.
  datatype Call = Cut(partialId: Option<string>) | Call(nick: string, id: string, text: string)

  function Parsed(pkt: Option<string>): Call {
    var (nick, behind) := Next(pkt);
    var (id, rest) := Next(behind);
    if nick.None? || id.None? || rest.None? then Cut(id) else Call(nick.value, id.value, rest.value)
  }

  method ReadCall(pkt: Option<string>) returns (c: Call)
    ensures c == Parsed(pkt)
  {
    hide Next;
    var nick, behind := NextArg(pkt);
    var id, rest := NextArg(behind);
    if nick.None? || id.None? || rest.None? {
      return Cut(id);
    }
    return Call(nick.value, id.value, rest.value);
  }

  // pass_message_args (..., "%s %s %s", nick, id, request)
  function Wire(nick: string, id: string, request: string): string {
    nick + " " + id + " " + request
  }

  lemma CallComesBack(nick: string, id: string, items: seq<Item>)
    requires Printable(Word(nick)) && Printable(Word(id)) && items != [] && AllPrintable(items)
    ensures Parsed(Some(Wire(nick, id, Line(items)))) == Call(nick, id, Line(items))
  {
    hide Next, Printable, Line;
    var more := [Word(id)] + items;
    assert more[1..] == items;
    NextItem(Word(nick), more);
    NextItem(Word(id), items);
    assert Line(more) == id + (" " + Line(items)) by { LineOfWord(id, items); }
    assert Wire(nick, id, Line(items)) == nick + (" " + Line(more));
  }

  lemma LineOfWord(w: string, items: seq<Item>)
    requires items != []
    ensures Line([Word(w)] + items) == w + (" " + Line(items))
  {
    assert ([Word(w)] + items)[1..] == items;
  }

  // Eight letters, however they are drawn.
  method GenerateSearchId(random: seq<nat>) returns (id: string)
    requires |random| == 8
    ensures |id| == 8 && Printable(Word(id)) && forall i :: 0 <= i < 8 ==> id[i] == 'A' + (random[i] % 26) as char
  {
    id := "";
    for i := 0 to 8
      invariant |id| == i && forall j :: 0 <= j < i ==> id[j] == 'A' + (random[j] % 26) as char
    {
      id := id + ['A' + (random[i] % 26) as char];
    }
  }

  // In every run, whatever request of the quest is on a link is read as it was sent.
  lemma RequestsComeBack(c: Cluster, w: World, s: Quest, moves: seq<NetMove<Found>>, nets: seq<Net<Found>>,
                         files: seq<Model>, i: nat, a: nat, b: nat, msg: Msg<Found>)
    requires Runs(c, moves, nets) && HonestRun(w, s, moves, nets, files) && i <= |moves| && ShapedNet(c, nets[i])
    requires WorldOk(w, s, T.Size(c.tree)) && QuestOk(w, s) && s.id in nets[i].log && |nets[i].log[s.id].made| < s.bound
    requires a < T.Size(c.tree) && b < T.Size(c.tree) && msg in nets[i].link[a][b] && msg.RemoteSearch? && msg.id == s.id
    requires Printable(Word(s.nick)) && Printable(Word(s.id))
    ensures Parsed(Some(Wire(msg.nick, msg.id, msg.request))) == Call(msg.nick, msg.id, msg.request)
  {
    hide Runs, HonestRun, WorldOk, QuestOk, Parsed, Wire, TextOk, Printable, SpreadIn, LookedUp, Given;
    HonestLengths(w, s, moves, nets, files);
    RunReaches(c, w, s, moves, nets, files, i);
    var made := |nets[i].log[s.id].made|;
    assert RequestOk(w, s, msg, made);
    TextComesBack(w, s, msg.nick, msg.id, msg.request, made);
  }

  lemma TextComesBack(w: World, s: Quest, nick: string, id: string, text: string, made: nat)
    requires TextOk(w, s, text, made) && Printable(Word(nick)) && Printable(Word(id))
    ensures Parsed(Some(Wire(nick, id, text))) == Call(nick, id, text)
  {
    hide Parsed, Wire, Descends, Line, RequestItems, Printable, AllPrintable;
    var q: Query, results: int :| Prints(w, s, text, made, q, results);
    RequestPrints(results, q);
    CallComesBack(nick, id, RequestItems(results, q));
  }
}
