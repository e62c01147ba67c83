/** search.c: how many results a search can bring. Each request asks for what is missing, so what the
    servers on the way from the user to any server find is together no more than he asked for. */
module ResultLimits {
  import opened Arguments
  import opened QueryText
  import opened FileDb
  import opened PendingSearches
  import opened SearchCluster
  import opened WholeSearch
  import opened HomeSearch
  import T = SearchTree

  // --- Where a request comes from --------------------------------------------------------------

  // Move j has looked the search up at server a, found too little and sent this request.
  ghost predicate SentBy(s: Quest, moves: seq<NetMove<Found>>, nets: seq<Net<Found>>, j: nat, a: nat, request: string)
    requires |nets| == |moves| + 1
  {
    && j < |moves| && LooksUp(s, nets[j], moves[j], a) && moves[j].answer.Searched? && !moves[j].answer.localOnly
    && |moves[j].answer.hits| < moves[j].answer.maxResults && moves[j].answer.request == request
  }

  lemma NewRequest(c: Cluster, net: Net<Found>, m: NetMove<Found>, a: nat, b: nat, msg: Msg<Found>)
    requires Sound(c, net) && CanDo(c, net, m) && a < T.Size(c.tree) && b < T.Size(c.tree)
    requires msg in OnLink(Do(c, net, m), a, b) && msg.RemoteSearch? && msg !in OnLink(net, a, b)
    ensures a == m.x && MoveId(m, Taken(net, m)) == msg.id && (m.Begin? || (Taken(net, m).RemoteSearch? && m.nickKnown))
    ensures m.answer.Searched? && !m.answer.localOnly && |m.answer.hits| < m.answer.maxResults && m.answer.request == msg.request
  {
    hide Sound, CanDo, ReplyOf, LinkNext, LogNext, Taken, Handler, Ready, ShapedNet, AddressedTo;
    SoundIsShaped(c, net);
    DoesLink(c, net, m, a, b);
    LinkHolds(c, net, m, a, b);
    MoveIsReady(c, net, m);
    ReplyIsHandler(c, net, m);
    ReplySends(c.servers[m.x], c.timeout, net.table[m.x], Taken(net, m), m);
    AddressedIn(ReplyOf(c, net, m).sent, Peer(b), msg);
    if m.Begin? {
      BeginSays(c, net, m, b);
    } else {
      AskedSays(c, net, m, b);
    }
  }

  lemma {:induction false} RequestHasSender(c: Cluster, s: Quest, moves: seq<NetMove<Found>>, nets: seq<Net<Found>>, i: nat,
                                            a: nat, b: nat, msg: Msg<Found>) returns (j: nat)
    requires Runs(c, moves, nets) && i <= |moves| && a < T.Size(c.tree) && b < T.Size(c.tree)
    requires msg in OnLink(nets[i], a, b) && msg.RemoteSearch? && msg.id == s.id
    ensures j < i && SentBy(s, moves, nets, j, a, msg.request)
    decreases i
  {
    hide Sound, CanDo, Do, Taken, OnLink;
    if i == 0 {
      NothingAtFirst(c, nets[0], a, b);
    } else {
      RunIsSound(c, moves, nets, i - 1);
      if msg in OnLink(nets[i - 1], a, b) {
        j := RequestHasSender(c, s, moves, nets, i - 1, a, b, msg);
      } else {
        NewRequest(c, nets[i - 1], moves[i - 1], a, b, msg);
        j := i - 1;
      }
    }
  }

  lemma NothingAtFirst(c: Cluster, net: Net<Found>, a: nat, b: nat)
    requires IsCluster(c) && net == Idle(c)
    ensures OnLink(net, a, b) == []
  {}

  // --- From the user to a server -----------------------------------------------------------------

  // Moves that have handed the search on, one to the next, from the one that began it.
  ghost predicate Lineage(s: Quest, moves: seq<NetMove<Found>>, nets: seq<Net<Found>>, js: seq<nat>)
    requires |nets| == |moves| + 1
  {
    && js != [] && (forall k :: 0 <= k < |js| ==> js[k] < |moves| && LooksUp(s, nets[js[k]], moves[js[k]], moves[js[k]].x))
    && moves[js[0]].Begin? && forall k :: 0 < k < |js| ==> HandedOn(s, moves, nets, js[k - 1], js[k])
  }

  ghost predicate HandedOn(s: Quest, moves: seq<NetMove<Found>>, nets: seq<Net<Found>>, i: nat, j: nat)
    requires |nets| == |moves| + 1
  {
    && i < j < |moves| && moves[j].Take? && Taken(nets[j], moves[j]).RemoteSearch? && moves[j].nickKnown
    && SentBy(s, moves, nets, i, moves[j].y, Taken(nets[j], moves[j]).request)
  }

  // Every look-up has such a history.
  lemma {:induction false} HasLineage(c: Cluster, s: Quest, moves: seq<NetMove<Found>>, nets: seq<Net<Found>>, j: nat)
    returns (js: seq<nat>)
    requires Runs(c, moves, nets) && j < |moves| && LooksUp(s, nets[j], moves[j], moves[j].x)
    ensures Lineage(s, moves, nets, js) && js[|js| - 1] == j
    decreases j
  {
    hide CanDo, Do;
    js := [j];
    if moves[j].Take? {
      TakenIsOnLink(c, nets[j], moves[j]);
      var i := RequestHasSender(c, s, moves, nets, j, moves[j].y, moves[j].x, Taken(nets[j], moves[j]));
      var front := HasLineage(c, s, moves, nets, i);
      js := front + [j];
    }
  }

  lemma TakenIsOnLink(c: Cluster, net: Net<Found>, m: NetMove<Found>)
    requires CanDo(c, net, m) && m.Take?
    ensures m.x < T.Size(c.tree) && m.y < T.Size(c.tree) && Taken(net, m) in OnLink(net, m.y, m.x)
  {}

  function HitsAlong(moves: seq<NetMove<Found>>, js: seq<nat>): nat {
    if js == [] then 0
    else
      var front := HitsAlong(moves, js[..|js| - 1]);
      if js[|js| - 1] < |moves| then front + |HitsOf(moves[js[|js| - 1]].answer)| else front
  }

  // The text the server of a move reads, and for whom.
  function TextOf(s: Quest, net: Net<Found>, m: NetMove<Found>): string {
    if m.Take? && Taken(net, m).RemoteSearch? then Taken(net, m).request else s.text
  }

  function NickOf(s: Quest, net: Net<Found>, m: NetMove<Found>): string {
    if m.Take? && Taken(net, m).RemoteSearch? then Taken(net, m).nick else s.nick
  }

  // What it makes of the text, and that its answer keeps to it.
  ghost predicate Reads(w: World, s: Quest, net: Net<Found>, m: NetMove<Found>, q: Query)
    requires m.x < |w.caps| == |w.filters|
  {
    && ReadBy(w, m.x, m.Begin?, TextOf(s, net, m)) == Asked(q) && IsInt(q.limit)
    && 0 < q.limit && |HitsOf(m.answer)| <= q.limit
  }

  lemma HonestAnswers(w: World, s: Quest, net: Net<Found>, m: NetMove<Found>, files: Model)
    requires m.x < |w.caps| == |w.filters| && LooksUp(s, net, m, m.x) && HonestMove(w, s, net, m, files)
    ensures Answers(w, m.x, m.Begin?, files, NickOf(s, net, m), TextOf(s, net, m), m.answer)
    ensures m.Begin? ==> ReadBy(w, m.x, true, s.text) == Asked(s.q)
  {
    hide ReadBy, Answers, Taken;
  }

  // One hop: the next server is asked for no more than this one has left missing.
  lemma OneHop(w: World, s: Quest, net: Net<Found>, m: NetMove<Found>, files: Model, q: Query,
               net': Net<Found>, m': NetMove<Found>, files': Model) returns (q': Query)
    requires m.x < |w.caps| == |w.filters| && m'.x < |w.caps| && forall x :: 0 <= x < |w.caps| ==> IsInt(w.caps[x])
    requires LooksUp(s, net, m, m.x) && HonestMove(w, s, net, m, files) && Reads(w, s, net, m, q)
    requires LooksUp(s, net', m', m'.x) && HonestMove(w, s, net', m', files') && m'.Take?
    requires m.answer.Searched? && |m.answer.hits| < m.answer.maxResults && TextOf(s, net', m') == m.answer.request
    ensures Reads(w, s, net', m', q') && q'.limit <= q.limit - |HitsOf(m.answer)|
  {
    hide ReadBy, Answers, Gives, HonestMove, TextOf, NickOf, LooksUp;
    HonestAnswers(w, s, net, m, files);
    HonestAnswers(w, s, net', m', files');
    AnswerGives(w, m.x, m.Begin?, files, NickOf(s, net, m), TextOf(s, net, m), q, m.answer);
    MissingIsAsked(w, m.x, m.Begin?, files, NickOf(s, net, m), TextOf(s, net, m), q, m.answer, m'.x);
    q' := ReadBy(w, m'.x, false, m.answer.request).query;
    AnswerGives(w, m'.x, false, files', NickOf(s, net', m'), TextOf(s, net', m'), q', m'.answer);
    AnswerFits(w, m'.x, files', NickOf(s, net', m'), q', m'.answer.hits);
  }

  lemma FirstReads(w: World, s: Quest, net: Net<Found>, m: NetMove<Found>, files: Model)
    requires m.x < |w.caps| == |w.filters| && IsInt(w.caps[m.x]) && s.q.limit > 0
    requires m.Begin? && LooksUp(s, net, m, m.x) && HonestMove(w, s, net, m, files)
    ensures Reads(w, s, net, m, s.q)
  {
    hide ReadBy, Answers, Gives;
    LimitIsInt(w, m.x, s.text);
    AnswerGives(w, m.x, true, files, s.nick, s.text, s.q, m.answer);
    AnswerFits(w, m.x, files, s.nick, s.q, m.answer.hits);
  }

  // Whoever is asked is asked for no more than is missing of what the user wants, after everything that
  // has been found on the way.
  lemma {:induction false} AskedForMissing(w: World, s: Quest, moves: seq<NetMove<Found>>, nets: seq<Net<Found>>, files: seq<Model>,
                                           js: seq<nat>) returns (q: Query)
    requires HonestRun(w, s, moves, nets, files) && Lineage(s, moves, nets, js) && s.q.limit > 0
    requires forall x :: 0 <= x < |w.caps| ==> IsInt(w.caps[x])
    ensures Reads(w, s, nets[js[|js| - 1]], moves[js[|js| - 1]], q)
    ensures q.limit <= s.q.limit - HitsAlong(moves, js[..|js| - 1])
    decreases |js|
  {
    hide Reads, HonestMove, LooksUp, Taken;
    var j := js[|js| - 1];
    assert HonestMove(w, s, nets[j], moves[j], files[j]);
    if |js| == 1 {
      assert js[..0] == [];
      q := s.q;
      FirstReads(w, s, nets[j], moves[j], files[j]);
    } else {
      var front := js[..|js| - 1];
      var i := front[|front| - 1];
      assert HandedOn(s, moves, nets, js[|js| - 2], js[|js| - 1]);
      assert forall k :: 0 < k < |front| ==> HandedOn(s, moves, nets, js[k - 1], js[k]);
      var before := AskedForMissing(w, s, moves, nets, files, front);
      assert HonestMove(w, s, nets[i], moves[i], files[i]);
      q := OneHop(w, s, nets[i], moves[i], files[i], before, nets[j], moves[j], files[j]);
    }
  }

  lemma AnswerFits(w: World, x: nat, m: Model, nick: string, q: Query, hits: seq<Found>)
    requires Gives(w, x, m, nick, q, hits) && q.limit > 0
    ensures |hits| <= q.limit
  {}

  // What all servers on the way from the user to some server find is together no more than he wants.
  lemma NoMoreOnTheWay(c: Cluster, w: World, s: Quest, moves: seq<NetMove<Found>>, nets: seq<Net<Found>>, files: seq<Model>, j: nat)
    returns (js: seq<nat>)
    requires Runs(c, moves, nets) && HonestRun(w, s, moves, nets, files) && s.q.limit > 0
    requires forall x :: 0 <= x < |w.caps| ==> IsInt(w.caps[x])
    requires j < |moves| && LooksUp(s, nets[j], moves[j], moves[j].x)
    ensures Lineage(s, moves, nets, js) && js[|js| - 1] == j
    ensures HitsAlong(moves, js) <= s.q.limit
  {
    hide Runs, LooksUp, HonestMove, ReadBy;
    js := HasLineage(c, s, moves, nets, j);
    var q := AskedForMissing(w, s, moves, nets, files, js);
  }
}
