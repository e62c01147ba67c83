/** join.c, part.c, kick.c, channel.c, free_user.c: the handlers that change who is on which channel. */
module ChannelTable {
  import opened Text
  import opened Options
  import opened Channels
  import Glob
  import opened Rollover

  datatype Config = Config(maxUserChannels: nat, maxChannelLength: nat, strict: bool, channelLimit: nat)

  // Full: a predefined channel at its limit, so the next name is tried.
  datatype Judgement = Refuse | Full | Enter | Create

  lemma {:induction false} DeleteAt(s: seq<string>, x: string, i: nat)
    requires i <= |s| && (forall j :: 0 <= j < i ==> s[j] != x) && (i < |s| ==> s[i] == x)
    ensures Delete(s, x) == if i == |s| then s else s[..i] + s[i + 1..]
  {
    if i > 0 {
      DeleteAt(s[1..], x, i - 1);
      assert i < |s| ==> [s[0]] + s[1..][..i - 1] == s[..i] && s[1..][i..] == s[i + 1..];
    }
  }

  // list.c: list_delete
  method ListDelete(s: seq<string>, x: string) returns (r: seq<string>)
    ensures r == Delete(s, x)
  {
    hide Delete;
    var i := 0;
    while i < |s| && s[i] != x
      invariant 0 <= i <= |s| && forall j :: 0 <= j < i ==> s[j] != x
    {
      i := i + 1;
    }
    DeleteAt(s, x, i);
    return if i == |s| then s else s[..i] + s[i + 1..];
  }

  lemma {:induction false} DeleteUserAt(ms: seq<Member>, u: string, i: nat)
    requires i <= |ms| && (forall j :: 0 <= j < i ==> ms[j].user != u) && (i < |ms| ==> ms[i].user == u)
    ensures DeleteUser(ms, u) == if i == |ms| then ms else ms[..i] + ms[i + 1..]
  {
    if i > 0 {
      DeleteUserAt(ms[1..], u, i - 1);
      assert i < |ms| ==> [ms[0]] + ms[1..][..i - 1] == ms[..i] && ms[1..][i..] == ms[i + 1..];
    }
  }

  method ChannelRemove(ms: seq<Member>, u: string) returns (r: seq<Member>)
    ensures r == DeleteUser(ms, u)
  {
    hide DeleteUser;
    var i := 0;
    while i < |ms| && ms[i].user != u
      invariant 0 <= i <= |ms| && forall j :: 0 <= j < i ==> ms[j].user != u
    {
      i := i + 1;
    }
    DeleteUserAt(ms, u, i);
    return if i == |ms| then ms else ms[..i] + ms[i + 1..];
  }

  method FindChanop(ms: seq<Member>, u: string) returns (r: bool)
    ensures r == IsChanop(ms, u)
  {
    var i := 0;
    while i < |ms|
      invariant 0 <= i <= |ms| && IsChanop(ms, u) == IsChanop(ms[i..], u)
    {
      if ms[i].user == u {
        return ms[i].op;
      }
      assert ms[i..][1..] == ms[i + 1..];
      i := i + 1;
    }
    return false;
  }

  method IsMember(ms: seq<Member>, u: string) returns (r: bool)
    ensures r <==> CountUser(ms, u) > 0
  {
    var i := 0;
    while i < |ms|
      invariant 0 <= i <= |ms| && CountUser(ms, u) == CountUser(ms[i..], u)
    {
      if ms[i].user == u {
        return true;
      }
      assert ms[i..][1..] == ms[i + 1..];
      i := i + 1;
    }
    return false;
  }

  method MarkFirst(ms: seq<Member>, u: string, k: Mark) returns (r: seq<Member>)
    ensures r == MarkUser(ms, u, k)
  {
    hide MarkUser, Marked;
    var i := 0;
    while i < |ms| && ms[i].user != u
      invariant 0 <= i <= |ms| && forall j :: 0 <= j < i ==> ms[j].user != u
    {
      i := i + 1;
    }
    MarkAt(ms, u, k, i);
    r := if i == |ms| then ms else ms[i := Marked(ms[i], k)];
  }

  ghost predicate Banned(bans: seq<string>, mask: string) {
    exists b <- bans :: Glob.Splits(b, mask)
  }

  method IsBanned(bans: seq<string>, mask: string) returns (r: bool)
    ensures r <==> Banned(bans, mask)
  {
    var i := 0;
    while i < |bans|
      invariant 0 <= i <= |bans| && forall j :: 0 <= j < i ==> !Glob.Splits(bans[j], mask)
    {
      var hit := Glob.GlobMatch(bans[i], mask);
      if hit {
        return true;
      }
      i := i + 1;
    }
    return false;
  }

  predicate NameChar(c: char) {
    '!' <= c <= '~' && c !in "%$*?\","
  }

  // !invalid_channel
  predicate ValidName(s: string, max: nat) {
    && HasPrefix(s)
    && (forall c <- s[1..] :: NameChar(c))
    && 0 < |s| - 1 && (max > 0 ==> |s| - 1 <= max)
  }

  // What join decides about one channel name.
  ghost function Judged(w: World, cfg: Config, u: string, name: string): Judgement
    requires u in w.users
  {
    var c := Lower(name);
    var user := w.users[u];
    if c !in w.chans then
      if (cfg.strict && user.level < LEVEL_MODERATOR) || !ValidName(name, cfg.maxChannelLength) then Refuse else Create
    else
      var ch := w.chans[c];
      if c in user.channels || user.level < ch.level then Refuse
      else if u in ch.ops || user.level >= LEVEL_MODERATOR then Enter
      else if Banned(ch.bans, u + "!" + user.host) || (ch.inviteOnly && c !in user.invited) then Refuse
      else if ch.limit > 0 && |ch.users| >= ch.limit then (if ch.userMade then Refuse else Full)
      else Enter
  }

  // Who is let in, in plain words: a channel that is there wants the level, and of everybody who is
  // neither moderator nor one of its operators that he is not banned, is invited if that is needed,
  // and finds room; one that is not there wants the right to make channels and a valid name.
  ghost predicate Admitted(w: World, cfg: Config, u: string, name: string)
    requires u in w.users
  {
    var c, user := Lower(name), w.users[u];
    if c in w.chans then
      var ch := w.chans[c];
      && !On(w, u, c) && user.level >= ch.level
      && (user.level >= LEVEL_MODERATOR || u in ch.ops
          || ((forall b <- ch.bans :: !Glob.Splits(b, u + "!" + user.host))
              && (ch.inviteOnly ==> c in user.invited) && (ch.limit > 0 ==> |ch.users| < ch.limit)))
    else
      && (user.level >= LEVEL_MODERATOR || !cfg.strict)
      && 2 <= |name| && (name[0] == '#' || name[0] == '&')
      && (forall i :: 1 <= i < |name| ==> '!' <= name[i] <= '~' && name[i] !in "%$*?\",")
      && (cfg.maxChannelLength > 0 ==> |name| <= cfg.maxChannelLength + 1)
  }

  // Who is only kept out because a predefined channel is full.
  ghost predicate Overflows(w: World, u: string, name: string)
    requires u in w.users
  {
    var c, user := Lower(name), w.users[u];
    && c in w.chans && !On(w, u, c) && w.chans[c].level <= user.level < LEVEL_MODERATOR && u !in w.chans[c].ops
    && (forall b <- w.chans[c].bans :: !Glob.Splits(b, u + "!" + user.host))
    && (w.chans[c].inviteOnly ==> c in user.invited)
    && 0 < w.chans[c].limit <= |w.chans[c].users| && !w.chans[c].userMade
  }

  lemma JudgedMeans(w: World, cfg: Config, u: string, name: string)
    requires Sound(w) && u in w.users
    ensures Judged(w, cfg, u, name) in {Enter, Create} <==> Admitted(w, cfg, u, name)
    ensures Judged(w, cfg, u, name) == Full <==> Overflows(w, u, name)
  {
    hide Sound, On;
    OnIs(w, u, Lower(name));
    if Lower(name) !in w.chans && 2 <= |name| {
      NameChars(name[1..]);
      assert forall i :: 1 <= i < |name| ==> name[1..][i - 1] == name[i];
    }
  }

  lemma NameChars(s: string)
    ensures (forall c <- s :: NameChar(c)) <==> forall i :: 0 <= i < |s| ==> '!' <= s[i] <= '~' && s[i] !in "%$*?\","
  {
    if forall i :: 0 <= i < |s| ==> NameChar(s[i]) {
    }
  }

  function Made(w: World, c: string, limit: nat): World {
    w.(chans := w.chans[c := Fresh(limit)])
  }

  // The retry loop of join over the name asked for and the rollover names behind it.
  ghost function Tried(w: World, cfg: Config, u: string, names: seq<string>): World
    requires u in w.users
  {
    if names == [] then w
    else
      var c := Lower(names[0]);
      match Judged(w, cfg, u, names[0])
      case Refuse => w
      case Full => Tried(w, cfg, u, names[1..])
      case Enter => Entered(w, u, c)
      case Create => Entered(Made(w, c, cfg.channelLimit), u, c)
  }

  function Keys(names: seq<string>): set<string> { set n | n in names :: Lower(n) }

  lemma {:induction false} KeysOfNames(name: string, k: nat, i: nat)
    requires i <= k <= 0x1_0000_0000
    ensures |Keys(Names(name, k)[..i])| == i
  {
    hide Names, Lower;
    if i > 0 {
      var names := Names(name, k);
      KeysOfNames(name, k, i - 1);
      assert names[..i] == names[..i - 1] + [names[i - 1]];
      assert Keys(names[..i]) == Keys(names[..i - 1]) + {Lower(names[i - 1])};
      forall j | 0 <= j < i - 1 ensures Lower(names[j]) != Lower(names[i - 1]) {
        NamesDiffer(name, k, j, i - 1);
      }
      assert Lower(names[i - 1]) !in Keys(names[..i - 1]);
    }
  }

  lemma {:induction false} SmallerSet(a: set<string>, b: set<string>)
    requires a <= b
    ensures |a| <= |b|
  {
    if a != {} {
      var x :| x in a;
      SmallerSet(a - {x}, b - {x});
    }
  }

  lemma {:induction false} NextName(name: string, k: nat, i: nat)
    requires i + 1 < k
    ensures Names(name, k)[i + 1] == Rolled(Names(name, k)[i])
    decreases k
  {
    hide Rolled;
    if i + 2 < k {
      NextName(name, k - 1, i);
    }
  }

  // Full channels have different names, so there are never more of them than channels: the loop of
  // join comes to an end.
  lemma FullNamesAreFew(w: World, cfg: Config, u: string, name: string, k: nat, i: nat)
    requires u in w.users && i <= k <= 0x1_0000_0000
    requires forall j :: 0 <= j < i ==> Judged(w, cfg, u, Names(name, k)[j]) == Full
    ensures i <= |w.chans|
  {
    hide Names, Lower, Judged;
    var names := Names(name, k)[..i];
    KeysOfNames(name, k, i);
    forall n | n in names ensures Lower(n) in w.chans {
      JudgedFound(w, cfg, u, n);
    }
    SmallerSet(Keys(names), w.chans.Keys);
    assert |w.chans.Keys| == |w.chans|;
  }

  function Prefixed(name: string): string {
    if HasPrefix(name) then name else "#" + name
  }

  // The first of the names that is not a full predefined channel.
  ghost predicate FirstOpen(w: World, cfg: Config, u: string, names: seq<string>, i: nat)
    requires u in w.users
  {
    i < |names| && Judged(w, cfg, u, names[i]) != Full && forall k :: 0 <= k < i ==> Judged(w, cfg, u, names[k]) == Full
  }

  // A join that is refused at the first open name, or finds none, changes nothing; an accepted one
  // adds one membership, to the channel of that name.
  lemma {:induction false} TriedIs(w: World, cfg: Config, u: string, names: seq<string>)
    requires Sound(w) && u in w.users
    ensures var after := Tried(w, cfg, u, names);
      && Sound(after) && after.users.Keys == w.users.Keys
      && ((forall i :: 0 <= i < |names| ==> Judged(w, cfg, u, names[i]) == Full) ==> after == w)
      && forall i: nat :: FirstOpen(w, cfg, u, names, i) ==>
           if Judged(w, cfg, u, names[i]) == Refuse then after == w else JoinedOne(w, after, u, Lower(names[i]))
  {
    hide Twin, Count, CountUser, Judged, Entered;
    if names != [] {
      var c := Lower(names[0]);
      match Judged(w, cfg, u, names[0]) {
        case Refuse =>
        case Full =>
          TriedIs(w, cfg, u, names[1..]);
          forall i: nat | FirstOpen(w, cfg, u, names, i)
            ensures i > 0 && names[1..][i - 1] == names[i] && FirstOpen(w, cfg, u, names[1..], i - 1)
          {
            assert forall k :: 0 <= k < i - 1 ==> names[1..][k] == names[k + 1];
          }
        case Enter =>
          JudgedEnter(w, cfg, u, names[0]);
          EnteredIs(w, u, c);
          assert JoinedOne(w, Entered(w, u, c), u, Lower(names[0]));
        case Create =>
          JudgedCreate(w, cfg, u, names[0]);
          EnteredIs(Made(w, c, cfg.channelLimit), u, c);
          assert JoinedOne(w, Entered(Made(w, c, cfg.channelLimit), u, c), u, Lower(names[0]));
      }
    }
  }

  // The loop goes on over full predefined channels and stops at the first other name.
  ghost predicate StopsAt(w: World, u: string, first: string, i: nat, name: string)
    requires u in w.users
  {
    var names := Names(first, |w.chans| + 1);
    i < |names| && name == names[i] && !Overflows(w, u, name) && forall k :: 0 <= k < i ==> Overflows(w, u, names[k])
  }

  lemma OpenIsStop(w: World, cfg: Config, u: string, first: string, i: nat)
    requires Sound(w) && u in w.users && FirstOpen(w, cfg, u, Names(first, |w.chans| + 1), i)
    ensures StopsAt(w, u, first, i, Names(first, |w.chans| + 1)[i])
  {
    hide Sound, Judged, Overflows, Admitted, Names;
    var names := Names(first, |w.chans| + 1);
    forall k | 0 <= k <= i ensures Judged(w, cfg, u, names[k]) == Full <==> Overflows(w, u, names[k]) {
      JudgedMeans(w, cfg, u, names[k]);
    }
  }

  // What join does at the first open name.
  lemma {:induction false} TriedAt(w: World, cfg: Config, u: string, names: seq<string>, i: nat)
    requires u in w.users && FirstOpen(w, cfg, u, names, i)
    ensures var c := Lower(names[i]);
      Tried(w, cfg, u, names) == match Judged(w, cfg, u, names[i])
                                 case Enter => Entered(w, u, c)
                                 case Create => Entered(Made(w, c, cfg.channelLimit), u, c)
                                 case _ => w
  {
    hide Judged, Entered;
    if i > 0 {
      assert forall k :: 0 <= k < i - 1 ==> names[1..][k] == names[k + 1];
      TriedAt(w, cfg, u, names[1..], i - 1);
    }
  }

  // What becomes of a user and of a channel, which may be made this moment, when he joins it.
  ghost predicate Joins(w: World, after: World, cfg: Config, u: string, c: string) {
    && c in after.chans && after.chans - {c} == w.chans - {c}
    && (var was := if c in w.chans then w.chans[c] else Channel([], [], [], [], true, false, cfg.channelLimit, LEVEL_USER);
        after.chans[c] == was.(users := [Member(u, u in was.ops, false, false)] + was.users, invited := after.chans[c].invited))
    && (forall v, d :: On(after, v, d) <==> On(w, v, d) || (v == u && d == c))
    && forall v, d :: d in InvitesOf(after, v) <==>
         d in InvitesOf(w, v) && !(v == u && d == c && c in w.chans && w.chans[c].inviteOnly)
  }

  lemma EnteredJoins(w: World, cfg: Config, u: string, name: string)
    requires Sound(w) && u in w.users && Judged(w, cfg, u, name) == Enter
    ensures Joins(w, Entered(w, u, Lower(name)), cfg, u, Lower(name))
  {
    hide Sound, Judged, Entered, On, Count, CountUser;
    var c := Lower(name);
    JudgedEnter(w, cfg, u, name);
    var after := Entered(w, u, c);
    SoundOthers(w);
    EnteredIs(w, u, c);
    OnFollows(w, after, u, c, true);
    SameInvites(w, after, u, c, w.chans[c].inviteOnly);
  }

  lemma CreatedJoins(w: World, cfg: Config, u: string, name: string)
    requires Sound(w) && u in w.users && Judged(w, cfg, u, name) == Create
    ensures Joins(w, Entered(Made(w, Lower(name), cfg.channelLimit), u, Lower(name)), cfg, u, Lower(name))
  {
    hide Sound, Judged, Entered, On, Count, CountUser;
    var c := Lower(name);
    var made := Made(w, c, cfg.channelLimit);
    var after := Entered(made, u, c);
    JudgedCreate(w, cfg, u, name);
    SoundOthers(w);
    EnteredIs(made, u, c);
    OnFollows(w, after, u, c, true);
    SameInvites(w, after, u, c, false);
  }

  lemma SoundOthers(w: World)
    requires Sound(w)
    ensures Twins(w) && forall d <- w.chans :: ChannelOk(w.chans[d])
  {}

  lemma SameInvites(w: World, after: World, u: string, c: string, used: bool)
    requires forall v, d :: Count(InvitesOf(after, v), d) == if v == u && d == c && used then 0 else Count(InvitesOf(w, v), d)
    ensures forall v, d :: d in InvitesOf(after, v) <==> d in InvitesOf(w, v) && !(v == u && d == c && used)
  {
    forall v, d ensures d in InvitesOf(after, v) <==> d in InvitesOf(w, v) && !(v == u && d == c && used) {
      CountIn(InvitesOf(after, v), d);
      CountIn(InvitesOf(w, v), d);
    }
  }

  ghost predicate JoinedOne(w: World, after: World, u: string, c: string) {
    && c !in ChannelsOf(w, u) && c in after.chans
    && forall v, d :: Count(ChannelsOf(after, v), d) == if v == u && d == c then 1 else Count(ChannelsOf(w, v), d)
  }

  lemma JudgedEnter(w: World, cfg: Config, u: string, name: string)
    requires Sound(w) && u in w.users && Judged(w, cfg, u, name) == Enter
    ensures var c := Lower(name); c in w.chans && c !in w.users[u].channels
    ensures var ch := w.chans[Lower(name)]; ChannelOk(ch.(userMade := false))
  {
    assert ChannelOk(w.chans[Lower(name)]);
  }

  lemma JudgedFound(w: World, cfg: Config, u: string, name: string)
    requires u in w.users
    ensures Judged(w, cfg, u, name) in {Enter, Full} ==> Lower(name) in w.chans
  {
  }

  lemma JudgedCreate(w: World, cfg: Config, u: string, name: string)
    requires Sound(w) && u in w.users && Judged(w, cfg, u, name) == Create
    ensures var c := Lower(name); c !in w.chans && c !in w.users[u].channels && Twins(Made(w, c, cfg.channelLimit))
  {
    hide Count, CountUser;
    var c := Lower(name);
    SoundMeans(w, u, c);
    var made := Made(w, c, cfg.channelLimit);
    forall v, d ensures Twin(made, v, d) {
      assert Twin(w, v, d);
    }
  }

  // Clearing removes whoever has a lower level than the sender, the same level while he is an operator
  // there, or any level when he is elite; but not himself, and nobody else.
  lemma WhoIsCleared(w: World, sender: string, c: string)
    requires Sound(w) && sender in w.users && c in w.chans
    ensures var after := Cleared(w, c, IsChanop(w.chans[c].users, sender), sender, w.chans[c].users);
      && (forall v :: v in w.users && On(w, v, c) ==>
            (On(after, v, c) <==> (v == sender
              || !(w.users[sender].level > w.users[v].level || w.users[sender].level == LEVEL_ELITE
                   || (w.users[sender].level == w.users[v].level && OpOn(w, sender, c))))))
      && forall v, d :: d != c || !On(w, v, d) ==> (On(after, v, d) <==> On(w, v, d))
  {
    hide Sound, Cleared, Remaining, IsChanop, OpOn;
    var ms := w.chans[c].users;
    var chanop := IsChanop(ms, sender);
    assert [] + ms == ms;
    ChanopIs(w, sender, c);
    ClearedIs(w, c, chanop, sender, [], ms);
    assert [] + Remaining(w, chanop, sender, ms) == Remaining(w, chanop, sender, ms);
    RemainingIs(w, chanop, sender, ms);
    ClearedElsewhere(w, c, chanop, sender, ms);
  }

  class Directory {
    var users: map<string, User>
    var chans: map<string, Channel>

    ghost function All(): World
      reads this
    {
      World(users, chans)
    }

    constructor ()
      ensures Sound(All()) && users == map[] && chans == map[]
    {
      users, chans := map[], map[];
      new;
      forall v, d ensures Twin(All(), v, d) {
      }
    }

    // A login whose nick is free.
    method AddUser(u: string, level: nat, host: string)
      requires Sound(All()) && u !in users
      modifies this
      ensures Sound(All()) && chans == old(chans) && users == old(users)[u := User(level, false, host, [], [])]
    {
      hide Count, CountUser;
      ghost var w := All();
      users := users[u := User(level, false, host, [], [])];
      forall v, d ensures Twin(All(), v, d) {
        assert Twin(w, v, d);
      }
      assert ChannelsOk(w);
    }

    // load_channels: a predefined channel, nobody on it.
    method AddChannel(c: string, ops: seq<string>, limit: nat, level: nat)
      requires Sound(All()) && c !in chans && forall i, j :: 0 <= i < j < |ops| ==> ops[i] != ops[j]
      modifies this
      ensures Sound(All()) && users == old(users)
      ensures chans == old(chans)[c := Channel([], [], ops, [], false, false, limit, level)]
    {
      hide Count, CountUser;
      ghost var w := All();
      chans := chans[c := Channel([], [], ops, [], false, false, limit, level)];
      forall v, d ensures Twin(All(), v, d) {
        assert Twin(w, v, d);
        NoneCounted(v);
      }
      assert ChannelsOk(w);
    }

    // What the mode, limit, level and ban commands may change on a channel.
    method SetModes(c: string, inviteOnly: bool, limit: nat, level: nat, bans: seq<string>)
      requires Sound(All()) && c in chans
      modifies this`chans
      ensures Sound(All())
      ensures chans == old(chans)[c := old(chans)[c].(inviteOnly := inviteOnly, limit := limit, level := level, bans := bans)]
    {
      hide Count, CountUser;
      ghost var w := All();
      chans := chans[c := chans[c].(inviteOnly := inviteOnly, limit := limit, level := level, bans := bans)];
      assert ChannelOk(w.chans[c]);
      SamePeople(w, c, chans[c]);
    }

    // What the level and muzzle commands may change on a user.
    method SetRank(u: string, level: nat, muzzled: bool)
      requires Sound(All()) && u in users
      modifies this`users
      ensures Sound(All()) && users == old(users)[u := old(users)[u].(level := level, muzzled := muzzled)]
    {
      hide Count, CountUser;
      ghost var w := All();
      users := users[u := users[u].(level := level, muzzled := muzzled)];
      forall v, d ensures Twin(All(), v, d) {
        assert Twin(w, v, d);
      }
      assert ChannelsOk(w);
    }

    // serverlib.c: free_channel, called by hash_remove
    method FreeChannel(c: string)
      requires c in chans
      modifies this
      ensures All() == Destroyed(old(All()), c)
    {
      hide Delete;
      ghost var w := All();
      var invited := chans[c].invited;
      chans := chans - {c};
      var i := 0;
      while i < |invited|
        invariant 0 <= i <= |invited| && chans == w.chans - {c}
        invariant Uninvited(users, invited[i..], c) == Uninvited(w.users, invited, c)
      {
        var u := invited[i];
        assert invited[i..][1..] == invited[i + 1..];
        if u in users {
          var left := ListDelete(users[u].invited, c);
          users := users[u := users[u].(invited := left)];
        }
        i := i + 1;
      }
    }

    method PartChannel(c: string, u: string)
      requires c in chans
      modifies this
      ensures All() == Parted(old(All()), c, u)
    {
      hide DeleteUser, Destroyed;
      var ch := chans[c];
      var left := ChannelRemove(ch.users, u);
      chans := chans[c := ch.(users := left)];
      if left == [] && ch.userMade {
        FreeChannel(c);
      }
    }

    // The checks of one turn of join's loop.
    method Judge(u: string, name: string, cfg: Config) returns (j: Judgement)
      requires u in users
      ensures j == Judged(All(), cfg, u, name)
    {
      var user, c := users[u], Lower(name);
      if c !in chans {
        if cfg.strict && user.level < LEVEL_MODERATOR {
          return Refuse;
        }
        return if ValidName(name, cfg.maxChannelLength) then Create else Refuse;
      }
      var ch := chans[c];
      if c in user.channels || user.level < ch.level {
        return Refuse;
      }
      var chanop := u in ch.ops;
      if !chanop && user.level < LEVEL_MODERATOR {
        var banned := IsBanned(ch.bans, u + "!" + user.host);
        if banned {
          return Refuse;
        }
        if ch.inviteOnly && c !in user.invited {
          return Refuse;
        }
        if ch.limit > 0 && |ch.users| >= ch.limit {
          return if ch.userMade then Refuse else Full;
        }
      }
      return Enter;
    }

    // The turns of join's loop up to the first name that is not a full predefined channel. The
    // number of channels is an int.
    method Seek(u: string, first: string, cfg: Config) returns (name: string, j: Judgement, ghost i: nat)
      requires u in users && |chans| < 0x8000_0000
      ensures FirstOpen(All(), cfg, u, Names(first, |chans| + 1), i)
      ensures name == Names(first, |chans| + 1)[i] && j == Judged(All(), cfg, u, name) && j != Full
    {
      hide Judged, Names, Rolled;
      name, i := first, 0;
      ghost var names := Names(first, |chans| + 1);
      j := Judge(u, name, cfg);
      while j == Full
        invariant i < |names| && name == names[i] && j == Judged(All(), cfg, u, name)
        invariant forall k :: 0 <= k < i ==> Judged(All(), cfg, u, names[k]) == Full
        decreases |names| - i
      {
        FullNamesAreFew(All(), cfg, u, first, |names|, i + 1);
        NextName(first, |names|, i);
        name := Roll(name);
        i := i + 1;
        j := Judge(u, name, cfg);
      }
    }

    // name is the one at which the loop stops.
    method Join(u: string, pkt: string, cfg: Config) returns (joined: bool, ghost name: string)
      requires Sound(All()) && u in users && pkt != "" && |chans| < 0x8000_0000
      modifies this
      ensures Sound(All())
      ensures var w := old(All()); var c, user := Lower(name), w.users[u];
        joined <==>
          && (user.level >= LEVEL_MODERATOR || (|user.channels| <= cfg.maxUserChannels && !user.muzzled))
          && if c in w.chans then
               && !On(w, u, c) && user.level >= w.chans[c].level
               && (user.level >= LEVEL_MODERATOR || u in w.chans[c].ops
                   || ((forall b <- w.chans[c].bans :: !Glob.Splits(b, u + "!" + user.host))
                       && (w.chans[c].inviteOnly ==> c in user.invited)
                       && (w.chans[c].limit > 0 ==> |w.chans[c].users| < w.chans[c].limit)))
             else
               && (user.level >= LEVEL_MODERATOR || !cfg.strict)
               && 2 <= |name| && (name[0] == '#' || name[0] == '&')
               && (forall i :: 1 <= i < |name| ==> '!' <= name[i] <= '~' && name[i] !in "%$*?\",")
               && (cfg.maxChannelLength > 0 ==> |name| <= cfg.maxChannelLength + 1)
      ensures if joined then Joins(old(All()), All(), cfg, u, Lower(name)) else All() == old(All())
      ensures var w := old(All());
        w.users[u].level >= LEVEL_MODERATOR || (|w.users[u].channels| <= cfg.maxUserChannels && !w.users[u].muzzled) ==>
          exists i: nat :: StopsAt(w, u, Prefixed(pkt), i, name)
      ensures var w := old(All());
        All() == if w.users[u].level < LEVEL_MODERATOR
                    && (|w.users[u].channels| > cfg.maxUserChannels || w.users[u].muzzled)
                 then w else Tried(w, cfg, u, Names(Prefixed(pkt), |w.chans| + 1))
      ensures joined <==> All() != old(All())
    {
      hide Sound, Judged, Entered, Names, JoinedOne, FirstOpen, Tried, Joins, StopsAt;
      ghost var w := All();
      var user := users[u];
      name := Prefixed(pkt);
      if user.level < LEVEL_MODERATOR && (|user.channels| > cfg.maxUserChannels || user.muzzled) {
        return false, name;
      }
      var at, j, i := Seek(u, Prefixed(pkt), cfg);
      name := at;
      JudgedMeans(w, cfg, u, at);
      OpenIsStop(w, cfg, u, Prefixed(pkt), i);
      TriedIs(w, cfg, u, Names(Prefixed(pkt), |w.chans| + 1));
      TriedAt(w, cfg, u, Names(Prefixed(pkt), |w.chans| + 1), i);
      if j == Refuse {
        return false, at;
      }
      JudgedFound(w, cfg, u, at);
      if j == Create {
        CreatedJoins(w, cfg, u, at);
        chans := chans[Lower(at) := Fresh(cfg.channelLimit)];
      } else {
        EnteredJoins(w, cfg, u, at);
      }
      EnterChannel(u, Lower(at));
      return true, at;
    }

    method EnterChannel(u: string, c: string)
      requires u in users && c in chans
      modifies this
      ensures All() == Entered(old(All()), u, c) && users != old(users)
    {
      hide Delete;
      ghost var w := All();
      var chanop := u in chans[c].ops;
      if chans[c].inviteOnly {
        var left := ListDelete(chans[c].invited, u);
        chans := chans[c := chans[c].(invited := left)];
        left := ListDelete(users[u].invited, c);
        users := users[u := users[u].(invited := left)];
      }
      users := users[u := users[u].(channels := [c] + users[u].channels)];
      chans := chans[c := chans[c].(users := [Member(u, chanop, false, false)] + chans[c].users)];
      assert |users[u].channels| == |w.users[u].channels| + 1;
    }

    method Leave(u: string, c: string)
      requires Sound(All()) && u in users && c in chans
      modifies this
      ensures All() == Left(old(All()), u, c) && Sound(All()) && users.Keys == old(users.Keys)
    {
      hide Delete, Parted, Sound;
      LeftIs(All(), u, c);
      var left := ListDelete(users[u].channels, c);
      users := users[u := users[u].(channels := left)];
      PartChannel(c, u);
    }

    method Part(u: string, name: string) returns (parted: bool)
      requires Sound(All()) && u in users
      modifies this
      ensures Sound(All()) && (parted <==> Lower(name) in old(users[u].channels))
      ensures parted ==> Lower(name) in old(chans) && All() == Left(old(All()), u, Lower(name))
      ensures !parted ==> All() == old(All())
    {
      hide Twin, ChannelsOk, Count, CountUser, Left;
      var c := Lower(name);
      if c !in users[u].channels {
        return false;
      }
      SoundMeans(All(), u, c);
      Leave(u, c);
      return true;
    }

    method Kick(sender: string, c: string, u: string) returns (kicked: bool)
      requires Sound(All()) && sender in users
      modifies this
      ensures Sound(All())
      ensures var w := old(All());
        kicked <==> (u in w.users && On(w, sender, c) && On(w, u, c) && w.users[sender].level >= w.chans[c].level
                     && (w.users[sender].level > w.users[u].level || w.users[sender].level == LEVEL_ELITE
                         || (w.users[sender].level == w.users[u].level && OpOn(w, sender, c))))
      ensures forall v, d :: On(All(), v, d) <==> old(On(All(), v, d)) && !(kicked && v == u && d == c)
      ensures All() == if kicked then Left(old(All()), u, c) else old(All())
    {
      hide Sound, On, OpOn, IsChanop, Left;
      OnIs(All(), sender, c);
      OnIs(All(), u, c);
      ChanopIs(All(), sender, c);
      if c !in chans || c !in users[sender].channels || u !in users || users[sender].level < chans[c].level {
        return false;
      }
      var chanop := FindChanop(chans[c].users, sender);
      if !CanKick(users, chanop, sender, u) || c !in users[u].channels {
        return false;
      }
      ghost var w := All();
      Leave(u, c);
      LeftIs(w, u, c);
      OnFollows(w, All(), u, c, false);
      return true;
    }

    method ClearChannel(sender: string, c: string) returns (cleared: bool)
      requires Sound(All()) && sender in users
      modifies this
      ensures Sound(All()) && (cleared <==> old(c in chans && users[sender].level >= chans[c].level))
      ensures !cleared ==> All() == old(All())
      ensures cleared ==> var w := old(All()); forall v :: v in w.users && On(w, v, c) ==>
        (On(All(), v, c) <==> (v == sender
          || !(w.users[sender].level > w.users[v].level || w.users[sender].level == LEVEL_ELITE
               || (w.users[sender].level == w.users[v].level && OpOn(w, sender, c)))))
      ensures forall v, d :: d != c || !old(On(All(), v, d)) ==> (On(All(), v, d) <==> old(On(All(), v, d)))
      ensures cleared ==> var w := old(All()); var chanop := IsChanop(w.chans[c].users, sender);
        All() == Cleared(w, c, chanop, sender, w.chans[c].users)
    {
      hide Twin, ChannelsOk, Count, CountUser, Left, CanKick, DeleteUser, On, OpOn;
      if c !in chans || users[sender].level < chans[c].level {
        return false;
      }
      ghost var w := All();
      var list := chans[c].users;
      ghost var chanop, kept: seq<Member> := IsChanop(list, sender), [];
      var i := 0;
      assert list[0..] == list && [] + list == list;
      while i < |list|
        invariant 0 <= i <= |list| && Sound(All()) && sender in users
        invariant Cleared(All(), c, chanop, sender, list[i..]) == Cleared(w, c, chanop, sender, list)
        invariant MembersOf(All(), c) == kept + list[i..]
        invariant IsChanop(kept + list[i..], sender) == chanop
      {
        assert list[i..][1..] == list[i + 1..];
        OneMore(kept, list[i..]);
        var u := list[i].user;
        if u != sender {
          KickedFrom(All(), c, sender, kept, list[i..]);
          var op := FindChanop(chans[c].users, sender);
          if CanKick(users, op, sender, u) {
            Leave(u, c);
          } else {
            kept := kept + [list[i]];
          }
        } else {
          kept := kept + [list[i]];
        }
        i := i + 1;
      }
      WhoIsCleared(w, sender, c);
      return true;
    }

    method ChannelDrop(sender: string, c: string) returns (dropped: bool)
      requires Sound(All()) && sender in users
      modifies this
      ensures Sound(All())
      ensures dropped <==> old(c in chans && !chans[c].userMade && users[sender].level >= LEVEL_MODERATOR
                               && users[sender].level >= chans[c].level)
      ensures dropped ==> All() == Dropped(old(All()), c)
      ensures !dropped ==> All() == old(All())
    {
      hide Sound, Destroyed;
      if c !in chans || chans[c].userMade
         || users[sender].level < LEVEL_MODERATOR || users[sender].level < chans[c].level {
        return false;
      }
      DroppedIs(All(), c);
      if chans[c].users == [] {
        FreeChannel(c);
      } else {
        chans := chans[c := chans[c].(userMade := true)];
      }
      return true;
    }

    // level is None for a command from a server itself; valid tells the nicks invalid_nick lets through.
    method ChannelOp(level: Option<nat>, c: string, nicks: seq<string>, give: bool, valid: string -> bool)
      returns (done: bool)
      requires Sound(All())
      modifies this
      ensures Sound(All()) && users == old(users)
      ensures done <==> (level.Some? ==> level.value >= LEVEL_MODERATOR) && c in old(chans)
      ensures done ==> c in chans && OpsGiven(old(chans)[c], chans[c], nicks, give, valid)
      ensures chans - {c} == old(chans) - {c} && (!done ==> chans == old(chans))
      ensures All() == if done then OpsChanged(old(All()), c, nicks, give, valid) else old(All())
    {
      hide Sound, OpChanged, OpsGiven;
      if (level.Some? && level.value < LEVEL_MODERATOR) || c !in chans {
        return false;
      }
      ghost var w := All();
      var i := 0;
      assert nicks[0..] == nicks;
      while i < |nicks|
        invariant 0 <= i <= |nicks| && Sound(All()) && c in chans && users == w.users
        invariant OpsChanged(All(), c, nicks[i..], give, valid) == OpsChanged(w, c, nicks, give, valid)
      {
        assert nicks[i..][1..] == nicks[i + 1..];
        if valid(nicks[i]) {
          OpChangedIs(All(), c, nicks[i], give);
          OpChangesOnly(All(), c, nicks[i], give);
          ChangeOp(c, nicks[i], give);
        }
        i := i + 1;
      }
      OpsChangedIs(w, c, nicks, give, valid);
      return true;
    }

    method ChangeOp(c: string, nick: string, give: bool)
      requires c in chans
      modifies this`chans
      ensures All() == OpChanged(old(All()), c, nick, give)
    {
      hide Delete, MarkUser;
      var ch := chans[c];
      if give && nick !in ch.ops {
        ch := ch.(ops := ch.ops + [nick]);
        if nick in users {
          var ms := MarkFirst(ch.users, nick, GiveOp);
          ch := ch.(users := ms);
        }
        chans := chans[c := ch.(userMade := false)];
      } else if !give && nick in ch.ops {
        var ops := ListDelete(ch.ops, nick);
        ch := ch.(ops := ops);
        if nick in users {
          var ms := MarkFirst(ch.users, nick, TakeOp);
          ch := ch.(users := ms);
        }
        chans := chans[c := ch];
      }
    }

    method ChannelInvite(sender: string, c: string, u: string) returns (invited: bool)
      requires Sound(All()) && sender in users
      modifies this
      ensures Sound(All())
      ensures invited <==> c in old(chans) && u in old(users) && old(chans)[c].inviteOnly
                           && old(users)[sender].level >= old(chans)[c].level && old(On(All(), sender, c))
                           && !old(On(All(), u, c)) && u !in old(chans)[c].invited
      ensures All() == if invited then Invited(old(All()), u, c) else old(All())
    {
      hide Sound, CountUser, Count, On;
      OnIs(All(), sender, c);
      OnIs(All(), u, c);
      SoundMeans(All(), u, c);
      if c !in chans || !chans[c].inviteOnly || users[sender].level < chans[c].level {
        return false;
      }
      var member := IsMember(chans[c].users, sender);
      if !member || u !in users {
        return false;
      }
      member := IsMember(chans[c].users, u);
      if member || c in users[u].invited {
        return false;
      }
      InvitedIs(All(), u, c);
      users := users[u := users[u].(invited := [c] + users[u].invited)];
      chans := chans[c := chans[c].(invited := [u] + chans[c].invited)];
      return true;
    }

    // sender is None for a command from a server itself.
    method ChannelVoice(sender: Option<string>, c: string, nicks: seq<string>, give: bool) returns (done: bool)
      requires Sound(All()) && (sender.Some? ==> sender.value in users)
      modifies this`chans
      ensures Sound(All())
      ensures done <==> c in old(chans) && (sender.Some? ==>
        old(users)[sender.value].level >= LEVEL_MODERATOR || old(OpOn(All(), sender.value, c)))
      ensures done ==> c in chans && var was, now := old(chans)[c], chans[c];
        && now == was.(users := now.users) && |now.users| == |was.users|
        && forall i :: 0 <= i < |was.users| ==>
             now.users[i] == if was.users[i].user !in nicks then was.users[i]
                             else was.users[i].(voice := give, muzzled := !give && was.users[i].muzzled)
      ensures chans - {c} == old(chans) - {c}
      ensures All() == if done then AllMarked(old(All()), c, nicks, if give then Voice else Unvoice) else old(All())
    {
      hide Sound, MarkUser, OpOn, IsChanop;
      if c !in chans {
        return false;
      }
      if sender.Some? {
        ChanopIs(All(), sender.value, c);
      }
      if sender.Some? && users[sender.value].level < LEVEL_MODERATOR {
        var chanop := FindChanop(chans[c].users, sender.value);
        if !chanop {
          return false;
        }
      }
      ghost var w := All();
      ghost var k := if give then Voice else Unvoice;
      var i := 0;
      assert nicks[0..] == nicks;
      while i < |nicks|
        invariant 0 <= i <= |nicks| && Sound(All()) && c in chans
        invariant AllMarked(All(), c, nicks[i..], k) == AllMarked(w, c, nicks, k)
      {
        assert nicks[i..][1..] == nicks[i + 1..];
        var found := MarkMember(c, nicks[i], if give then Voice else Unvoice);
        i := i + 1;
      }
      VoicedIs(w, c, nicks, give);
      return true;
    }

    method ChannelMuzzle(sender: Option<string>, c: string, u: string, muzzle: bool) returns (done: bool)
      requires Sound(All()) && (sender.Some? ==> sender.value in users)
      modifies this`chans
      ensures Sound(All())
      ensures done <==> c in old(chans) && u in users && (sender.Some? ==>
        && (users[sender.value].level >= LEVEL_MODERATOR || old(OpOn(All(), sender.value, c)))
        && (users[sender.value].level == LEVEL_ELITE || users[sender.value].level >= users[u].level))
      ensures done ==> c in chans && var was, now := old(chans)[c], chans[c];
        && now == was.(users := now.users) && |now.users| == |was.users|
        && forall i :: 0 <= i < |was.users| ==>
             now.users[i] == if was.users[i].user != u then was.users[i]
                             else was.users[i].(muzzled := muzzle, voice := !muzzle && was.users[i].voice)
      ensures chans - {c} == old(chans) - {c}
      ensures done ==> All() == WithUsers(old(All()), c, MarkUser(old(chans[c].users), u, if muzzle then Muzzle else Unmuzzle))
      ensures !done ==> All() == old(All())
    {
      hide Sound, MarkUser, OpOn, IsChanop;
      if c !in chans {
        return false;
      }
      if sender.Some? {
        ChanopIs(All(), sender.value, c);
      }
      if sender.Some? && users[sender.value].level < LEVEL_MODERATOR {
        var chanop := FindChanop(chans[c].users, sender.value);
        if !chanop {
          return false;
        }
      }
      if u !in users {
        return false;
      }
      if sender.Some? && users[sender.value].level != LEVEL_ELITE && users[sender.value].level < users[u].level {
        return false;
      }
      MarkedIs(All(), u, c, if muzzle then Muzzle else Unmuzzle);
      done := MarkMember(c, u, if muzzle then Muzzle else Unmuzzle);
    }

    // One nick of channel_voice, or channel_muzzle: the flags of that member, if he is one.
    method MarkMember(c: string, u: string, k: Mark) returns (found: bool)
      requires Sound(All()) && k != GiveOp && k != TakeOp
      modifies this`chans
      ensures Sound(All()) && (found <==> c in old(chans) && u in users)
      ensures found ==> All() == WithUsers(old(All()), c, MarkUser(old(chans[c].users), u, k))
      ensures !found ==> All() == old(All())
    {
      hide Sound, MarkUser;
      if c !in chans || u !in users {
        return false;
      }
      MarkedIs(All(), u, c, k);
      var ms := MarkFirst(chans[c].users, u, k);
      chans := chans[c := chans[c].(users := ms)];
      return true;
    }

    // hash_remove (Users, nick), which calls free_user
    method FreeUser(u: string)
      requires Sound(All()) && u in users
      modifies this
      ensures Sound(All()) && All() == Quit(old(All()), u)
    {
      hide Sound, Parted, Delete;
      ghost var w := All();
      QuitIs(w, u);
      var channels := users[u].channels;
      var i := 0;
      assert channels[0..] == channels;
      while i < |channels|
        invariant 0 <= i <= |channels|
        invariant PartedAll(All(), u, channels[i..]) == PartedAll(w, u, channels)
      {
        assert channels[i..][1..] == channels[i + 1..];
        if channels[i] in chans {
          PartChannel(channels[i], u);
        }
        i := i + 1;
      }
      ghost var parted := All();
      assert parted == PartedAll(w, u, channels);
      var invited := if u in users then users[u].invited else [];
      i := 0;
      assert invited[0..] == invited;
      while i < |invited|
        invariant 0 <= i <= |invited| && users == parted.users
        invariant Forgotten(chans, u, invited[i..]) == Forgotten(parted.chans, u, invited)
      {
        assert invited[i..][1..] == invited[i + 1..];
        if invited[i] in chans {
          var left := ListDelete(chans[invited[i]].invited, u);
          chans := chans[invited[i] := chans[invited[i]].(invited := left)];
        }
        i := i + 1;
      }
      users := users - {u};
    }
  }

  function OpsChanged(w: World, c: string, nicks: seq<string>, give: bool, valid: string -> bool): World
    decreases |nicks|
  {
    if nicks == [] then w
    else OpsChanged(if valid(nicks[0]) then OpChanged(w, c, nicks[0], give) else w, c, nicks[1..], give, valid)
  }

  // Each valid nick is on the operator list exactly when it was given the right, all others as before;
  // the members' flags follow the list; a channel that gets an operator is kept for good.
  ghost predicate OpsGiven(was: Channel, now: Channel, nicks: seq<string>, give: bool, valid: string -> bool) {
    && (forall n :: n in now.ops <==> if n in nicks && valid(n) then give else n in was.ops)
    && |now.users| == |was.users|
    && (forall i :: 0 <= i < |was.users| ==> now.users[i] == was.users[i].(op := was.users[i].user in now.ops))
    && now == was.(users := now.users, ops := now.ops,
                   userMade := was.userMade && !(give && exists n <- nicks :: valid(n) && n !in was.ops))
  }

  lemma {:induction false} OpsChangedIs(w: World, c: string, nicks: seq<string>, give: bool, valid: string -> bool)
    requires Sound(w) && c in w.chans
    ensures var after := OpsChanged(w, c, nicks, give, valid);
      && Sound(after) && after.users == w.users && after.chans.Keys == w.chans.Keys && after.chans - {c} == w.chans - {c}
      && OpsGiven(w.chans[c], after.chans[c], nicks, give, valid)
    decreases |nicks|
  {
    hide OpChanged, Twins, MemberOk;
    FlagsAreOps(w, c);
    if nicks != [] {
      var n := nicks[0];
      var next := if valid(n) then OpChanged(w, c, n, give) else w;
      if valid(n) {
        OpChangedIs(w, c, n, give);
        OpChangesOnly(w, c, n, give);
      }
      OpsChangedIs(next, c, nicks[1..], give, valid);
      OneMoreOp(w.chans[c], next.chans[c], OpsChanged(next, c, nicks[1..], give, valid).chans[c], nicks, give, valid);
    }
  }

  lemma OneMoreOp(was: Channel, next: Channel, now: Channel, nicks: seq<string>, give: bool, valid: string -> bool)
    requires nicks != [] && OpsGiven(next, now, nicks[1..], give, valid)
    requires var n := nicks[0];
      if valid(n) then
        && (forall v :: v in next.ops <==> if v == n then give else v in was.ops)
        && |next.users| == |was.users|
        && (forall i :: 0 <= i < |was.users| ==> next.users[i] == was.users[i].(op := next.users[i].op))
        && next == was.(users := next.users, ops := next.ops, userMade := was.userMade && !(give && n !in was.ops))
      else next == was
    ensures OpsGiven(was, now, nicks, give, valid)
  {
    var rest := nicks[1..];
    assert nicks == [nicks[0]] + rest;
  }

  function AllMarked(w: World, c: string, nicks: seq<string>, k: Mark): World
    decreases |nicks|
  {
    if nicks == [] then w
    else
      var now := if c in w.chans && nicks[0] in w.users then WithUsers(w, c, MarkUser(w.chans[c].users, nicks[0], k)) else w;
      AllMarked(now, c, nicks[1..], k)
  }

  lemma {:induction false} VoicedIs(w: World, c: string, nicks: seq<string>, give: bool)
    requires Sound(w) && c in w.chans
    ensures var after := AllMarked(w, c, nicks, if give then Voice else Unvoice);
      && after.users == w.users && after.chans.Keys == w.chans.Keys && after.chans - {c} == w.chans - {c}
      && var was, now := w.chans[c], after.chans[c];
      && now == was.(users := now.users) && |now.users| == |was.users|
      && forall i :: 0 <= i < |was.users| ==>
           now.users[i] == if was.users[i].user !in nicks then was.users[i]
                           else was.users[i].(voice := give, muzzled := !give && was.users[i].muzzled)
    decreases |nicks|
  {
    hide Sound, MarkUser;
    if nicks != [] {
      var n, k := nicks[0], if give then Voice else Unvoice;
      assert nicks == [n] + nicks[1..];
      var next := if n in w.users then WithUsers(w, c, MarkUser(w.chans[c].users, n, k)) else w;
      MarkedIs(w, n, c, k);
      if n !in w.users {
        forall i | 0 <= i < |w.chans[c].users| ensures w.chans[c].users[i].user != n {
          MemberIsUser(w, c, i);
        }
      }
      VoicedIs(next, c, nicks[1..], give);
    }
  }

  lemma MemberIsUser(w: World, c: string, i: nat)
    requires Sound(w) && c in w.chans && i < |w.chans[c].users|
    ensures w.chans[c].users[i].user in w.users
  {
    OnIs(w, w.chans[c].users[i].user, c);
  }
}
