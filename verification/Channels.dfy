/** join.c, part_channel.c, kick.c, channel.c, free_user.c, serverlib.c: who is on which channel.
    Both sides of a relation are lists: a user's channels and a channel's users, a user's
    invitations and a channel's invited users. Users and channels are named by their hash keys,
    the lower-cased nick and channel name. */
module Channels {

  const LEVEL_USER: nat := 1
  const LEVEL_MODERATOR: nat := 2
  const LEVEL_ELITE: nat := 4

  datatype Member = Member(user: string, op: bool, voice: bool, muzzled: bool)

  // userMade is ON_CHANNEL_USER, inviteOnly is ON_CHANNEL_INVITE.
  datatype Channel = Channel(users: seq<Member>, invited: seq<string>, ops: seq<string>, bans: seq<string>,
                             userMade: bool, inviteOnly: bool, limit: nat, level: nat)

  datatype User = User(level: nat, muzzled: bool, host: string, channels: seq<string>, invited: seq<string>)

  datatype World = World(users: map<string, User>, chans: map<string, Channel>)

  // --- Lists ------------------------------------------------------------------------------

  function Count(s: seq<string>, x: string): nat {
    if s == [] then 0 else
      var rest := Count(s[1..], x);
      if s[0] == x then rest + 1 else rest
  }

  function CountUser(ms: seq<Member>, u: string): nat {
    if ms == [] then 0 else
      var rest := CountUser(ms[1..], u);
      if ms[0].user == u then rest + 1 else rest
  }

  // list_delete: the first element equal to x goes.
  function Delete(s: seq<string>, x: string): seq<string> {
    if s == [] then []
    else if s[0] == x then s[1..]
    else [s[0]] + Delete(s[1..], x)
  }

  // channel_remove
  function DeleteUser(ms: seq<Member>, u: string): seq<Member> {
    if ms == [] then []
    else if ms[0].user == u then ms[1..]
    else [ms[0]] + DeleteUser(ms[1..], u)
  }

  lemma {:induction false} CountDelete(s: seq<string>, x: string, y: string)
    ensures Count(Delete(s, x), y) == if x == y && Count(s, y) > 0 then Count(s, y) - 1 else Count(s, y)
  {
    if s != [] {
      CountDelete(s[1..], x, y);
      if s[0] != x {
        assert Delete(s, x)[1..] == Delete(s[1..], x);
      }
    }
  }

  lemma {:induction false} CountDeleteUser(ms: seq<Member>, x: string, y: string)
    ensures CountUser(DeleteUser(ms, x), y)
         == if x == y && CountUser(ms, y) > 0 then CountUser(ms, y) - 1 else CountUser(ms, y)
  {
    if ms != [] {
      CountDeleteUser(ms[1..], x, y);
      if ms[0].user != x {
        assert DeleteUser(ms, x)[1..] == DeleteUser(ms[1..], x);
      }
    }
  }

  lemma {:induction false} CountIn(s: seq<string>, x: string)
    ensures Count(s, x) > 0 <==> x in s
  {
    if s != [] {
      CountIn(s[1..], x);
    }
  }

  lemma {:induction false} CountUserIn(ms: seq<Member>, u: string)
    ensures CountUser(ms, u) > 0 <==> exists m <- ms :: m.user == u
  {
    if ms != [] {
      CountUserIn(ms[1..], u);
    }
  }

  lemma {:induction false} DeleteKeeps(ms: seq<Member>, u: string)
    ensures forall m <- DeleteUser(ms, u) :: m in ms
    ensures |DeleteUser(ms, u)| == if CountUser(ms, u) > 0 then |ms| - 1 else |ms|
  {
    if ms != [] {
      DeleteKeeps(ms[1..], u);
    }
  }

  // --- The invariant ------------------------------------------------------------------------

  function ChannelsOf(w: World, u: string): seq<string> { if u in w.users then w.users[u].channels else [] }
  function InvitesOf(w: World, u: string): seq<string> { if u in w.users then w.users[u].invited else [] }
  function MembersOf(w: World, c: string): seq<Member> { if c in w.chans then w.chans[c].users else [] }
  function InvitedTo(w: World, c: string): seq<string> { if c in w.chans then w.chans[c].invited else [] }

  // User u's list names channel c exactly as often as c's list names u, and at most once. A
  // destroyed user or channel counts as an empty list, so nothing names it.
  predicate Twin(w: World, u: string, c: string) {
    && Count(ChannelsOf(w, u), c) == CountUser(MembersOf(w, c), u) <= 1
    && Count(InvitesOf(w, u), c) == Count(InvitedTo(w, c), u) <= 1
  }

  predicate MemberOk(m: Member, ops: seq<string>) {
    (m.op <==> m.user in ops) && !(m.voice && m.muzzled)
  }

  // A channel made by a user has a member; the operator flags repeat the operator list; nobody
  // is voiced and muzzled at once.
  predicate ChannelOk(ch: Channel) {
    && (ch.userMade ==> ch.users != [])
    && (forall m <- ch.users :: MemberOk(m, ch.ops))
    && (forall i, j :: 0 <= i < j < |ch.ops| ==> ch.ops[i] != ch.ops[j])
  }

  ghost predicate Twins(w: World) { forall u, c :: Twin(w, u, c) }

  predicate ChannelsOk(w: World) { forall c <- w.chans :: ChannelOk(w.chans[c]) }

  ghost predicate Sound(w: World) { Twins(w) && ChannelsOk(w) }

  // What the invariant says in plain words.
  lemma SoundMeans(w: World, u: string, c: string)
    requires Sound(w)
    ensures c in ChannelsOf(w, u) ==> u in w.users && c in w.chans && exists m <- w.chans[c].users :: m.user == u
    ensures (exists m <- MembersOf(w, c) :: m.user == u) ==> u in w.users && c in w.users[u].channels
    ensures c in InvitesOf(w, u) <==> u in InvitedTo(w, c)
    ensures c in InvitesOf(w, u) ==> u in w.users && c in w.chans
  {
    assert Twin(w, u, c);
    CountIn(ChannelsOf(w, u), c);
    CountUserIn(MembersOf(w, c), u);
    CountIn(InvitesOf(w, u), c);
    CountIn(InvitedTo(w, c), u);
  }

  ghost predicate On(w: World, u: string, c: string) { exists m <- MembersOf(w, c) :: m.user == u }

  // u is on channel c and his entry there has the operator flag.
  ghost predicate OpOn(w: World, u: string, c: string) { exists m <- MembersOf(w, c) :: m.user == u && m.op }

  lemma OnIs(w: World, u: string, c: string)
    requires Sound(w)
    ensures On(w, u, c) <==> c in ChannelsOf(w, u)
    ensures On(w, u, c) <==> Count(ChannelsOf(w, u), c) > 0
    ensures On(w, u, c) <==> CountUser(MembersOf(w, c), u) > 0
    ensures On(w, u, c) ==> u in w.users && c in w.chans
  {
    hide Count, CountUser;
    assert Twin(w, u, c);
    CountIn(ChannelsOf(w, u), c);
    CountUserIn(MembersOf(w, c), u);
  }

  // Worlds with the same channel lists but for one user and channel have the same people on every
  // channel but for this one.
  lemma OnFollows(w: World, after: World, u: string, c: string, now: bool)
    requires Sound(w) && Sound(after)
    requires forall v, d :: Count(ChannelsOf(after, v), d)
                         == if v == u && d == c then (if now then 1 else 0) else Count(ChannelsOf(w, v), d)
    ensures forall v, d :: On(after, v, d) <==> if v == u && d == c then now else On(w, v, d)
  {
    hide Sound, On, Count;
    forall v, d ensures On(after, v, d) <==> if v == u && d == c then now else On(w, v, d) {
      OnIs(w, v, d);
      OnIs(after, v, d);
    }
  }

  // --- Leaving --------------------------------------------------------------------------------

  // free_channel: everybody who is invited forgets the invitation.
  function Uninvited(users: map<string, User>, invited: seq<string>, c: string): (r: map<string, User>)
    ensures r.Keys == users.Keys
  {
    if invited == [] then users
    else
      var u := invited[0];
      var now := if u in users then users[u := users[u].(invited := Delete(users[u].invited, c))] else users;
      Uninvited(now, invited[1..], c)
  }

  function Destroyed(w: World, c: string): World {
    World(Uninvited(w.users, InvitedTo(w, c), c), w.chans - {c})
  }

  // part_channel: the channel's side of a departure.
  function Parted(w: World, c: string, u: string): World
    requires c in w.chans
  {
    var users := DeleteUser(w.chans[c].users, u);
    var now := w.(chans := w.chans[c := w.chans[c].(users := users)]);
    if users == [] && w.chans[c].userMade then Destroyed(now, c) else now
  }

  function WithChannels(w: World, u: string, channels: seq<string>): World
    requires u in w.users
  {
    w.(users := w.users[u := w.users[u].(channels := channels)])
  }

  // Both sides: what PART, KICK and CLEAR do to one member.
  function Left(w: World, u: string, c: string): World
    requires u in w.users && c in w.chans
  {
    Parted(WithChannels(w, u, Delete(w.users[u].channels, c)), c, u)
  }

  lemma {:induction false} UninvitedIs(users: map<string, User>, invited: seq<string>, c: string, u: string)
    requires u in users
    ensures var before, after := users[u], Uninvited(users, invited, c)[u];
      && after == before.(invited := after.invited)
      && forall x :: Count(after.invited, x)
          == if x != c then Count(before.invited, x)
             else if Count(before.invited, c) < Count(invited, u) then 0
             else Count(before.invited, c) - Count(invited, u)
    decreases invited
  {
    if invited != [] {
      var v := invited[0];
      var now := if v in users then users[v := users[v].(invited := Delete(users[v].invited, c))] else users;
      UninvitedIs(now, invited[1..], c, u);
      forall x
        ensures v == u ==> (Count(now[u].invited, x) ==
          if c == x && Count(users[u].invited, x) > 0 then Count(users[u].invited, x) - 1 else Count(users[u].invited, x))
      {
        CountDelete(users[u].invited, c, x);
      }
    }
  }

  lemma DestroyedTwin(w: World, c: string, u: string, d: string)
    requires Twin(w, u, d) && (c == d ==> CountUser(MembersOf(w, c), u) == 0) && c in w.chans
    ensures Twin(Destroyed(w, c), u, d)
  {
    hide Delete, Uninvited;
    if u in w.users {
      UninvitedIs(w.users, InvitedTo(w, c), c, u);
    }
    assert Twin(w, u, d);
  }

  lemma PartedTwin(w: World, c: string, u: string, v: string, d: string)
    requires c in w.chans && u in w.users && Twin(w, v, d) && Twin(w, u, c)
    ensures Twin(Left(w, u, c), v, d)
  {
    hide Delete, DeleteUser, Uninvited, Destroyed, Count, CountUser;
    var w1 := WithChannels(w, u, Delete(w.users[u].channels, c));
    var users := DeleteUser(w.chans[c].users, u);
    var w2 := w1.(chans := w1.chans[c := w1.chans[c].(users := users)]);
    CountDelete(w.users[u].channels, c, d);
    CountDeleteUser(w.chans[c].users, u, v);
    assert Twin(w2, v, d);
    if users == [] {
      NoneCounted(v);
      DestroyedTwin(w2, c, v, d);
    }
  }

  lemma NoneCounted(u: string)
    ensures CountUser([], u) == 0 && Count([], u) == 0
  {
  }

  lemma PartedOk(w: World, c: string, u: string)
    requires ChannelsOk(w) && c in w.chans && u in w.users
    ensures ChannelsOk(Left(w, u, c))
  {
    hide DeleteUser, Uninvited;
    DeleteKeeps(w.chans[c].users, u);
    var after := Left(w, u, c);
    forall d | d in after.chans ensures ChannelOk(after.chans[d]) {
      assert ChannelOk(w.chans[d]);
    }
  }

  // Leaving keeps the invariant, and takes nothing but this one membership: the channel goes
  // exactly when a user made it and nobody else is on it.
  lemma LeftIs(w: World, u: string, c: string)
    requires Sound(w) && u in w.users && c in w.chans
    ensures var after := Left(w, u, c);
      && Sound(after)
      && after.users.Keys == w.users.Keys
      && (forall v, d :: Count(ChannelsOf(after, v), d) == (if v == u && d == c then 0 else Count(ChannelsOf(w, v), d)))
      && (c !in after.chans <==> w.chans[c].userMade && DeleteUser(w.chans[c].users, u) == [])
      && after.chans - {c} == w.chans - {c}
      && (c in after.chans ==> after.chans[c] == w.chans[c].(users := DeleteUser(w.chans[c].users, u)))
      && (forall v, d :: Count(InvitesOf(after, v), d) == if d == c && c !in after.chans then 0 else Count(InvitesOf(w, v), d))
      && (forall v <- w.users :: after.users[v].level == w.users[v].level)
  {
    hide Delete, DeleteUser, Uninvited, Count, CountUser, ChannelsOk;
    var after := Left(w, u, c);
    assert Twin(w, u, c);
    forall v, d ensures Twin(after, v, d) {
      assert Twin(w, v, d);
      PartedTwin(w, c, u, v, d);
    }
    PartedOk(w, c, u);
    forall v, d
      ensures Count(ChannelsOf(after, v), d) == if v == u && d == c then 0 else Count(ChannelsOf(w, v), d)
    {
      assert Twin(w, v, d);
      LeftLists(w, u, c, v, d);
    }
    forall v | v in w.users ensures after.users[v].level == w.users[v].level {
      assert Twin(w, v, c);
      LeftLists(w, u, c, v, c);
    }
    forall v, d ensures Count(InvitesOf(after, v), d) == if d == c && c !in after.chans then 0 else Count(InvitesOf(w, v), d) {
      assert Twin(w, v, d);
      LeftInvites(w, u, c, v, d);
    }
  }

  lemma LeftInvites(w: World, u: string, c: string, v: string, d: string)
    requires u in w.users && c in w.chans && Twin(w, v, d)
    ensures var after := Left(w, u, c);
      Count(InvitesOf(after, v), d) == if d == c && c !in after.chans then 0 else Count(InvitesOf(w, v), d)
  {
    hide Delete, DeleteUser, Uninvited, Count, CountUser;
    var w1 := WithChannels(w, u, Delete(w.users[u].channels, c));
    if v in w.users {
      UninvitedIs(w1.users, InvitedTo(w1, c), c, v);
    }
    NoneCounted(d);
  }

  lemma LeftLists(w: World, u: string, c: string, v: string, d: string)
    requires u in w.users && c in w.chans && Twin(w, v, d) && Twin(w, u, c)
    ensures var after := Left(w, u, c);
      && Count(ChannelsOf(after, v), d) == (if v == u && d == c then 0 else Count(ChannelsOf(w, v), d))
      && (v in w.users ==> after.users[v].level == w.users[v].level)
  {
    hide Delete, DeleteUser, Uninvited, Count, CountUser;
    CountDelete(w.users[u].channels, c, d);
    var w1 := WithChannels(w, u, Delete(w.users[u].channels, c));
    if v in w.users {
      UninvitedIs(w1.users, InvitedTo(w1, c), c, v);
    }
  }

  // --- Entering -------------------------------------------------------------------------------

  function Fresh(limit: nat): Channel {
    Channel([], [], [], [], true, false, limit, LEVEL_USER)
  }

  // list_delete on both sides of an invitation.
  function WithoutInvite(w: World, u: string, c: string): World
    requires u in w.users && c in w.chans
  {
    World(w.users[u := w.users[u].(invited := Delete(w.users[u].invited, c))],
          w.chans[c := w.chans[c].(invited := Delete(w.chans[c].invited, u))])
  }

  // The end of join: the invitation is used up, both lists get the new membership in front.
  function Entered(w: World, u: string, c: string): World
    requires u in w.users && c in w.chans
  {
    var w1 := if w.chans[c].inviteOnly then WithoutInvite(w, u, c) else w;
    World(w1.users[u := w1.users[u].(channels := [c] + w1.users[u].channels)],
          w1.chans[c := w1.chans[c].(users := [Member(u, u in w.chans[c].ops, false, false)] + w1.chans[c].users)])
  }

  lemma WithoutInviteTwin(w: World, u: string, c: string, v: string, d: string)
    requires u in w.users && c in w.chans && Twin(w, v, d) && Twin(w, u, c)
    ensures var after := WithoutInvite(w, u, c);
      && Twin(after, v, d) && after.users.Keys == w.users.Keys && after.chans.Keys == w.chans.Keys
      && after.users[u].channels == w.users[u].channels && after.chans[c].users == w.chans[c].users
  {
    hide Delete, Count, CountUser;
    CountDelete(w.users[u].invited, c, d);
    CountDelete(w.chans[c].invited, u, v);
  }

  lemma EnteredTwin(w: World, u: string, c: string, v: string, d: string)
    requires u in w.users && c in w.chans && Twin(w, v, d) && Twin(w, u, c) && c !in w.users[u].channels
    ensures Twin(Entered(w, u, c), v, d)
  {
    hide Delete, Count, CountUser, WithoutInvite;
    CountIn(w.users[u].channels, c);
    var w1 := if w.chans[c].inviteOnly then WithoutInvite(w, u, c) else w;
    if w.chans[c].inviteOnly {
      WithoutInviteTwin(w, u, c, v, d);
    }
    InFront(c, w1.users[u].channels, d);
    UserInFront(Member(u, u in w.chans[c].ops, false, false), w1.chans[c].users, v);
  }

  lemma InFront(c: string, s: seq<string>, x: string)
    ensures Count([c] + s, x) == if c == x then Count(s, x) + 1 else Count(s, x)
  {
    assert ([c] + s)[1..] == s;
  }

  lemma UserInFront(m: Member, ms: seq<Member>, x: string)
    ensures CountUser([m] + ms, x) == if m.user == x then CountUser(ms, x) + 1 else CountUser(ms, x)
  {
    assert ([m] + ms)[1..] == ms;
  }

  // c may be a channel made this moment, still without a member.
  lemma EnteredIs(w: World, u: string, c: string)
    requires Twins(w) && u in w.users && c in w.chans && c !in w.users[u].channels
    requires ChannelOk(w.chans[c].(userMade := false)) && forall d <- w.chans :: d != c ==> ChannelOk(w.chans[d])
    ensures var after := Entered(w, u, c);
      && Sound(after)
      && after.users.Keys == w.users.Keys && after.chans.Keys == w.chans.Keys
      && (forall v, d :: Count(ChannelsOf(after, v), d) == (if v == u && d == c then 1 else Count(ChannelsOf(w, v), d)))
      && (forall v, d :: Count(InvitesOf(after, v), d)
            == if v == u && d == c && w.chans[c].inviteOnly then 0 else Count(InvitesOf(w, v), d))
      && after.chans - {c} == w.chans - {c}
      && after.chans[c] == w.chans[c].(users := [Member(u, u in w.chans[c].ops, false, false)] + w.chans[c].users,
                                       invited := after.chans[c].invited)
  {
    hide Delete, Count, CountUser, Twin;
    var after := Entered(w, u, c);
    InvitesEntered(w, u, c);
    assert Twin(w, u, c);
    forall v, d ensures Twin(after, v, d) {
      assert Twin(w, v, d);
      EnteredTwin(w, u, c, v, d);
    }
    forall d | d in after.chans ensures ChannelOk(after.chans[d]) {
      if d != c {
        assert after.chans[d] == w.chans[d];
      }
    }
    CountIn(w.users[u].channels, c);
    forall v, d ensures Count(ChannelsOf(after, v), d) == if v == u && d == c then 1 else Count(ChannelsOf(w, v), d) {
      InFront(c, w.users[u].channels, d);
    }
  }

  lemma InvitesEntered(w: World, u: string, c: string)
    requires Twins(w) && u in w.users && c in w.chans
    ensures forall v, d :: Count(InvitesOf(Entered(w, u, c), v), d)
              == if v == u && d == c && w.chans[c].inviteOnly then 0 else Count(InvitesOf(w, v), d)
  {
    hide Delete, Count, CountUser;
    assert Twin(w, u, c);
    forall d ensures Count(Delete(w.users[u].invited, c), d) == if d == c then 0 else Count(w.users[u].invited, d) {
      CountDelete(w.users[u].invited, c, d);
    }
  }

  // --- Inviting -------------------------------------------------------------------------------

  function Invited(w: World, u: string, c: string): World
    requires u in w.users && c in w.chans
  {
    World(w.users[u := w.users[u].(invited := [c] + w.users[u].invited)],
          w.chans[c := w.chans[c].(invited := [u] + w.chans[c].invited)])
  }

  lemma InvitedIs(w: World, u: string, c: string)
    requires Sound(w) && u in w.users && c in w.chans && c !in w.users[u].invited
    ensures var after := Invited(w, u, c);
      && Sound(after)
      && (forall v, d :: Count(InvitesOf(after, v), d) == if v == u && d == c then 1 else Count(InvitesOf(w, v), d))
      && (forall v, d :: ChannelsOf(after, v) == ChannelsOf(w, v) && MembersOf(after, d) == MembersOf(w, d))
  {
    hide Count, CountUser, Delete;
    var after := Invited(w, u, c);
    CountIn(w.users[u].invited, c);
    assert Twin(w, u, c);
    forall v, d ensures Twin(after, v, d) {
      assert Twin(w, v, d);
      InFront(c, w.users[u].invited, d);
      InFront(u, w.chans[c].invited, v);
    }
    forall d ensures Count(after.users[u].invited, d) == if d == c then 1 else Count(w.users[u].invited, d) {
      InFront(c, w.users[u].invited, d);
    }
    forall d | d in after.chans ensures ChannelOk(after.chans[d]) {
      assert ChannelOk(w.chans[d]);
    }
  }

  // --- Operators, voices and muzzles ------------------------------------------------------------

  datatype Mark = GiveOp | TakeOp | Voice | Unvoice | Muzzle | Unmuzzle

  function Marked(m: Member, k: Mark): Member {
    match k
    case GiveOp => m.(op := true)
    case TakeOp => m.(op := false)
    case Voice => m.(voice := true, muzzled := false)
    case Unvoice => m.(voice := false)
    case Muzzle => m.(muzzled := true, voice := false)
    case Unmuzzle => m.(muzzled := false)
  }

  // The first entry of user u is marked.
  function MarkUser(ms: seq<Member>, u: string, k: Mark): (r: seq<Member>)
    ensures |r| == |ms|
  {
    if ms == [] then []
    else if ms[0].user == u then [Marked(ms[0], k)] + ms[1..]
    else [ms[0]] + MarkUser(ms[1..], u, k)
  }

  lemma {:induction false} MarkUserIs(ms: seq<Member>, u: string, k: Mark)
    requires CountUser(ms, u) <= 1
    ensures forall i :: 0 <= i < |ms| ==> MarkUser(ms, u, k)[i] == if ms[i].user == u then Marked(ms[i], k) else ms[i]
    ensures forall v :: CountUser(MarkUser(ms, u, k), v) == CountUser(ms, v)
  {
    if ms != [] {
      if ms[0].user == u {
        CountUserIn(ms[1..], u);
        forall v ensures CountUser(MarkUser(ms, u, k), v) == CountUser(ms, v) {
          UserInFront(Marked(ms[0], k), ms[1..], v);
        }
      } else {
        MarkUserIs(ms[1..], u, k);
        forall v ensures CountUser(MarkUser(ms, u, k), v) == CountUser(ms, v) {
          UserInFront(ms[0], MarkUser(ms[1..], u, k), v);
        }
      }
    }
  }

  lemma {:induction false} MarkAt(ms: seq<Member>, u: string, k: Mark, i: nat)
    requires i <= |ms| && (i < |ms| ==> ms[i].user == u) && forall j :: 0 <= j < i ==> ms[j].user != u
    ensures MarkUser(ms, u, k) == if i == |ms| then ms else ms[i := Marked(ms[i], k)]
  {
    hide Marked;
    if i > 0 {
      MarkAt(ms[1..], u, k, i - 1);
      assert ms == [ms[0]] + ms[1..];
    } else if ms != [] {
      assert ms[0 := Marked(ms[0], k)] == [Marked(ms[0], k)] + ms[1..];
    }
  }

  function WithUsers(w: World, c: string, ms: seq<Member>): World
    requires c in w.chans
  {
    w.(chans := w.chans[c := w.chans[c].(users := ms)])
  }

  // A channel of w with the same people on it and other flags.
  lemma SamePeople(w: World, c: string, ch: Channel)
    requires Sound(w) && c in w.chans && ch.invited == w.chans[c].invited && ChannelOk(ch)
    requires forall v :: CountUser(ch.users, v) == CountUser(w.chans[c].users, v)
    ensures Sound(w.(chans := w.chans[c := ch]))
  {
    hide Count, CountUser;
    var after := w.(chans := w.chans[c := ch]);
    forall v, d ensures Twin(after, v, d) {
      assert Twin(w, v, d);
    }
    forall d | d in after.chans ensures ChannelOk(after.chans[d]) {
      if d != c {
        assert ChannelOk(w.chans[d]);
      }
    }
  }

  lemma MarkedIs(w: World, u: string, c: string, k: Mark)
    requires Sound(w) && c in w.chans && k != GiveOp && k != TakeOp
    ensures Sound(WithUsers(w, c, MarkUser(w.chans[c].users, u, k)))
    ensures var ms, after := w.chans[c].users, MarkUser(w.chans[c].users, u, k);
      |after| == |ms| && forall i :: 0 <= i < |ms| ==>
        after[i] == if ms[i].user != u then ms[i]
                    else ms[i].(voice := k == Voice || (k == Unmuzzle && ms[i].voice),
                                muzzled := k == Muzzle || (k == Unvoice && ms[i].muzzled))
  {
    hide Count, CountUser, MarkUser;
    var ch := w.chans[c];
    assert Twin(w, u, c) && ChannelOk(ch);
    MarkUserIs(ch.users, u, k);
    var ms := MarkUser(ch.users, u, k);
    forall m | m in ms ensures MemberOk(m, ch.ops) {
      var i :| 0 <= i < |ms| && ms[i] == m;
      assert MemberOk(ch.users[i], ch.ops);
    }
    SamePeople(w, c, ch.(users := MarkUser(ch.users, u, k)));
  }

  // channel_op for one nick that is not yet on the operator list.
  function OpGiven(ch: Channel, u: string, online: bool): Channel {
    ch.(ops := ch.ops + [u], userMade := false, users := if online then MarkUser(ch.users, u, GiveOp) else ch.users)
  }

  // channel_op for one nick that is on it.
  function OpTaken(ch: Channel, u: string, online: bool): Channel {
    ch.(ops := Delete(ch.ops, u), users := if online then MarkUser(ch.users, u, TakeOp) else ch.users)
  }

  function OpChanged(w: World, c: string, u: string, give: bool): World {
    if c !in w.chans || give == (u in w.chans[c].ops) then w
    else
      var ch := if give then OpGiven(w.chans[c], u, u in w.users) else OpTaken(w.chans[c], u, u in w.users);
      w.(chans := w.chans[c := ch])
  }

  lemma {:induction false} DeleteIs(s: seq<string>, x: string)
    requires forall i, j :: 0 <= i < j < |s| ==> s[i] != s[j]
    ensures forall y :: y in Delete(s, x) <==> y in s && y != x
    ensures forall i, j :: 0 <= i < j < |Delete(s, x)| ==> Delete(s, x)[i] != Delete(s, x)[j]
  {
    if s != [] {
      var t := s[1..];
      assert s[0] !in t;
      DeleteIs(t, x);
      if s[0] != x {
        assert forall y :: y in Delete(s, x) <==> y == s[0] || y in Delete(t, x);
      }
    }
  }

  // Everybody of that nick gets or loses the flag; nobody of that nick is there while it is offline.
  lemma OpMembers(ms: seq<Member>, u: string, online: bool, give: bool)
    requires CountUser(ms, u) <= 1 && (!online ==> CountUser(ms, u) == 0)
    ensures var k := if give then GiveOp else TakeOp; var r := if online then MarkUser(ms, u, k) else ms;
      && |r| == |ms|
      && (forall i :: 0 <= i < |ms| ==> r[i] == if ms[i].user == u then Marked(ms[i], k) else ms[i])
      && (forall v :: CountUser(r, v) == CountUser(ms, v))
  {
    if online {
      MarkUserIs(ms, u, if give then GiveOp else TakeOp);
    } else {
      CountUserIn(ms, u);
      forall i | 0 <= i < |ms| ensures ms[i].user != u {
        assert ms[i] in ms;
      }
    }
  }

  lemma FlagsAreOps(w: World, c: string)
    requires ChannelsOk(w) && c in w.chans
    ensures var ch := w.chans[c]; ChannelOk(ch)
    ensures var ch := w.chans[c]; forall i :: 0 <= i < |ch.users| ==> (ch.users[i].op <==> ch.users[i].user in ch.ops)
  {
    var ch := w.chans[c];
    forall i | 0 <= i < |ch.users| ensures ch.users[i].op <==> ch.users[i].user in ch.ops {
      assert MemberOk(ch.users[i], ch.ops);
    }
  }

  lemma OpOnce(w: World, u: string, c: string)
    requires Twins(w)
    ensures CountUser(MembersOf(w, c), u) <= 1 && (u !in w.users ==> CountUser(MembersOf(w, c), u) == 0)
  {
    assert Twin(w, u, c);
    NoneCounted(c);
  }

  lemma OpChangedIs(w: World, c: string, u: string, give: bool)
    requires Sound(w)
    ensures Sound(OpChanged(w, c, u, give))
  {
    hide Count, CountUser, MarkUser, Delete, Twin;
    if c in w.chans && give != (u in w.chans[c].ops) {
      var ch := w.chans[c];
      OpOnce(w, u, c);
      FlagsAreOps(w, c);
      DeleteIs(ch.ops, u);
      OpMembers(ch.users, u, u in w.users, give);
      var after := OpChanged(w, c, u, give).chans[c];
      forall m | m in after.users ensures MemberOk(m, after.ops) {
        var i :| 0 <= i < |after.users| && after.users[i] == m;
        assert MemberOk(ch.users[i], ch.ops);
      }
      SamePeople(w, c, after);
    }
  }

  // Only the operator list changes, by this one nick, and the flags that follow it; a channel that is
  // given an operator is kept for good.
  lemma OpChangesOnly(w: World, c: string, u: string, give: bool)
    requires Sound(w) && c in w.chans
    ensures var after := OpChanged(w, c, u, give);
      after.users == w.users && after.chans.Keys == w.chans.Keys && after.chans - {c} == w.chans - {c}
    ensures var was, now := w.chans[c], OpChanged(w, c, u, give).chans[c];
      && (forall v :: v in now.ops <==> if v == u then give else v in was.ops)
      && |now.users| == |was.users|
      && (forall i :: 0 <= i < |was.users| ==> now.users[i] == was.users[i].(op := now.users[i].op))
      && now == was.(users := now.users, ops := now.ops, userMade := was.userMade && !(give && u !in was.ops))
  {
    hide Count, CountUser, MarkUser, Delete, Twin;
    OpOnce(w, u, c);
    FlagsAreOps(w, c);
    DeleteIs(w.chans[c].ops, u);
    OpMembers(w.chans[c].users, u, u in w.users, give);
  }

  // channel_drop of a registered channel.
  function Dropped(w: World, c: string): World
    requires c in w.chans
  {
    if w.chans[c].users == [] then Destroyed(w, c) else w.(chans := w.chans[c := w.chans[c].(userMade := true)])
  }

  lemma DroppedIs(w: World, c: string)
    requires Sound(w) && c in w.chans
    ensures var after := Dropped(w, c);
      && Sound(after)
      && (c !in after.chans <==> MembersOf(w, c) == []) && after.chans - {c} == w.chans - {c}
      && (c in after.chans ==> after.chans[c].userMade && after.chans[c].users == w.chans[c].users)
      && (forall v :: ChannelsOf(after, v) == ChannelsOf(w, v))
      && (forall v, d :: Count(InvitesOf(after, v), d) == if d == c && c !in after.chans then 0 else Count(InvitesOf(w, v), d))
  {
    hide Count, CountUser, Uninvited;
    if w.chans[c].users == [] {
      var after := Destroyed(w, c);
      forall v, d ensures Twin(after, v, d) {
        assert Twin(w, v, d);
        NoneCounted(v);
        DestroyedTwin(w, c, v, d);
      }
      forall v ensures ChannelsOf(after, v) == ChannelsOf(w, v) {
        if v in w.users {
          UninvitedIs(w.users, InvitedTo(w, c), c, v);
        }
      }
      forall v, d ensures Count(InvitesOf(after, v), d) == if d == c then 0 else Count(InvitesOf(w, v), d) {
        assert Twin(w, v, c);
        NoneCounted(d);
        if v in w.users {
          UninvitedIs(w.users, InvitedTo(w, c), c, v);
        }
      }
      forall d | d in after.chans ensures ChannelOk(after.chans[d]) {
        assert ChannelOk(w.chans[d]);
      }
    } else {
      assert ChannelOk(w.chans[c]);
      SamePeople(w, c, w.chans[c].(userMade := true));
    }
  }

  // --- Kicking and clearing -------------------------------------------------------------------------

  // is_chanop: the flag of the user's first entry.
  function IsChanop(ms: seq<Member>, u: string): bool {
    if ms == [] then false else if ms[0].user == u then ms[0].op else IsChanop(ms[1..], u)
  }

  lemma {:induction false} ChanopIn(ms: seq<Member>, u: string)
    requires CountUser(ms, u) <= 1
    ensures IsChanop(ms, u) <==> exists m <- ms :: m.user == u && m.op
  {
    if ms != [] {
      CountUserIn(ms[1..], u);
      if ms[0].user != u {
        ChanopIn(ms[1..], u);
      }
    }
  }

  lemma ChanopIs(w: World, u: string, c: string)
    requires Sound(w)
    ensures IsChanop(MembersOf(w, c), u) <==> OpOn(w, u, c)
  {
    hide CountUser, IsChanop;
    assert Twin(w, u, c);
    ChanopIn(MembersOf(w, c), u);
  }

  predicate CanKick(users: map<string, User>, chanop: bool, sender: string, user: string)
    requires sender in users && user in users
  {
    || users[sender].level == LEVEL_ELITE || users[sender].level > users[user].level
    || (chanop && users[sender].level == users[user].level)
  }

  predicate Clears(w: World, chanop: bool, sender: string, user: string) {
    sender in w.users && user in w.users && user != sender && CanKick(w.users, chanop, sender, user)
  }

  // clear_channel, from one list element to the next; a departure may destroy the channel.
  function Cleared(w: World, c: string, chanop: bool, sender: string, ms: seq<Member>): World
    decreases |ms|
  {
    if ms == [] then w
    else
      var gone := Clears(w, chanop, sender, ms[0].user) && c in w.chans;
      Cleared(if gone then Left(w, ms[0].user, c) else w, c, chanop, sender, ms[1..])
  }

  function Remaining(w: World, chanop: bool, sender: string, ms: seq<Member>): seq<Member> {
    if ms == [] then []
    else
      var rest := Remaining(w, chanop, sender, ms[1..]);
      if Clears(w, chanop, sender, ms[0].user) then rest else [ms[0]] + rest
  }

  lemma {:induction false} DeleteInside(kept: seq<Member>, m: Member, rest: seq<Member>)
    requires CountUser(kept + [m] + rest, m.user) <= 1
    ensures DeleteUser(kept + [m] + rest, m.user) == kept + rest
  {
    var s := kept + [m] + rest;
    if kept == [] {
      assert s[1..] == rest;
    } else {
      assert s[1..] == kept[1..] + [m] + rest;
      CountUserIn(s[1..], m.user);
      assert m in s[1..];
      DeleteInside(kept[1..], m, rest);
    }
  }

  lemma {:induction false} SameLevels(w: World, after: World, chanop: bool, sender: string, ms: seq<Member>)
    requires after.users.Keys == w.users.Keys && forall v <- w.users :: after.users[v].level == w.users[v].level
    ensures Remaining(after, chanop, sender, ms) == Remaining(w, chanop, sender, ms)
  {
    if ms != [] {
      SameLevels(w, after, chanop, sender, ms[1..]);
    }
  }

  lemma {:induction false} ChanopStays(ms: seq<Member>, u: string, sender: string)
    requires u != sender
    ensures IsChanop(DeleteUser(ms, u), sender) == IsChanop(ms, sender)
  {
    if ms != [] {
      ChanopStays(ms[1..], u, sender);
      if ms[0].user != u {
        assert DeleteUser(ms, u)[1..] == DeleteUser(ms[1..], u);
      }
    }
  }

  lemma NoneRemain(w: World, chanop: bool, sender: string)
    ensures Remaining(w, chanop, sender, []) == []
  {
  }

  lemma RemainsOf(w: World, chanop: bool, sender: string, ms: seq<Member>)
    requires ms != []
    ensures var rest := Remaining(w, chanop, sender, ms[1..]);
      Remaining(w, chanop, sender, ms) == if Clears(w, chanop, sender, ms[0].user) then rest else [ms[0]] + rest
  {
  }

  lemma OnceOnly(w: World, u: string, c: string)
    requires Twins(w)
    ensures CountUser(MembersOf(w, c), u) <= 1
  {
    assert Twin(w, u, c);
  }

  lemma OneMore<T>(kept: seq<T>, ms: seq<T>)
    requires ms != []
    ensures kept + ms == kept + [ms[0]] + ms[1..]
  {
  }

  // One turn of clear_channel's loop that kicks somebody.
  lemma KickedFrom(w: World, c: string, sender: string, kept: seq<Member>, ms: seq<Member>)
    requires Sound(w) && ms != [] && MembersOf(w, c) == kept + ms && ms[0].user != sender
    ensures var u := ms[0].user; u in w.users && c in w.chans && MembersOf(Left(w, u, c), c) == kept + ms[1..]
    ensures IsChanop(kept + ms[1..], sender) == IsChanop(kept + ms, sender)
  {
    hide Delete, Uninvited, Count, CountUser, Twin, DeleteUser;
    var u := ms[0].user;
    assert c in w.chans;
    assert ms[0] in MembersOf(w, c) by { assert (kept + ms)[|kept|] == ms[0]; }
    SoundMeans(w, u, c);
    LeftIs(w, u, c);
    assert kept + [ms[0]] + ms[1..] == kept + ms;
    OnceOnly(w, u, c);
    DeleteInside(kept, ms[0], ms[1..]);
    ChanopStays(kept + ms, u, sender);
  }

  // Whoever can be kicked is gone, everybody else keeps his place.
  lemma {:induction false} ClearedIs(w: World, c: string, chanop: bool, sender: string, kept: seq<Member>, ms: seq<Member>)
    requires Sound(w) && MembersOf(w, c) == kept + ms
    ensures var after := Cleared(w, c, chanop, sender, ms);
      && Sound(after)
      && MembersOf(after, c) == kept + Remaining(w, chanop, sender, ms)
      && after.users.Keys == w.users.Keys
      && (c in w.chans ==> (c !in after.chans <==> w.chans[c].userMade && MembersOf(after, c) == []))
    decreases |ms|
  {
    hide Delete, DeleteUser, Uninvited, Count, CountUser, Twin, CanKick, Left, Remaining;
    if ms == [] {
      assert kept + ms == kept;
      NoneRemain(w, chanop, sender);
      assert c in w.chans ==> ChannelOk(w.chans[c]);
    } else {
      var u := ms[0].user;
      var rest := ms[1..];
      RemainsOf(w, chanop, sender, ms);
      assert c in w.chans;
      if Clears(w, chanop, sender, u) {
        var after := Left(w, u, c);
        LeftIs(w, u, c);
        KickedFrom(w, c, sender, kept, ms);
        SameLevels(w, after, chanop, sender, rest);
        ClearedIs(after, c, chanop, sender, kept, rest);
      } else {
        assert kept + ms == kept + [ms[0]] + rest;
        ClearedIs(w, c, chanop, sender, kept + [ms[0]], rest);
        assert kept + [ms[0]] + Remaining(w, chanop, sender, rest) == kept + Remaining(w, chanop, sender, ms);
      }
    }
  }

  lemma {:induction false} RemainingIs(w: World, chanop: bool, sender: string, ms: seq<Member>)
    ensures forall m :: m in Remaining(w, chanop, sender, ms) <==> m in ms && !Clears(w, chanop, sender, m.user)
  {
    hide Clears;
    if ms != [] {
      RemainingIs(w, chanop, sender, ms[1..]);
    }
  }

  // Clearing a channel takes nobody off another one.
  lemma {:induction false} ClearedElsewhere(w: World, c: string, chanop: bool, sender: string, ms: seq<Member>)
    requires Sound(w)
    ensures forall v, d :: d != c ==> (On(Cleared(w, c, chanop, sender, ms), v, d) <==> On(w, v, d))
    decreases |ms|
  {
    hide On, Sound, Left;
    if ms != [] {
      var gone := Clears(w, chanop, sender, ms[0].user) && c in w.chans;
      var next := if gone then Left(w, ms[0].user, c) else w;
      if gone {
        LeftIs(w, ms[0].user, c);
        OnFollows(w, next, ms[0].user, c, false);
      }
      ClearedElsewhere(next, c, chanop, sender, ms[1..]);
    }
  }

  // --- Going offline ----------------------------------------------------------------------------------

  // free_user: part every channel of the list, which itself stays as it is.
  function PartedAll(w: World, u: string, channels: seq<string>): World
    decreases |channels|
  {
    if channels == [] then w
    else PartedAll(if channels[0] in w.chans then Parted(w, channels[0], u) else w, u, channels[1..])
  }

  // free_user: every channel the user is invited to forgets him.
  function Forgotten(chans: map<string, Channel>, u: string, invited: seq<string>): (r: map<string, Channel>)
    ensures r.Keys == chans.Keys
    decreases |invited|
  {
    if invited == [] then chans
    else
      var c := invited[0];
      var now := if c in chans then chans[c := chans[c].(invited := Delete(chans[c].invited, u))] else chans;
      Forgotten(now, u, invited[1..])
  }

  function Quit(w: World, u: string): World
    requires u in w.users
  {
    var parted := PartedAll(w, u, w.users[u].channels);
    World(parted.users - {u}, Forgotten(parted.chans, u, InvitesOf(parted, u)))
  }

  // Parting does not look at the leaver's own channel list.
  lemma {:induction false} UninvitedApart(users: map<string, User>, invited: seq<string>, c: string, u: string, cs: seq<string>)
    requires u in users
    ensures Uninvited(users[u := users[u].(channels := cs)], invited, c)
         == Uninvited(users, invited, c)[u := Uninvited(users, invited, c)[u].(channels := cs)]
    decreases |invited|
  {
    if invited != [] {
      var v := invited[0];
      var now := if v in users then users[v := users[v].(invited := Delete(users[v].invited, c))] else users;
      UninvitedApart(now, invited[1..], c, u, cs);
      var other := users[u := users[u].(channels := cs)];
      assert v in users ==> other[v := other[v].(invited := Delete(other[v].invited, c))] == now[u := now[u].(channels := cs)];
    }
  }

  lemma PartedApart(w: World, c: string, u: string, cs: seq<string>)
    requires c in w.chans && u in w.users
    ensures u in Parted(w, c, u).users
    ensures Parted(WithChannels(w, u, cs), c, u) == WithChannels(Parted(w, c, u), u, cs)
  {
    hide DeleteUser;
    UninvitedApart(w.users, w.chans[c].invited, c, u, cs);
  }

  // Channel d outlives the departure of u.
  predicate Outlives(w: World, d: string, u: string) {
    d in w.chans && !(w.chans[d].userMade && DeleteUser(w.chans[d].users, u) == [])
  }

  lemma StillOutlives(w: World, c: string, u: string, d: string)
    requires Sound(w) && u in w.users && c in w.chans
    ensures Outlives(Left(w, u, c), d, u) <==> Outlives(w, d, u)
  {
    hide Delete, Uninvited, Count, CountUser;
    var after := Left(w, u, c);
    LeftIs(w, u, c);
    if d == c && c in after.chans {
      var ms := DeleteUser(w.chans[c].users, u);
      assert ChannelOk(after.chans[c]);
      CountDeleteUser(w.chans[c].users, u, u);
      OnceOnly(w, u, c);
      DeleteKeeps(ms, u);
      assert DeleteUser(ms, u) == [] <==> ms == [];
    } else if d != c {
      assert d in w.chans ==> d in w.chans - {c};
      assert d in after.chans ==> d in after.chans - {c};
    }
  }

  lemma {:induction false} PartedAllIs(w: World, u: string, rest: seq<string>)
    requires u in w.users && Sound(WithChannels(w, u, rest))
    ensures var after := PartedAll(w, u, rest);
      && u in after.users && Sound(WithChannels(after, u, []))
      && after.users.Keys == w.users.Keys
      && (forall v, d :: v != u ==> Count(ChannelsOf(after, v), d) == Count(ChannelsOf(w, v), d))
      && (forall d :: d in after.chans <==> Outlives(w, d, u))
    decreases |rest|
  {
    hide Parted, Delete, DeleteUser, Uninvited, CountUser, Twin, Outlives, Count;
    var seen := WithChannels(w, u, rest);
    if rest == [] {
      NobodyLeaves(w, u);
    } else {
      var c, r := rest[0], rest[1..];
      SoundMeans(seen, u, c);
      assert c in w.chans;
      var now := Parted(w, c, u);
      PartedApart(w, c, u, r);
      assert Delete(rest, c) == r by { DeleteFirst(rest); }
      assert WithChannels(seen, u, r) == WithChannels(w, u, r);
      assert Left(seen, u, c) == WithChannels(now, u, r);
      LeftIs(seen, u, c);
      assert now.users.Keys == w.users.Keys by {
        assert WithChannels(now, u, r).users.Keys == now.users.Keys && seen.users.Keys == w.users.Keys;
      }
      forall v, d | v != u ensures Count(ChannelsOf(now, v), d) == Count(ChannelsOf(w, v), d) {
        assert ChannelsOf(Left(seen, u, c), v) == ChannelsOf(now, v) && ChannelsOf(seen, v) == ChannelsOf(w, v);
      }
      forall d ensures Outlives(now, d, u) <==> Outlives(w, d, u) {
        StillOutlives(seen, c, u, d);
        OutlivesApart(w, d, u, rest);
        OutlivesApart(now, d, u, r);
      }
      PartedAllIs(now, u, r);
    }
  }

  lemma DeleteFirst(s: seq<string>)
    requires s != []
    ensures Delete(s, s[0]) == s[1..]
  {
  }

  lemma OutlivesApart(w: World, d: string, u: string, cs: seq<string>)
    requires u in w.users
    ensures Outlives(WithChannels(w, u, cs), d, u) <==> Outlives(w, d, u)
  {
  }

  lemma NobodyLeaves(w: World, u: string)
    requires u in w.users && Sound(WithChannels(w, u, []))
    ensures forall d :: d in w.chans <==> Outlives(w, d, u)
  {
    hide Count, CountUser, DeleteUser;
    var seen := WithChannels(w, u, []);
    forall d ensures d in w.chans <==> Outlives(w, d, u) {
      if d in w.chans {
        assert Twin(seen, u, d) && ChannelOk(seen.chans[d]);
        NoneCounted(d);
        DeleteKeeps(w.chans[d].users, u);
      }
    }
  }

  lemma {:induction false} ForgottenIs(chans: map<string, Channel>, u: string, invited: seq<string>, d: string)
    requires d in chans
    ensures var before, after := chans[d], Forgotten(chans, u, invited)[d];
      && after == before.(invited := after.invited)
      && forall x :: Count(after.invited, x)
          == if x != u then Count(before.invited, x)
             else if Count(before.invited, u) < Count(invited, d) then 0
             else Count(before.invited, u) - Count(invited, d)
    decreases |invited|
  {
    if invited != [] {
      var c := invited[0];
      var now := if c in chans then chans[c := chans[c].(invited := Delete(chans[c].invited, u))] else chans;
      ForgottenIs(now, u, invited[1..], d);
      forall x
        ensures c == d ==> (Count(now[d].invited, x) ==
          if u == x && Count(chans[d].invited, x) > 0 then Count(chans[d].invited, x) - 1 else Count(chans[d].invited, x))
      {
        CountDelete(chans[d].invited, u, x);
      }
    }
  }

  lemma QuitTwin(w: World, u: string, v: string, d: string)
    requires u in w.users && Twin(WithChannels(w, u, []), v, d)
    ensures Twin(World(w.users - {u}, Forgotten(w.chans, u, InvitesOf(w, u))), v, d)
  {
    hide Count, CountUser, Forgotten;
    var seen := WithChannels(w, u, []);
    var after := World(w.users - {u}, Forgotten(w.chans, u, InvitesOf(w, u)));
    NoneCounted(d);
    NoneCounted(v);
    assert InvitesOf(seen, v) == InvitesOf(w, v) && InvitedTo(seen, d) == InvitedTo(w, d);
    if d in w.chans {
      ForgottenIs(w.chans, u, InvitesOf(w, u), d);
    }
    assert MembersOf(after, d) == MembersOf(w, d);
    if v == u {
      assert ChannelsOf(after, v) == [] && InvitesOf(after, v) == [];
    } else {
      assert ChannelsOf(after, v) == ChannelsOf(seen, v) && InvitesOf(after, v) == InvitesOf(w, v);
    }
  }

  // A departure takes the user, the channels he made and was alone on, and nothing of anybody else's.
  lemma QuitIs(w: World, u: string)
    requires Sound(w) && u in w.users
    ensures var after := Quit(w, u);
      && Sound(after)
      && after.users.Keys == w.users.Keys - {u}
      && (forall v, d :: v != u ==> Count(ChannelsOf(after, v), d) == Count(ChannelsOf(w, v), d))
      && (forall d :: d in after.chans <==> Outlives(w, d, u))
  {
    hide PartedAll, Forgotten, Outlives, Twin, Count, CountUser;
    var parted := PartedAll(w, u, w.users[u].channels);
    assert WithChannels(w, u, w.users[u].channels) == w;
    PartedAllIs(w, u, w.users[u].channels);
    var after := Quit(w, u);
    forall v, d ensures Twin(after, v, d) {
      assert Twin(WithChannels(parted, u, []), v, d);
      QuitTwin(parted, u, v, d);
    }
    forall d | d in after.chans ensures ChannelOk(after.chans[d]) {
      assert ChannelOk(WithChannels(parted, u, []).chans[d]);
      ForgottenIs(parted.chans, u, InvitesOf(parted, u), d);
    }
  }
}
