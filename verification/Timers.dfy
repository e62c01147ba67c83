/** timer.c: the ordered list of pending timers. Callbacks add no timers here. */
module Timers {
  import opened Options

  // events is how often the timer still fires, -1 for ever; id stands for the callback and its argument.
  datatype Timer = Timer(id: nat, due: int, interval: int, events: int)

  predicate Sorted(ts: seq<Timer>) {
    forall i, j :: 0 <= i < j < |ts| ==> ts[i].due <= ts[j].due
  }

  // Behind everything that is due no later, in front of the rest.
  function Slot(ts: seq<Timer>, due: int): (k: nat)
    ensures k <= |ts| && (k < |ts| ==> due < ts[k].due) && forall i :: 0 <= i < k ==> ts[i].due <= due
  {
    if ts == [] || due < ts[0].due then 0 else 1 + Slot(ts[1..], due)
  }

  function Scheduled(ts: seq<Timer>, t: Timer): seq<Timer> {
    if t.events == 0 then ts else ts[..Slot(ts, t.due)] + [t] + ts[Slot(ts, t.due)..]
  }

  // The list stays sorted; what was due earlier or at the same time stays in front of a new timer.
  lemma ScheduledIs(ts: seq<Timer>, t: Timer)
    requires Sorted(ts)
    ensures Sorted(Scheduled(ts, t))
    ensures forall x :: x in Scheduled(ts, t) <==> x in ts || (x == t && t.events != 0)
    ensures forall i :: 0 <= i < |ts| && ts[i].due <= t.due ==> i < |Scheduled(ts, t)| && Scheduled(ts, t)[i] == ts[i]
  {
    hide Slot;
    if t.events != 0 {
      hide Scheduled;
      ScheduledAt(ts, t);
      var r, k := Scheduled(ts, t), Slot(ts, t.due);
      assert r[k] == t;
      forall x | x in ts ensures x in r {
        var i :| 0 <= i < |ts| && ts[i] == x;
        assert r[if i < k then i else i + 1] == x;
      }
    }
  }

  lemma ScheduledAt(ts: seq<Timer>, t: Timer)
    requires t.events != 0
    ensures var r, k := Scheduled(ts, t), Slot(ts, t.due);
      |r| == |ts| + 1 && forall i :: 0 <= i < |r| ==> r[i] == if i < k then ts[i] else if i == k then t else ts[i - 1]
  {
  }

  // --- Firing -----------------------------------------------------------------------------

  // What becomes of a timer that fires now.
  function Fired(t: Timer, now: int): Timer {
    t.(due := now + t.interval, events := if t.events == -1 || t.events == 0 then t.events else t.events - 1)
  }

  // A due timer that fires for ever without its next time moving past now.
  predicate Stuck(t: Timer, now: int) { t.due <= now && t.interval <= 0 && t.events < 0 }

  predicate Endless(ts: seq<Timer>, now: int) { exists t <- ts :: Stuck(t, now) }

  predicate HeadDue(ts: seq<Timer>, now: int) { ts != [] && ts[0].due <= now }

  function Next(ts: seq<Timer>, now: int): seq<Timer>
    requires ts != []
  {
    Scheduled(ts[1..], Fired(ts[0], now))
  }

  function After(ts: seq<Timer>, now: int, n: nat): seq<Timer> {
    if n == 0 then ts
    else
      var before := After(ts, now, n - 1);
      if HeadDue(before, now) then Next(before, now) else before
  }

  // exec_timers does not come back from a list that holds such a timer: however often its loop has
  // turned, the head is still due.
  lemma {:induction false} EndlessNeverStops(ts: seq<Timer>, now: int, n: nat)
    requires Sorted(ts) && Endless(ts, now)
    ensures HeadDue(After(ts, now, n), now)
  {
    StaysEndless(ts, now, n);
    var s := After(ts, now, n);
    var t :| t in s && Stuck(t, now);
    assert s[0].due <= t.due;
  }

  lemma {:induction false} StaysEndless(ts: seq<Timer>, now: int, n: nat)
    requires Sorted(ts) && Endless(ts, now)
    ensures Sorted(After(ts, now, n)) && Endless(After(ts, now, n), now)
  {
    if n > 0 {
      StaysEndless(ts, now, n - 1);
      var before := After(ts, now, n - 1);
      if HeadDue(before, now) {
        var t :| t in before && Stuck(t, now);
        ScheduledIs(before[1..], Fired(before[0], now));
        assert Stuck(if t == before[0] then Fired(t, now) else t, now);
        assert t == before[0] || t in before[1..];
        assert Fired(before[0], now) in Next(before, now) || before[0].events == 0 || before[0].events == 1;
      }
    }
  }

  // How many more times a timer can fire at this moment.
  function Work(t: Timer, now: int): nat {
    if t.due > now then 0 else if t.interval > 0 then 1 else if t.events > 0 then t.events else 0
  }

  function AllWork(ts: seq<Timer>, now: int): nat {
    if ts == [] then 0 else Work(ts[0], now) + AllWork(ts[1..], now)
  }

  lemma {:induction false} WorkOf(a: seq<Timer>, b: seq<Timer>, now: int)
    ensures AllWork(a + b, now) == AllWork(a, now) + AllWork(b, now)
  {
    if a == [] {
      assert a + b == b;
    } else {
      assert (a + b)[1..] == a[1..] + b;
      WorkOf(a[1..], b, now);
    }
  }

  predicate Armed(ts: seq<Timer>) { forall t <- ts :: t.events != 0 }

  lemma AllWorkFirst(ts: seq<Timer>, now: int)
    requires ts != []
    ensures AllWork(ts, now) == Work(ts[0], now) + AllWork(ts[1..], now)
  {
  }

  lemma ScheduledWork(ts: seq<Timer>, t: Timer, now: int)
    ensures AllWork(Scheduled(ts, t), now) == AllWork(ts, now) + if t.events == 0 then 0 else Work(t, now)
  {
    hide Slot, Work;
    var k := Slot(ts, t.due);
    assert ts == ts[..k] + ts[k..];
    WorkOf(ts[..k], ts[k..], now);
    WorkOf(ts[..k] + [t], ts[k..], now);
    WorkOf(ts[..k], [t], now);
    assert AllWork([t], now) == Work(t, now);
  }

  lemma WorkFalls(ts: seq<Timer>, now: int)
    requires Sorted(ts) && Armed(ts) && HeadDue(ts, now) && !Endless(ts, now)
    ensures var s := Next(ts, now);
      Sorted(s) && Armed(s) && !Endless(s, now) && AllWork(s, now) < AllWork(ts, now)
  {
    hide Scheduled, Slot, AllWork;
    var t, rest := Fired(ts[0], now), ts[1..];
    ScheduledIs(rest, t);
    assert ts[0] in ts;
    ScheduledWork(rest, t, now);
    assert AllWork(ts, now) == Work(ts[0], now) + AllWork(rest, now) by { AllWorkFirst(ts, now); }
  }

  // The whole of exec_timers: which callbacks run, in order, and the list afterwards.
  function Run(ts: seq<Timer>, now: int): (seq<nat>, seq<Timer>)
    requires Sorted(ts) && Armed(ts) && !Endless(ts, now)
    decreases AllWork(ts, now)
  {
    if !HeadDue(ts, now) then ([], ts)
    else
      WorkFalls(ts, now);
      var later := Run(Next(ts, now), now);
      ([ts[0].id] + later.0, later.1)
  }

  lemma {:induction false} AfterFirst(ts: seq<Timer>, now: int, n: nat)
    requires HeadDue(ts, now)
    ensures After(ts, now, n + 1) == After(Next(ts, now), now, n)
  {
    hide Next, HeadDue;
    if n > 0 {
      AfterFirst(ts, now, n - 1);
    } else {
      assert After(ts, now, 0) == ts;
    }
  }

  // The loop turns as often as Run has callbacks, and then stands still with the list Run leaves.
  lemma {:induction false} RunIsAfter(ts: seq<Timer>, now: int)
    requires Sorted(ts) && Armed(ts) && !Endless(ts, now)
    ensures var (fired, after) := Run(ts, now);
      After(ts, now, |fired|) == after && !HeadDue(after, now)
    decreases AllWork(ts, now)
  {
    hide Next, Endless, AllWork;
    if HeadDue(ts, now) {
      WorkFalls(ts, now);
      RunIsAfter(Next(ts, now), now);
      AfterFirst(ts, now, |Run(Next(ts, now), now).0|);
    }
  }

  // exec_timers returns if and only if no due timer fires for ever without an interval.
  lemma EndsIffNotEndless(ts: seq<Timer>, now: int)
    requires Sorted(ts) && Armed(ts)
    ensures (exists n: nat :: !HeadDue(After(ts, now, n), now)) <==> !Endless(ts, now)
  {
    if Endless(ts, now) {
      forall n: nat ensures HeadDue(After(ts, now, n), now) {
        EndlessNeverStops(ts, now, n);
      }
    } else {
      RunIsAfter(ts, now);
    }
  }

  // --- With positive intervals ----------------------------------------------------------------

  // A collector that is to run every 0 seconds, as the configuration may ask for.
  lemma ZeroInterval(n: nat)
    ensures Endless([Timer(0, 0, 0, -1)], 0) && HeadDue(After([Timer(0, 0, 0, -1)], 0, n), 0)
  {
    assert Stuck([Timer(0, 0, 0, -1)][0], 0);
    EndlessNeverStops([Timer(0, 0, 0, -1)], 0, n);
  }

  predicate Positive(ts: seq<Timer>) { forall t <- ts :: t.interval > 0 }

  lemma PositiveEnds(ts: seq<Timer>, now: int)
    requires Positive(ts)
    ensures !Endless(ts, now)
  {
  }

  function DueIds(ts: seq<Timer>, now: int): seq<nat> {
    if !HeadDue(ts, now) then [] else [ts[0].id] + DueIds(ts[1..], now)
  }

  // One call of exec_timers, as one timer sees it.
  function Kept(t: Timer, now: int): Option<Timer> {
    if t.due > now then Some(t)
    else if Fired(t, now).events == 0 then None
    else Some(Fired(t, now))
  }

  // Every due timer fires once, in the order of the list; nothing due is left.
  lemma {:induction false} RunIs(ts: seq<Timer>, now: int)
    requires Sorted(ts) && Armed(ts) && Positive(ts) && !Endless(ts, now)
    ensures var (fired, after) := Run(ts, now);
      && fired == DueIds(ts, now)
      && Sorted(after) && Armed(after) && Positive(after) && (forall t <- after :: t.due > now)
      && (forall x :: x in after <==> exists t <- ts :: Kept(t, now) == Some(x))
    decreases AllWork(ts, now)
  {
    if HeadDue(ts, now) {
      var t, rest := Fired(ts[0], now), ts[1..];
      WorkFalls(ts, now);
      ScheduledIs(rest, t);
      assert ts[0] in ts;
      DueApart(rest, t, now);
      RunIs(Next(ts, now), now);
      var after := Run(ts, now).1;
      forall x ensures x in after <==> exists t <- ts :: Kept(t, now) == Some(x) {
        assert t.events != 0 ==> Kept(t, now) == Some(t);
        if s :| s in Next(ts, now) && Kept(s, now) == Some(x) {
          assert Kept(if s in rest then s else ts[0], now) == Some(x);
        }
        if s :| s in ts && Kept(s, now) == Some(x) {
          assert Kept(if s in rest then s else t, now) == Some(x);
        }
      }
    } else {
      forall s | s in ts ensures s.due > now && Kept(s, now) == Some(s) {
        var i :| 0 <= i < |ts| && ts[i] == s;
        assert ts[0].due <= s.due;
      }
    }
  }

  lemma {:induction false} DueApart(ts: seq<Timer>, t: Timer, now: int)
    requires Sorted(ts) && t.due > now
    ensures DueIds(Scheduled(ts, t), now) == DueIds(ts, now)
  {
    if t.events != 0 && ts != [] && Slot(ts, t.due) > 0 {
      DueApart(ts[1..], t, now);
      assert Scheduled(ts, t)[1..] == Scheduled(ts[1..], t);
    }
  }

  // --- One timer over a run of calls --------------------------------------------------------------

  // How often the timer fires in calls at these times, one after the other.
  function Fires(t: Option<Timer>, ticks: seq<int>): nat
    decreases |ticks|
  {
    if ticks == [] || t.None? then 0
    else (if t.value.due <= ticks[0] then 1 else 0) + Fires(Kept(t.value, ticks[0]), ticks[1..])
  }

  function KeptAfter(t: Option<Timer>, ticks: seq<int>): Option<Timer>
    decreases |ticks|
  {
    if ticks == [] || t.None? then t else KeptAfter(Kept(t.value, ticks[0]), ticks[1..])
  }

  // It never fires more often than it has events, and is gone exactly when it has fired that often.
  lemma {:induction false} FiresAtMost(t: Timer, ticks: seq<int>)
    requires t.events > 0
    ensures Fires(Some(t), ticks) <= t.events
    ensures KeptAfter(Some(t), ticks) == None <==> Fires(Some(t), ticks) == t.events
    decreases |ticks|
  {
    if ticks != [] && Kept(t, ticks[0]).Some? {
      FiresAtMost(Kept(t, ticks[0]).value, ticks[1..]);
    }
  }

  predicate Rising(ticks: seq<int>) {
    forall i, j :: 0 <= i < j < |ticks| ==> ticks[i] <= ticks[j]
  }

  // Calls among these at which the timer has its chance: the first when it is due, each further one
  // an interval after the one before. There may be any number of other calls around them.
  predicate Chances(ticks: seq<int>, at: seq<nat>, due: int, interval: int) {
    && (forall j :: 0 <= j < |at| ==> at[j] < |ticks|)
    && (forall j :: 0 < j < |at| ==> at[j - 1] < at[j] && ticks[at[j]] >= ticks[at[j - 1]] + interval)
    && (at != [] ==> ticks[at[0]] >= due)
  }

  // The same calls counted from the second one on.
  function Sooner(at: seq<nat>): (r: seq<nat>)
    requires forall j :: 0 <= j < |at| ==> at[j] > 0
    ensures |r| == |at| && forall j :: 0 <= j < |at| ==> r[j] == at[j] - 1
  {
    seq(|at|, j requires 0 <= j < |at| => at[j] - 1)
  }

  lemma {:induction false} Increasing(ticks: seq<int>, at: seq<nat>, due: int, interval: int)
    requires Chances(ticks, at, due, interval)
    ensures forall j :: 0 < j < |at| ==> at[j] > at[0]
  {
    if |at| > 1 {
      var front := at[..|at| - 1];
      assert Chances(ticks, front, due, interval);
      Increasing(ticks, front, due, interval);
      assert at[|at| - 2] == front[|front| - 1];
    }
  }

  lemma FirstChance(ticks: seq<int>, at: seq<nat>, due: int, interval: int)
    requires Chances(ticks, at, due, interval) && at != []
    ensures at[0] < |ticks| && ticks[at[0]] >= due
  {
  }

  // A timer takes every chance it has events for.
  lemma {:induction false} FiresEnough(t: Timer, ticks: seq<int>, at: seq<nat>)
    requires Rising(ticks) && t.interval >= 0 && Chances(ticks, at, t.due, t.interval)
    requires t.events != 0 && (t.events > 0 ==> |at| <= t.events)
    ensures Fires(Some(t), ticks) >= |at|
    decreases |ticks|
  {
    hide Chances;
    if at != [] {
      FirstChance(ticks, at, t.due, t.interval);
      Increasing(ticks, at, t.due, t.interval);
      var now, rest := ticks[0], ticks[1..];
      if t.due > now {
        Postponed(ticks, at, t.due, t.interval);
        FiresEnough(t, rest, Sooner(at));
      } else if |at| > 1 {
        OneLess(ticks, at, t.due, now + t.interval, t.interval);
        Postponed(ticks, at[1..], now + t.interval, t.interval);
        FiresEnough(Kept(t, now).value, rest, Sooner(at[1..]));
      }
    }
  }

  lemma Postponed(ticks: seq<int>, at: seq<nat>, due: int, interval: int)
    requires Chances(ticks, at, due, interval) && ticks != [] && forall j :: 0 <= j < |at| ==> at[j] > 0
    ensures Chances(ticks[1..], Sooner(at), due, interval)
  {
    assert forall j :: 0 <= j < |at| ==> ticks[1..][Sooner(at)[j]] == ticks[at[j]];
  }

  lemma OneLess(ticks: seq<int>, at: seq<nat>, due: int, next: int, interval: int)
    requires Chances(ticks, at, due, interval) && |at| > 1 && ticks[at[0]] + interval >= next
    ensures Chances(ticks, at[1..], next, interval)
  {
    assert ticks[at[1]] >= ticks[at[0]] + interval;
  }

  // Counted with one more call in front.
  function Later(at: seq<nat>): (r: seq<nat>)
    ensures |r| == |at| && forall j :: 0 <= j < |at| ==> r[j] == at[j] + 1
  {
    seq(|at|, j requires 0 <= j < |at| => at[j] + 1)
  }

  lemma Preceded(ticks: seq<int>, at: seq<nat>, due: int, interval: int)
    requires ticks != [] && Chances(ticks[1..], at, due, interval)
    ensures Chances(ticks, Later(at), due, interval)
  {
    assert forall j :: 0 <= j < |at| ==> ticks[Later(at)[j]] == ticks[1..][at[j]];
  }

  lemma OneMore(ticks: seq<int>, at: seq<nat>, due: int, interval: int)
    requires ticks != [] && ticks[0] >= due && Chances(ticks, at, ticks[0] + interval, interval)
    requires forall j :: 0 <= j < |at| ==> at[j] > 0
    ensures Chances(ticks, [0] + at, due, interval)
  {
    var r := [0] + at;
    assert forall j :: 0 < j < |r| ==> r[j] == at[j - 1];
    forall j | 0 < j < |r| ensures r[j - 1] < r[j] && ticks[r[j]] >= ticks[r[j - 1]] + interval {
      if j > 1 {
        assert r[j - 1] == at[j - 2] && at[j - 2] < at[j - 1];
      }
    }
  }

  // And it fires at nothing but chances.
  lemma {:induction false} FiresAtChances(t: Timer, ticks: seq<int>) returns (at: seq<nat>)
    ensures Chances(ticks, at, t.due, t.interval) && |at| == Fires(Some(t), ticks)
    decreases |ticks|
  {
    at := [];
    if ticks != [] {
      hide Chances;
      var now, rest := ticks[0], ticks[1..];
      if Kept(t, now).Some? {
        at := FiresAtChances(Kept(t, now).value, rest);
      } else {
        NoChance(rest, now + t.interval, t.interval);
      }
      Preceded(ticks, at, if t.due <= now then now + t.interval else t.due, t.interval);
      at := Later(at);
      if t.due <= now {
        OneMore(ticks, at, t.due, t.interval);
        at := [0] + at;
      }
    }
  }

  lemma NoChance(ticks: seq<int>, due: int, interval: int)
    ensures Chances(ticks, [], due, interval)
  {
  }

  // For any calls in the order of time, a timer fires k times if and only if there are k chances
  // among them, k within its events; exactly as often as it has events once there are that many.
  lemma FiresExactly(t: Timer, ticks: seq<int>, k: nat)
    requires Rising(ticks) && t.interval >= 0 && t.events != 0 && (t.events > 0 ==> k <= t.events)
    ensures Fires(Some(t), ticks) >= k <==> exists at :: Chances(ticks, at, t.due, t.interval) && |at| == k
    ensures t.events == k > 0 && (exists at :: Chances(ticks, at, t.due, t.interval) && |at| == k) ==>
      Fires(Some(t), ticks) == k && KeptAfter(Some(t), ticks) == None
  {
    if t.events > 0 {
      FiresAtMost(t, ticks);
    }
    if at :| Chances(ticks, at, t.due, t.interval) && |at| == k {
      FiresEnough(t, ticks, at);
    }
    if Fires(Some(t), ticks) >= k {
      var at := FiresAtChances(t, ticks);
      assert Chances(ticks, at[..k], t.due, t.interval);
    }
  }

  // --- One timer among the others -----------------------------------------------------------------

  // A timer is added, or exec_timers is called.
  datatype Event = Added(timer: Timer) | Called(now: int)

  predicate Regular(e: Event) { e.Added? ==> e.timer.interval > 0 }

  // The callbacks of a whole run, in order, and the list after it.
  function Played(ts: seq<Timer>, events: seq<Event>): (seq<nat>, seq<Timer>)
    requires Sorted(ts) && Armed(ts) && Positive(ts) && forall e <- events :: Regular(e)
    decreases |events|
  {
    if events == [] then ([], ts)
    else
      match events[0]
      case Added(t) =>
        ScheduledIs(ts, t);
        assert Regular(events[0]);
        Played(Scheduled(ts, t), events[1..])
      case Called(now) =>
        PositiveEnds(ts, now);
        RunIs(ts, now);
        var (fired, after) := Run(ts, now);
        var later := Played(after, events[1..]);
        (fired + later.0, later.1)
  }

  function Calls(events: seq<Event>): seq<int> {
    if events == [] then []
    else
      var rest := Calls(events[1..]);
      if events[0].Called? then [events[0].now] + rest else rest
  }

  function CountId(ids: seq<nat>, id: nat): nat {
    if ids == [] then 0 else (if ids[0] == id then 1 else 0) + CountId(ids[1..], id)
  }

  function CountTimer(ts: seq<Timer>, id: nat): nat {
    if ts == [] then 0 else (if ts[0].id == id then 1 else 0) + CountTimer(ts[1..], id)
  }

  lemma {:induction false} CountIdOf(a: seq<nat>, b: seq<nat>, id: nat)
    ensures CountId(a + b, id) == CountId(a, id) + CountId(b, id)
  {
    if a == [] {
      assert a + b == b;
    } else {
      assert (a + b)[1..] == a[1..] + b;
      CountIdOf(a[1..], b, id);
    }
  }

  lemma {:induction false} CountTimerOf(a: seq<Timer>, b: seq<Timer>, id: nat)
    ensures CountTimer(a + b, id) == CountTimer(a, id) + CountTimer(b, id)
  {
    if a == [] {
      assert a + b == b;
    } else {
      assert (a + b)[1..] == a[1..] + b;
      CountTimerOf(a[1..], b, id);
    }
  }

  lemma {:induction false} CountTimerIn(ts: seq<Timer>, id: nat)
    ensures CountTimer(ts, id) > 0 <==> exists t <- ts :: t.id == id
  {
    if ts != [] {
      CountTimerIn(ts[1..], id);
    }
  }

  lemma ScheduledCount(ts: seq<Timer>, t: Timer, id: nat)
    ensures CountTimer(Scheduled(ts, t), id)
      == CountTimer(ts, id) + if t.events != 0 && t.id == id then 1 else 0
  {
    hide Slot;
    var k := Slot(ts, t.due);
    assert ts == ts[..k] + ts[k..];
    CountTimerOf(ts[..k], ts[k..], id);
    CountTimerOf(ts[..k] + [t], ts[k..], id);
    CountTimerOf(ts[..k], [t], id);
  }

  lemma {:induction false} RunCount(ts: seq<Timer>, now: int, id: nat)
    requires Sorted(ts) && Armed(ts) && !Endless(ts, now)
    ensures CountTimer(Run(ts, now).1, id) <= CountTimer(ts, id)
    decreases AllWork(ts, now)
  {
    hide Scheduled, Endless, AllWork;
    if HeadDue(ts, now) {
      WorkFalls(ts, now);
      ScheduledCount(ts[1..], Fired(ts[0], now), id);
      RunCount(Next(ts, now), now, id);
    }
  }

  // The only timer of its id, or none at all.
  predicate Only(ts: seq<Timer>, t: Option<Timer>, id: nat) {
    if t.None? then CountTimer(ts, id) == 0 else t.value.id == id && t.value in ts && CountTimer(ts, id) == 1
  }

  lemma {:induction false} DueOnce(ts: seq<Timer>, now: int, t: Option<Timer>, id: nat)
    requires Sorted(ts) && Only(ts, t, id)
    ensures CountId(DueIds(ts, now), id) == if t.Some? && t.value.due <= now then 1 else 0
  {
    if !HeadDue(ts, now) {
      if t.Some? {
        var i :| 0 <= i < |ts| && ts[i] == t.value;
        assert ts[0].due <= ts[i].due;
      }
    } else {
      var rest := ts[1..];
      CountTimerIn(rest, id);
      if ts[0].id == id {
        assert t.value == ts[0];
        DueOnce(rest, now, None, id);
      } else {
        DueOnce(rest, now, t, id);
      }
    }
  }

  lemma {:induction false} Alone(ts: seq<Timer>, t: Timer, x: Timer)
    requires Only(ts, Some(t), t.id) && x in ts && x.id == t.id
    ensures x == t
  {
    CountTimerIn(ts[1..], t.id);
    if ts[0].id != t.id {
      Alone(ts[1..], t, x);
    }
  }

  lemma CalledOnly(ts: seq<Timer>, now: int, t: Option<Timer>, id: nat)
    requires Sorted(ts) && Armed(ts) && Positive(ts) && !Endless(ts, now) && Only(ts, t, id)
    ensures Only(Run(ts, now).1, if t.None? then None else Kept(t.value, now), id)
  {
    hide Run, Endless, CountTimer, Positive;
    RunIs(ts, now);
    RunCount(ts, now, id);
    var after := Run(ts, now).1;
    CountTimerIn(after, id);
    CountTimerIn(ts, id);
    if t.Some? {
      forall x | x in after && x.id == id ensures Kept(t.value, now) == Some(x) {
        var s :| s in ts && Kept(s, now) == Some(x);
        Alone(ts, t.value, s);
      }
    }
  }

  // In every run, however many other timers come and go, the timer's callback runs as often as the
  // timer by itself would fire in the calls of that run.
  lemma {:induction false} FiresInList(ts: seq<Timer>, events: seq<Event>, t: Option<Timer>, id: nat)
    requires Sorted(ts) && Armed(ts) && Positive(ts) && (forall e <- events :: Regular(e)) && Only(ts, t, id)
    requires forall e <- events :: e.Added? ==> e.timer.id != id
    ensures CountId(Played(ts, events).0, id) == Fires(t, Calls(events))
    ensures Only(Played(ts, events).1, KeptAfter(t, Calls(events)), id)
    decreases |events|
  {
    hide Run, Scheduled, Endless, Only;
    if events != [] {
      var rest := events[1..];
      assert Regular(events[0]) && events[0] in events;
      match events[0] {
        case Added(s) =>
          ScheduledIs(ts, s);
          AddedOnly(ts, s, t, id);
          FiresInList(Scheduled(ts, s), rest, t, id);
        case Called(now) =>
          PositiveEnds(ts, now);
          RunIs(ts, now);
          CalledOnly(ts, now, t, id);
          DueOnce(ts, now, t, id);
          var after := Run(ts, now).1;
          FiresInList(after, rest, if t.None? then None else Kept(t.value, now), id);
          CountIdOf(DueIds(ts, now), Played(after, rest).0, id);
      }
    }
  }

  lemma AddedOnly(ts: seq<Timer>, s: Timer, t: Option<Timer>, id: nat)
    requires Sorted(ts) && Only(ts, t, id) && s.id != id
    ensures Only(Scheduled(ts, s), t, id)
  {
    hide Scheduled;
    ScheduledIs(ts, s);
    ScheduledCount(ts, s, id);
  }

  // The property add_timer is for: added with k > 0 events and an id of its own, a timer fires
  // exactly k times in every run that gives it k chances, whatever else happens in between.
  lemma AddedFiresExactly(ts: seq<Timer>, t: Timer, events: seq<Event>, at: seq<nat>)
    requires Sorted(ts) && Armed(ts) && Positive(ts) && t.interval > 0 && t.events > 0
    requires (forall e <- events :: Regular(e)) && forall e <- events :: e.Added? ==> e.timer.id != t.id
    requires CountTimer(ts, t.id) == 0 && Rising(Calls(events))
    requires Chances(Calls(events), at, t.due, t.interval) && |at| == t.events
    ensures CountId(Played(ts, [Added(t)] + events).0, t.id) == t.events
  {
    hide Scheduled;
    var run := [Added(t)] + events;
    ScheduledIs(ts, t);
    ScheduledCount(ts, t, t.id);
    assert run[1..] == events;
    FiresInList(Scheduled(ts, t), events, Some(t), t.id);
    FiresExactly(t, Calls(events), t.events);
  }

  // --- The list ---------------------------------------------------------------------------------

  class TimerList {
    var pending: seq<Timer>
    // The callbacks that have run.
    var fired: seq<nat>

    ghost predicate Valid()
      reads this
    {
      Sorted(pending) && Armed(pending)
    }

    constructor ()
      ensures Valid() && pending == [] && fired == []
    {
      pending, fired := [], [];
    }

    method ScheduleTimer(t: Timer)
      requires Valid()
      modifies this`pending
      ensures Valid() && pending == Scheduled(old(pending), t)
    {
      if t.events == 0 {
        return;
      }
      ScheduledIs(pending, t);
      var slot := 0;
      while slot < |pending|
        invariant 0 <= slot <= |pending| && Slot(pending, t.due) == slot + Slot(pending[slot..], t.due)
      {
        if t.due < pending[slot].due {
          break;
        }
        assert pending[slot..][1..] == pending[slot + 1..];
        slot := slot + 1;
      }
      pending := pending[..slot] + [t] + pending[slot..];
    }

    method AddTimer(id: nat, interval: int, events: int, now: int)
      requires Valid()
      modifies this`pending
      ensures Valid() && pending == Scheduled(old(pending), Timer(id, now + interval, interval, events))
    {
      if events == 0 {
        return;
      }
      ScheduleTimer(Timer(id, now + interval, interval, events));
    }

    method ExecTimers(now: int)
      requires Valid() && !Endless(pending, now)
      modifies this
      ensures Valid() && fired == old(fired) + Run(old(pending), now).0 && pending == Run(old(pending), now).1
      ensures Positive(old(pending)) ==> fired == old(fired) + DueIds(old(pending), now)
      ensures Positive(old(pending)) ==> forall t <- pending :: t.due > now
    {
      hide Run, Scheduled, AllWork, Endless;
      ghost var before, start := pending, fired;
      if Positive(before) {
        RunIs(before, now);
      }
      ghost var ids: seq<nat> := [];
      while pending != [] && pending[0].due <= now
        invariant Valid() && !Endless(pending, now) && fired == start + ids
        invariant Run(before, now).0 == ids + Run(pending, now).0 && Run(before, now).1 == Run(pending, now).1
        decreases AllWork(pending, now)
      {
        WorkFalls(pending, now);
        RunTurns(pending, now);
        var current := pending[0];
        ids := ids + [current.id];
        pending := pending[1..];
        fired := fired + [current.id];
        if current.events != 0 {
          if current.events != -1 {
            current := current.(events := current.events - 1);
          }
          current := current.(due := now + current.interval);
          ScheduleTimer(current);
        }
      }
      RunStops(pending, now);
    }

    // A run of the server as far as the list is concerned.
    method Play(events: seq<Event>)
      requires Valid() && Positive(pending) && forall e <- events :: Regular(e)
      modifies this
      ensures Valid() && Positive(pending)
      ensures fired == old(fired) + Played(old(pending), events).0 && pending == Played(old(pending), events).1
    {
      hide Run, Scheduled, Endless, Played;
      ghost var start, before := fired, pending;
      ghost var ids: seq<nat> := [];
      var i := 0;
      assert events[0..] == events;
      while i < |events|
        invariant 0 <= i <= |events| && Valid() && Positive(pending) && fired == start + ids
        invariant Played(before, events).0 == ids + Played(pending, events[i..]).0
        invariant Played(before, events).1 == Played(pending, events[i..]).1
      {
        assert events[i..][1..] == events[i + 1..] && Regular(events[i]);
        PlayedOne(pending, events[i..]);
        match events[i] {
          case Added(t) =>
            ScheduledIs(pending, t);
            ScheduleTimer(t);
          case Called(now) =>
            PositiveEnds(pending, now);
            RunIs(pending, now);
            ids := ids + Run(pending, now).0;
            ExecTimers(now);
        }
        i := i + 1;
      }
      PlayedNothing(pending);
    }

    // The time the main loop may sleep: nothing becomes due any earlier. -1 is no limit.
    method NextTimer(now: int) returns (t: int)
      requires Valid()
      ensures t == -1 <==> pending == []
      ensures t >= 0 ==> (exists x <- pending :: x.due <= now + t) && (t > 0 ==> forall x <- pending :: x.due >= now + t)
    {
      if pending == [] {
        return -1;
      }
      assert pending[0] in pending;
      if pending[0].due < now {
        return 0;
      }
      forall x | x in pending ensures x.due >= pending[0].due {
        var i :| 0 <= i < |pending| && pending[i] == x;
      }
      return pending[0].due - now;
    }
  }

  lemma PlayedNothing(ts: seq<Timer>)
    requires Sorted(ts) && Armed(ts) && Positive(ts)
    ensures Played(ts, []) == ([], ts)
  {
  }

  lemma PlayedOne(ts: seq<Timer>, events: seq<Event>)
    requires Sorted(ts) && Armed(ts) && Positive(ts) && (forall e <- events :: Regular(e)) && events != []
    ensures Regular(events[0]) && forall e <- events[1..] :: Regular(e)
    ensures events[0].Added? ==> var s := Scheduled(ts, events[0].timer);
      Sorted(s) && Armed(s) && Positive(s) && Played(ts, events) == Played(s, events[1..])
    ensures events[0].Called? ==> !Endless(ts, events[0].now)
    ensures events[0].Called? ==> var (fired, s) := Run(ts, events[0].now);
      Sorted(s) && Armed(s) && Positive(s)
      && Played(ts, events) == (fired + Played(s, events[1..]).0, Played(s, events[1..]).1)
  {
    hide Scheduled, Run, Endless;
    assert Regular(events[0]);
    if events[0].Called? {
      PositiveEnds(ts, events[0].now);
      RunIs(ts, events[0].now);
    } else {
      ScheduledIs(ts, events[0].timer);
    }
  }

  lemma RunTurns(ts: seq<Timer>, now: int)
    requires Sorted(ts) && Armed(ts) && !Endless(ts, now) && HeadDue(ts, now)
    ensures Sorted(Next(ts, now)) && Armed(Next(ts, now)) && !Endless(Next(ts, now), now)
    ensures Run(ts, now) == ([ts[0].id] + Run(Next(ts, now), now).0, Run(Next(ts, now), now).1)
  {
    WorkFalls(ts, now);
  }

  lemma RunStops(ts: seq<Timer>, now: int)
    requires Sorted(ts) && Armed(ts) && !Endless(ts, now) && !HeadDue(ts, now)
    ensures Run(ts, now) == ([], ts)
  {
  }
}
