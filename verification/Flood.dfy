/** handler.c, main.c: flood control of one client. main's loop looks at a client's socket only while
    its gate is open, and handle_connection takes one command each time it does. */
module Flood {

  // Flood_Commands and Flood_Time.
  datatype Limits = Limits(commands: nat, time: nat)

  // counted: neither add_file, share_file nor remove_file.
  datatype Command = Command(time: int, counted: bool)

  function Step(l: Limits): nat
    requires l.commands > 0
  {
    l.time / l.commands
  }

  // The socket is read at this time.
  predicate Gate(l: Limits, flood: int, now: int) {
    l.commands == 0 || flood < now + l.time
  }

  function Charged(l: Limits, flood: int, c: Command): int {
    if l.commands > 0 && c.counted then (if flood < c.time then c.time else flood) + Step(l) else flood
  }

  class Client {
    var flood: int

    constructor ()
      ensures flood == 0
    {
      flood := 0;
    }

    // The flood protection in handle_connection. Moderators are told who floods, unless he is the
    // last one they were told of.
    method Charge(l: Limits, c: Command, nick: string, lastFlooder: string) returns (told: bool, last: string)
      modifies this
      ensures flood == Charged(l, old(flood), c)
      ensures var flooding := l.commands > 0 && c.counted && !Gate(l, flood, c.time);
        told == (flooding && lastFlooder != nick) && last == if told then Shortened(nick) else lastFlooder
    {
      told, last := false, lastFlooder;
      if l.commands > 0 && c.counted {
        if flood < c.time {
          flood := c.time;
        }
        flood := flood + l.time / l.commands;
        if flood >= c.time + l.time && lastFlooder != nick {
          told, last := true, Shortened(nick);
        }
      }
    }
  }

  // What fits LastFlooder of a nick.
  const NICK_MAX: nat := 63

  function Shortened(nick: string): string {
    if |nick| > NICK_MAX then nick[..NICK_MAX] else nick
  }

  // Whom moderators are told of when these nicks flood one after the other.
  function Reports(last: string, floods: seq<string>): seq<string>
    decreases |floods|
  {
    if floods == [] then []
    else if floods[0] == last then Reports(last, floods[1..])
    else [floods[0]] + Reports(Shortened(floods[0]), floods[1..])
  }

  // Nobody whose nick fits is reported twice in a row.
  lemma {:induction false} ReportsDiffer(last: string, floods: seq<string>)
    requires forall n <- floods :: |n| <= NICK_MAX
    ensures var r := Reports(last, floods);
      (r != [] ==> r[0] != last) && forall i :: 0 < i < |r| ==> r[i] != r[i - 1]
    decreases |floods|
  {
    if floods != [] {
      ReportsDiffer(if floods[0] == last then last else floods[0], floods[1..]);
    }
  }

  // A nick that does not fit is reported every time, and only such a nick.
  lemma ReportedAgainIff(last: string, nick: string)
    requires last != nick
    ensures Reports(last, [nick, nick]) == [nick, nick] <==> |nick| > NICK_MAX
  {
    assert [nick, nick][1..] == [nick] && [nick][1..] == [];
    assert Reports(Shortened(nick), [nick]) == if Shortened(nick) == nick then [] else [nick];
  }

  // --- Runs ---------------------------------------------------------------------------------

  function FloodAfter(l: Limits, start: int, cs: seq<Command>): int {
    if cs == [] then start else Charged(l, FloodAfter(l, start, cs[..|cs| - 1]), cs[|cs| - 1])
  }

  // Commands in the order they are processed: time does not go back and each one finds the gate open.
  ghost predicate Allowed(l: Limits, start: int, cs: seq<Command>) {
    && (forall i, j :: 0 <= i < j < |cs| ==> cs[i].time <= cs[j].time)
    && forall i :: 0 <= i < |cs| ==> Gate(l, FloodAfter(l, start, cs[..i]), cs[i].time)
  }

  function Count(cs: seq<Command>, from: nat, to: nat): nat
    requires from <= to <= |cs|
  {
    if from == to then 0 else Count(cs, from, to - 1) + (if cs[to - 1].counted then 1 else 0)
  }

  // From a counted command on, each further one has pushed the client's time a step ahead.
  lemma {:induction false} FloodRises(l: Limits, start: int, cs: seq<Command>, i: nat, j: nat)
    requires l.commands > 0 && i < j <= |cs| && cs[i].counted
    ensures FloodAfter(l, start, cs[..j]) >= cs[i].time + Step(l) * Count(cs, i, j)
    decreases j
  {
    assert cs[..j][..j - 1] == cs[..j - 1];
    if j > i + 1 {
      FloodRises(l, start, cs, i, j - 1);
    } else {
      assert Count(cs, i, j) == 1;
    }
    Distribute(Step(l), Count(cs, i, j - 1));
  }

  lemma Distribute(s: nat, k: nat)
    ensures s * (k + 1) == s * k + s
  {
  }

  function CeilDiv(a: nat, b: nat): nat
    requires b > 0
  {
    (a + b - 1) / b
  }

  predicate Within(l: Limits, k: nat, T: nat)
    requires l.commands > 0 && Step(l) > 0
  {
    && k <= CeilDiv(T + l.time, Step(l))
    && (l.time % l.commands == 0 ==> k <= l.commands + CeilDiv(T, Step(l)))
  }

  // However the commands of a run are spread, no window of T seconds holds more counted ones than
  // this; Flood_Commands + CeilDiv(T, step) of them when Flood_Commands divides Flood_Time.
  lemma {:induction false} WindowBound(l: Limits, start: int, cs: seq<Command>, i: nat, j: nat, T: nat)
    requires l.commands > 0 && Step(l) > 0 && Allowed(l, start, cs)
    requires i <= j < |cs| && cs[j].time - cs[i].time <= T
    ensures Within(l, Count(cs, i, j + 1), T)
    decreases j - i
  {
    hide Within, Step;
    if !cs[i].counted {
      CountFront(cs, i, j + 1);
      if i < j {
        WindowBound(l, start, cs, i + 1, j, T);
      } else {
        ZeroWithin(l, T);
      }
    } else if !cs[j].counted {
      WindowBound(l, start, cs, i, j - 1, T);
    } else {
      CountedEnds(l, start, cs, i, j, T);
      BoundHolds(l, Count(cs, i, j), T);
    }
  }

  lemma ZeroWithin(l: Limits, T: nat)
    requires l.commands > 0 && Step(l) > 0
    ensures Within(l, 0, T)
  {
    hide Step;
    CeilIs(T, Step(l));
    CeilIs(T + l.time, Step(l));
  }

  lemma CountedEnds(l: Limits, start: int, cs: seq<Command>, i: nat, j: nat, T: nat)
    requires l.commands > 0 && Step(l) > 0 && Allowed(l, start, cs)
    requires i <= j < |cs| && cs[j].time - cs[i].time <= T && cs[i].counted
    ensures Step(l) * Count(cs, i, j) < T + l.time
  {
    if i < j {
      FloodRises(l, start, cs, i, j);
      GateIsOpen(l, start, cs, j);
    }
  }

  lemma BoundHolds(l: Limits, m: nat, T: nat)
    requires l.commands > 0 && Step(l) > 0 && Step(l) * m < T + l.time
    ensures Within(l, m + 1, T)
  {
    var step := Step(l);
    BelowCeil(step, m, T + l.time);
    if l.time % l.commands == 0 {
      assert l.time == l.commands * step;
      hide Step;
      var c := CeilDiv(T, step);
      CeilIs(T, step);
      assert step * (c + l.commands) == step * c + l.commands * step;
      if c + l.commands <= m {
        Monotone(step, c + l.commands, m);
      }
    }
  }

  lemma CeilIs(a: nat, b: nat)
    requires b > 0
    ensures a <= b * CeilDiv(a, b) < a + b
  {
  }

  lemma GateIsOpen(l: Limits, start: int, cs: seq<Command>, j: nat)
    requires Allowed(l, start, cs) && j < |cs| && l.commands > 0
    ensures FloodAfter(l, start, cs[..j]) < cs[j].time + l.time
  {
  }

  lemma {:induction false} CountFront(cs: seq<Command>, i: nat, j: nat)
    requires i < j <= |cs| && !cs[i].counted
    ensures Count(cs, i, j) == Count(cs, i + 1, j)
  {
    if j > i + 1 {
      CountFront(cs, i, j - 1);
    }
  }

  lemma BelowCeil(b: nat, m: nat, a: nat)
    requires b > 0 && b * m < a
    ensures m + 1 <= CeilDiv(a, b)
  {
    CeilIs(a, b);
    if CeilDiv(a, b) <= m {
      Monotone(b, CeilDiv(a, b), m);
    }
  }

  lemma Monotone(b: nat, c: nat, m: nat)
    requires c <= m
    ensures b * c <= b * m
  {
  }

  // --- The bound is met ------------------------------------------------------------------------

  // A client that sends each command the moment its gate opens, command m at this time.
  function Opens(l: Limits, t: int, m: nat): int
    requires l.commands > 0
  {
    var opens := t + Step(l) * m - l.time + 1;
    if opens < t then t else opens
  }

  function Eager(l: Limits, t: int, n: nat): (cs: seq<Command>)
    requires l.commands > 0
    ensures |cs| == n && forall m :: 0 <= m < n ==> cs[m] == Command(Opens(l, t, m), true)
  {
    seq(n, m requires 0 <= m < n => Command(Opens(l, t, m), true))
  }

  lemma {:induction false} EagerFlood(l: Limits, t: int, n: nat)
    requires l.commands > 0 && l.time > 0
    ensures FloodAfter(l, t, Eager(l, t, n)) == t + Step(l) * n
  {
    hide Step;
    if n > 0 {
      var cs := Eager(l, t, n);
      assert cs[..n - 1] == Eager(l, t, n - 1);
      EagerFlood(l, t, n - 1);
      Distribute(Step(l), n - 1);
    }
  }

  lemma {:induction false} CountAll(cs: seq<Command>, n: nat)
    requires n <= |cs| && forall c <- cs :: c.counted
    ensures Count(cs, 0, n) == n
  {
    if n > 0 {
      CountAll(cs, n - 1);
    }
  }

  lemma EagerIsAllowed(l: Limits, t: int, n: nat)
    requires l.commands > 0 && l.time > 0
    ensures Allowed(l, t, Eager(l, t, n)) && Count(Eager(l, t, n), 0, n) == n
  {
    hide Step;
    var cs := Eager(l, t, n);
    CountAll(cs, n);
    forall i, j | 0 <= i < j < n ensures cs[i].time <= cs[j].time {
      Monotone(Step(l), i, j);
    }
    forall i | 0 <= i < n ensures Gate(l, FloodAfter(l, t, cs[..i]), cs[i].time) {
      assert cs[..i] == Eager(l, t, i);
      EagerFlood(l, t, i);
    }
  }

  // For every setting and every length of time there is a run with exactly as many counted commands
  // as the bound allows.
  lemma BoundIsMet(l: Limits, t: int, T: nat)
    requires l.commands > 0 && Step(l) > 0
    ensures var n := CeilDiv(T + l.time, Step(l)); var cs := Eager(l, t, n);
      n > 0 && Allowed(l, t, cs) && cs[n - 1].time - cs[0].time <= T && Count(cs, 0, n) == n
  {
    TimeIsPositive(l);
    hide Step, CeilDiv;
    var n := CeilDiv(T + l.time, Step(l));
    CeilIs(T + l.time, Step(l));
    EagerIsAllowed(l, t, n);
    if n > 0 {
      Distribute(Step(l), n - 1);
      assert Step(l) * 0 == 0;
    }
  }

  lemma TimeIsPositive(l: Limits)
    requires l.commands > 0 && Step(l) > 0
    ensures l.time > 0
  {
  }

  // With more commands than seconds the step is 0 and any number of commands goes through at once.
  lemma NoBoundWithoutStep(l: Limits, t: int, n: nat)
    requires l.commands > l.time > 0
    ensures var cs := Eager(l, t, n);
      Allowed(l, t, cs) && Count(cs, 0, n) == n && forall m :: 0 <= m < n ==> cs[m].time == t
  {
    assert Step(l) == 0;
    EagerIsAllowed(l, t, n);
  }

  // With no time at all the gate asks that the client's time be past: each further counted command
  // comes a second later.
  lemma {:induction false} FloodRisesSlowly(l: Limits, start: int, cs: seq<Command>, i: nat, j: nat)
    requires l.commands > 0 && l.time == 0 && Allowed(l, start, cs) && i < j <= |cs| && cs[i].counted
    ensures FloodAfter(l, start, cs[..j]) >= cs[i].time + Count(cs, i, j) - 1
    decreases j
  {
    hide Allowed;
    assert Step(l) == 0;
    assert cs[..j][..j - 1] == cs[..j - 1];
    GateIsOpen(l, start, cs, j - 1);
    if j > i + 1 {
      FloodRisesSlowly(l, start, cs, i, j - 1);
    } else {
      assert Count(cs, i, j) == 1;
    }
  }

  lemma {:induction false} OneASecond(l: Limits, start: int, cs: seq<Command>, i: nat, j: nat, T: nat)
    requires l.commands > 0 && l.time == 0 && Allowed(l, start, cs)
    requires i <= j < |cs| && cs[j].time - cs[i].time <= T
    ensures Count(cs, i, j + 1) <= T + 1
    decreases j - i
  {
    if !cs[i].counted {
      CountFront(cs, i, j + 1);
      if i < j {
        OneASecond(l, start, cs, i + 1, j, T);
      }
    } else if !cs[j].counted {
      OneASecond(l, start, cs, i, j - 1, T);
    } else if i < j {
      FloodRisesSlowly(l, start, cs, i, j);
      GateIsOpen(l, start, cs, j);
    }
  }

  // No window of T seconds holds more than b counted commands, in any run.
  ghost predicate Bounds(l: Limits, T: nat, b: nat) {
    forall start: int, cs: seq<Command>, i: nat, j: nat ::
      Allowed(l, start, cs) && i <= j < |cs| && cs[j].time - cs[i].time <= T ==> Count(cs, i, j + 1) <= b
  }

  ghost predicate Limited(l: Limits, T: nat) {
    exists b: nat :: Bounds(l, T, b)
  }

  // Flood control limits the client, over windows of every length, if and only if there is a second
  // for each command or no time at all; otherwise not even one instant is limited.
  lemma LimitedIff(l: Limits)
    requires l.commands > 0
    ensures (forall T: nat :: Limited(l, T)) <==> l.time == 0 || l.commands <= l.time
    ensures Limited(l, 0) <==> l.time == 0 || l.commands <= l.time
  {
    if l.time == 0 || l.commands <= l.time {
      forall T: nat ensures Limited(l, T) {
        if l.time == 0 {
          BoundOfNoTime(l, T);
          assert Bounds(l, T, T + 1);
        } else {
          BoundOfStep(l, T);
        }
      }
    } else {
      forall b: nat ensures !Bounds(l, 0, b) {
        Unbounded(l, b);
      }
      assert !Limited(l, 0);
    }
  }

  lemma BoundOfNoTime(l: Limits, T: nat)
    requires l.commands > 0 && l.time == 0
    ensures Bounds(l, T, T + 1)
  {
    hide Allowed, Count;
    forall start: int, cs: seq<Command>, i: nat, j: nat
      | Allowed(l, start, cs) && i <= j < |cs| && cs[j].time - cs[i].time <= T
      ensures Count(cs, i, j + 1) <= T + 1
    {
      OneASecond(l, start, cs, i, j, T);
    }
  }

  lemma StepIsPositive(l: Limits)
    requires 0 < l.commands <= l.time
    ensures Step(l) > 0
  {
  }

  lemma BoundOfStep(l: Limits, T: nat)
    requires 0 < l.commands <= l.time
    ensures Step(l) > 0 && Bounds(l, T, CeilDiv(T + l.time, Step(l)))
  {
    StepIsPositive(l);
    CeilIs(T + l.time, Step(l));
    hide Allowed, Count, Step, CeilDiv;
    forall start: int, cs: seq<Command>, i: nat, j: nat
      | Allowed(l, start, cs) && i <= j < |cs| && cs[j].time - cs[i].time <= T
      ensures Count(cs, i, j + 1) <= CeilDiv(T + l.time, Step(l))
    {
      WindowBound(l, start, cs, i, j, T);
    }
  }

  lemma Unbounded(l: Limits, b: nat)
    requires l.commands > l.time > 0
    ensures !Bounds(l, 0, b)
  {
    hide Allowed, Count;
    var cs := Eager(l, 0, b + 1);
    NoBoundWithoutStep(l, 0, b + 1);
    assert cs[b].time - cs[0].time <= 0 && Count(cs, 0, b + 1) == b + 1;
  }

  // The gate never stays shut longer than a step after the client's last command.
  lemma NeverShutLong(l: Limits, flood: int, c: Command, later: int)
    requires l.commands > 0 && l.time > 0 && Gate(l, flood, c.time) && later >= c.time + Step(l)
    ensures Gate(l, Charged(l, flood, c), later)
  {
  }
}
