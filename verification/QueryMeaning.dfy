/** search.c: what a search request asks for, read clause by clause. */
module QueryMeaning {
  import opened Text
  import opened Options
  import opened Tokens
  import opened Arguments
  import opened QueryText

  datatype Attr = LineSpeeds | BitRates | Freqs

  datatype Op = Equal | Least | Best | Strange

  // A clause as somebody writes it.
  datatype Term =
    | Contains(text: string)
    | AtMost(results: int)
    | OfType(kind: nat)
    | Bound(attr: Attr, op: Op, val: int)
    | AtHome

  predicate SpeltOp(arg: string, op: Op, user: bool) {
    match op
    case Equal => SameNoCase(arg, "equal to")
    case Least => SameNoCase(arg, "at least")
    case Best => SameNoCase(arg, "at best")
    case Strange =>
      !user && !SameNoCase(arg, "equal to") && !SameNoCase(arg, "at least") && !SameNoCase(arg, "at best")
  }

  predicate SpeltKind(arg: string, kind: nat) {
    || (kind == 0 && SameNoCase(arg, "mp3")) || (kind == 1 && SameNoCase(arg, "audio"))
    || (kind == 2 && SameNoCase(arg, "video")) || (kind == 3 && SameNoCase(arg, "application"))
    || (kind == 4 && SameNoCase(arg, "image")) || (kind == 5 && SameNoCase(arg, "text"))
  }

  predicate SpeltAttr(arg: string, attr: Attr) {
    match attr
    case LineSpeeds => SameNoCase(arg, "linespeed")
    case BitRates => SameNoCase(arg, "bitrate")
    case Freqs => SameNoCase(arg, "freq")
  }

  // The arguments of one clause; capitals do not matter.
  predicate Spelt(a: seq<string>, t: Term, user: bool) {
    match t
    case Contains(text) => |a| == 3 && SameNoCase(a[0], "filename") && SameNoCase(a[1], "contains") && a[2] == text
    case AtMost(n) => |a| == 2 && SameNoCase(a[0], "max_results") && IntArg(a[1]) == Some(n)
    case OfType(kind) => |a| == 2 && SameNoCase(a[0], "type") && SpeltKind(a[1], kind)
    case Bound(attr, op, n) => |a| == 3 && SpeltAttr(a[0], attr) && SpeltOp(a[1], op, user) && IntArg(a[2]) == Some(n)
    case AtHome => |a| == 1 && SameNoCase(a[0], "local")
  }

  function Width(t: Term): nat {
    if t.Contains? || t.Bound? then 3 else if t.AtHome? then 1 else 2
  }

  predicate Written(args: seq<string>, terms: seq<Term>, user: bool)
    decreases |terms|
  {
    if terms == [] then args == []
    else
      var n := Width(terms[0]);
      n <= |args| && Spelt(args[..n], terms[0], user) && Written(args[n..], terms[1..], user)
  }

  // --- What the clauses mean ----------------------------------------------------------------

  // The numbers of a query.
  datatype Slot = Limit | Kind | Min(attr: Attr) | Max(attr: Attr)

  function RangeFor(q: Query, attr: Attr): Range {
    match attr case LineSpeeds => q.speed case BitRates => q.bitrate case Freqs => q.freq
  }

  function Held(q: Query, slot: Slot): int {
    match slot
    case Limit => q.limit
    case Kind => q.kind
    case Min(attr) => RangeFor(q, attr).min
    case Max(attr) => RangeFor(q, attr).max
  }

  // What a clause says about a number, if anything; cap is Max_Search_Results.
  function Says(t: Term, slot: Slot, cap: int): Option<int> {
    match t
    case AtMost(n) => if slot == Limit then Some(if cap > 0 && n > cap then cap else n) else None
    case OfType(kind) => if slot == Kind then Some(kind) else None
    case Bound(attr, op, n) =>
      if (slot == Min(attr) && (op == Equal || op == Least)) || (slot == Max(attr) && (op == Equal || op == Best)) then Some(n)
      else None
    case _ => None
  }

  // The last clause that says something decides; with none it is what it was.
  ghost predicate Decided(terms: seq<Term>, slot: Slot, cap: int, before: int, now: int) {
    && ((forall t <- terms :: Says(t, slot, cap).None?) ==> now == before)
    && (forall i :: 0 <= i < |terms| && Says(terms[i], slot, cap).Some?
                    && (forall j :: i < j < |terms| ==> Says(terms[j], slot, cap).None?)
                  ==> now == Says(terms[i], slot, cap).value)
  }

  function Words(terms: seq<Term>, filter: Filter): seq<string> {
    if terms == [] then []
    else (if terms[0].Contains? then Tokenized(terms[0].text, filter) else []) + Words(terms[1..], filter)
  }

  ghost predicate Means(terms: seq<Term>, how: Setup, before: Query, now: Query) {
    && (now.local <==> before.local || AtHome in terms)
    && now.tokens == before.tokens + Words(terms, how.filter)
    && forall slot :: Decided(terms, slot, how.cap, Held(before, slot), Held(now, slot))
  }

  // What one clause does.
  function Took(t: Term, how: Setup, q: Query): Query {
    match t
    case Contains(text) => q.(tokens := q.tokens + Tokenized(text, how.filter))
    case AtMost(n) => q.(limit := Capped(n, how.cap))
    case OfType(kind) => q.(kind := kind)
    case Bound(attr, op, n) =>
      var was := RangeFor(q, attr);
      var r := if op == Equal then Range(n, n) else if op == Least then was.(min := n)
               else if op == Best then was.(max := n) else was;
      if attr == LineSpeeds then q.(speed := r) else if attr == BitRates then q.(bitrate := r) else q.(freq := r)
    case AtHome => q.(local := true)
  }

  lemma TookHolds(t: Term, how: Setup, q: Query, slot: Slot)
    ensures Held(Took(t, how, q), slot)
         == if Says(t, slot, how.cap).Some? then Says(t, slot, how.cap).value else Held(q, slot)
  {
    hide Tokenized;
  }

  lemma DecidedOn(terms: seq<Term>, slot: Slot, cap: int, before: int, now: int)
    requires terms != []
    requires var s := Says(terms[0], slot, cap); Decided(terms[1..], slot, cap, if s.Some? then s.value else before, now)
    ensures Decided(terms, slot, cap, before, now)
  {
    hide Says;
    var rest := terms[1..];
    assert terms == [terms[0]] + rest;
    forall i | 0 <= i < |terms| && Says(terms[i], slot, cap).Some?
               && forall j :: i < j < |terms| ==> Says(terms[j], slot, cap).None?
      ensures now == Says(terms[i], slot, cap).value
    {
      if i > 0 {
        assert rest[i - 1] == terms[i] && forall j :: i - 1 < j < |rest| ==> rest[j] == terms[j + 1];
      } else {
        forall t | t in rest ensures Says(t, slot, cap).None? {
          var j :| 0 <= j < |rest| && rest[j] == t;
          assert terms[j + 1] == t;
        }
      }
    }
  }

  lemma MeansOn(terms: seq<Term>, how: Setup, before: Query, now: Query)
    requires terms != [] && Means(terms[1..], how, Took(terms[0], how, before), now)
    ensures Means(terms, how, before, now)
  {
    hide Decided, Tokenized, Held, Says;
    var next := Took(terms[0], how, before);
    assert terms == [terms[0]] + terms[1..];
    forall slot ensures Decided(terms, slot, how.cap, Held(before, slot), Held(now, slot)) {
      assert Decided(terms[1..], slot, how.cap, Held(next, slot), Held(now, slot));
      TookHolds(terms[0], how, before, slot);
      DecidedOn(terms, slot, how.cap, Held(before, slot), Held(now, slot));
    }
    if terms[0].Contains? {
      assert (before.tokens + Tokenized(terms[0].text, how.filter)) + Words(terms[1..], how.filter)
          == before.tokens + (Tokenized(terms[0].text, how.filter) + Words(terms[1..], how.filter));
    } else {
      assert next.tokens == before.tokens;
      assert Words(terms, how.filter) == Words(terms[1..], how.filter);
    }
  }

  // --- How the clauses are told apart ---------------------------------------------------------

  lemma Keywords()
    ensures var k := ["filename", "max_results", "type", "linespeed", "bitrate", "freq", "local"];
      forall i, j :: 0 <= i < j < |k| ==> !SameNoCase(k[i], k[j])
    ensures !SameNoCase("equal to", "at least") && !SameNoCase("equal to", "at best") && !SameNoCase("at least", "at best")
  {
    assert Lower("type")[0] == 't' && Lower("freq")[0] == 'f';
    assert Lower("equal to")[0] == 'e' && Lower("at least")[0] == 'a';
    assert |"filename"| == 8 && |"max_results"| == 11 && |"type"| == 4 && |"linespeed"| == 9 && |"bitrate"| == 7
        && |"freq"| == 4 && |"local"| == 5;
  }

  lemma ClauseIs(a: seq<string>, t: Term, user: bool)
    requires Spelt(a, t, user)
    ensures |a| == Width(t)
    ensures ClauseOf(a[0]) == match t
                              case Contains(_) => FileName
                              case AtMost(_) => MaxResults
                              case OfType(_) => Type
                              case Bound(attr, _, _) =>
                                (match attr case LineSpeeds => LineSpeed case BitRates => BitRate case Freqs => Freq)
                              case AtHome => Local
  {
    hide IntArg, SpeltOp, SpeltKind;
    Keywords();
    var k := ["filename", "max_results", "type", "linespeed", "bitrate", "freq", "local"];
    assert k[0] == "filename" && k[1] == "max_results" && k[2] == "type" && k[3] == "linespeed" && k[4] == "bitrate"
        && k[5] == "freq" && k[6] == "local";
  }

  lemma KindIs(arg: string, kind: nat)
    requires SpeltKind(arg, kind)
    ensures KindOf(arg, 0) == Some(kind)
  {
    KindNames();
    assert KindOf(arg, kind) == Some(kind);
  }

  lemma KindNames()
    ensures forall i, j :: 0 <= i < j < 6 ==> !SameNoCase(CONTENT_TYPES[i], CONTENT_TYPES[j])
  {
    assert Lower("audio")[0] == 'a' && Lower("video")[0] == 'v' && Lower("image")[0] == 'i';
  }

  lemma OpIs(arg: string, op: Op, n: int, r: Range, user: bool)
    requires SpeltOp(arg, op, user)
    ensures Compared(arg, n, r, user) == Some(match op
                                              case Equal => Range(n, n)
                                              case Least => r.(min := n)
                                              case Best => r.(max := n)
                                              case Strange => r)
  {
    Keywords();
  }

  // --- A request is understood exactly when it is such a list of clauses, and means what they say ---

  lemma ClauseMeans(args: seq<string>, t: Term, how: Setup, q: Query)
    requires Width(t) <= |args| && Spelt(args[..Width(t)], t, how.user)
    ensures Read(args, q, how) == Read(args[Width(t)..], Took(t, how, q), how)
  {
    hide Read, ClauseOf, SameNoCase, IntArg;
    ClauseIs(args[..Width(t)], t, how.user);
    if t.Bound? {
      BoundMeans(args, t, how, q);
    } else {
      PlainMeans(args, t, how, q);
    }
  }

  lemma PlainMeans(args: seq<string>, t: Term, how: Setup, q: Query)
    requires !t.Bound? && Width(t) <= |args| && Spelt(args[..Width(t)], t, how.user)
    requires ClauseOf(args[0])
          == if t.Contains? then FileName else if t.AtMost? then MaxResults else if t.OfType? then Type else Local
    ensures Read(args, q, how) == Read(args[Width(t)..], Took(t, how, q), how)
  {
    hide Tokenized, IntArg, KindOf, Compared, SpeltKind, ClauseOf, Lower;
    assert forall i :: 0 <= i < Width(t) ==> args[..Width(t)][i] == args[i];
    if t.OfType? {
      KindIs(args[1], t.kind);
    }
  }

  lemma BoundMeans(args: seq<string>, t: Term, how: Setup, q: Query)
    requires t.Bound? && |args| >= 3 && SpeltOp(args[1], t.op, how.user) && IntArg(args[2]) == Some(t.val)
    requires ClauseOf(args[0])
          == if t.attr == LineSpeeds then LineSpeed else if t.attr == BitRates then BitRate else Freq
    ensures Read(args, q, how) == Read(args[3..], Took(t, how, q), how)
  {
    hide Tokenized, IntArg, KindOf, Compared, SpeltOp, ClauseOf, SameNoCase;
    OpIs(args[1], t.op, t.val, RangeFor(q, t.attr), how.user);
  }

  lemma {:induction false} WrittenIsRead(args: seq<string>, terms: seq<Term>, how: Setup, q: Query)
    requires Written(args, terms, how.user)
    ensures Read(args, q, how).Asked? && Means(terms, how, q, Read(args, q, how).query)
    decreases |terms|
  {
    hide Spelt, Means, Took;
    if terms == [] {
      NothingMeans(how, q);
    } else {
      var n := Width(terms[0]);
      ClauseMeans(args, terms[0], how, q);
      WrittenIsRead(args[n..], terms[1..], how, Took(terms[0], how, q));
      MeansOn(terms, how, q, Read(args, q, how).query);
    }
  }

  lemma NothingMeans(how: Setup, q: Query)
    ensures Means([], how, q, q)
  {
    assert q.tokens + [] == q.tokens;
  }

  lemma {:induction false} ReadIsWritten(args: seq<string>, how: Setup, q: Query) returns (terms: seq<Term>)
    requires Read(args, q, how).Asked?
    ensures Written(args, terms, how.user)
    decreases |args|
  {
    hide Took, Read;
    if args == [] {
      return [];
    }
    var t := FirstClause(args, how, q);
    ClauseMeans(args, t, how, q);
    var rest := ReadIsWritten(args[Width(t)..], how, Took(t, how, q));
    terms := [t] + rest;
    assert terms[1..] == rest;
  }

  lemma FirstClause(args: seq<string>, how: Setup, q: Query) returns (t: Term)
    requires args != [] && Read(args, q, how).Asked?
    ensures Width(t) <= |args| && Spelt(args[..Width(t)], t, how.user)
  {
    hide Tokenized, IntArg, KindOf, Compared;
    match ClauseOf(args[0])
    case FileName => t := Contains(args[2]);
    case MaxResults => t := AtMost(IntArg(args[1]).value);
    case Type => t := OfType(KindOf(args[1], 0).value); KindIsSpelt(args[1]);
    case Local => t := AtHome;
    case LineSpeed => t := FirstBound(args, how, LineSpeeds, q.speed);
    case BitRate => t := FirstBound(args, how, BitRates, q.bitrate);
    case Freq => t := FirstBound(args, how, Freqs, q.freq);
  }

  lemma FirstBound(args: seq<string>, how: Setup, attr: Attr, r: Range) returns (t: Term)
    requires |args| >= 3 && SpeltAttr(args[0], attr) && IntArg(args[2]).Some?
    requires Compared(args[1], IntArg(args[2]).value, r, how.user).Some?
    ensures t.Bound? && Spelt(args[..3], t, how.user)
  {
    hide IntArg, SpeltAttr;
    var op := if SameNoCase(args[1], "equal to") then Equal else if SameNoCase(args[1], "at least") then Least
              else if SameNoCase(args[1], "at best") then Best else Strange;
    t := Bound(attr, op, IntArg(args[2]).value);
  }

  lemma KindIsSpelt(arg: string)
    requires KindOf(arg, 0).Some?
    ensures KindOf(arg, 0).value >= 0 && SpeltKind(arg, KindOf(arg, 0).value)
  {
    assert KindOf(arg, 6).None?;
    assert KindOf(arg, 4) == if SameNoCase(arg, "image") then Some(4) else if SameNoCase(arg, "text") then Some(5) else None;
    assert KindOf(arg, 2) == if SameNoCase(arg, "video") then Some(2) else if SameNoCase(arg, "application") then Some(3)
                             else KindOf(arg, 4);
  }

  lemma UnderstoodIff(args: seq<string>, how: Setup)
    ensures Read(args, Fresh(how.cap), how).Asked? <==> exists terms :: Written(args, terms, how.user)
  {
    hide Read, Written, Means;
    if Read(args, Fresh(how.cap), how).Asked? {
      var terms := ReadIsWritten(args, how, Fresh(how.cap));
    }
    forall terms | Written(args, terms, how.user) ensures Read(args, Fresh(how.cap), how).Asked? {
      WrittenIsRead(args, terms, how, Fresh(how.cap));
    }
  }

  // Without a clause that says otherwise: Max_Search_Results mp3 files of any rates, from everywhere.
  lemma UnderstoodMeans(args: seq<string>, terms: seq<Term>, how: Setup)
    requires Written(args, terms, how.user)
    ensures Read(args, Fresh(how.cap), how).Asked?
    ensures Means(terms, how, Query([], how.cap, 0, Range(0, 0xffff), Range(0, 0xffff), Range(0, 10), false),
                  Read(args, Fresh(how.cap), how).query)
  {
    hide Read, Written, Means;
    WrittenIsRead(args, terms, how, Fresh(how.cap));
  }

  lemma {:induction false} SomebodyDecides(terms: seq<Term>, slot: Slot, cap: int) returns (i: nat)
    requires exists t <- terms :: Says(t, slot, cap).Some?
    ensures i < |terms| && Says(terms[i], slot, cap).Some? && forall j :: i < j < |terms| ==> Says(terms[j], slot, cap).None?
  {
    hide Says;
    i := |terms| - 1;
    if Says(terms[i], slot, cap).None? {
      assert terms == terms[..i] + [terms[i]];
      i := SomebodyDecides(terms[..i], slot, cap);
    }
  }

  // Nobody gets more than Max_Search_Results, if that is positive, by asking for more; who does not say
  // asks for so many; and only LOCAL keeps a search at home.
  lemma LimitIs(args: seq<string>, terms: seq<Term>, how: Setup)
    requires Written(args, terms, how.user)
    ensures Read(args, Fresh(how.cap), how).Asked?
    ensures var q := Read(args, Fresh(how.cap), how).query;
      && (how.cap > 0 ==> q.limit <= how.cap)
      && ((forall t <- terms :: !t.AtMost?) ==> q.limit == how.cap)
      && (forall i :: 0 <= i < |terms| && terms[i].AtMost? && (forall j :: 0 <= j < |terms| && j != i ==> !terms[j].AtMost?)
                      ==> q.limit == if how.cap <= 0 || terms[i].results <= how.cap then terms[i].results else how.cap)
      && (q.local <==> AtHome in terms)
  {
    hide Read, Written;
    UnderstoodMeans(args, terms, how);
    var q := Read(args, Fresh(how.cap), how).query;
    assert Decided(terms, Limit, how.cap, how.cap, Held(q, Limit));
    if exists t <- terms :: Says(t, Limit, how.cap).Some? {
      var i := SomebodyDecides(terms, Limit, how.cap);
    }
  }

  // A client that asks for 0 results, or fewer, asks without a limit, whatever the server allows.
  lemma NoLimit(how: Setup)
    ensures var args := ["FILENAME", "CONTAINS", "foo", "MAX_RESULTS", "0"];
      Read(args, Fresh(how.cap), how).Asked? && Read(args, Fresh(how.cap), how).query.limit == 0
  {
    hide Read;
    var args := ["FILENAME", "CONTAINS", "foo", "MAX_RESULTS", "0"];
    var terms := [Contains("foo"), AtMost(0)];
    assert IntArg("0") == Some(0) by {
      DecimalComesBack(0);
      assert Decimal(0) == "0";
    }
    assert args[..3] == ["FILENAME", "CONTAINS", "foo"] && args[3..] == ["MAX_RESULTS", "0"];
    assert args[3..][..2] == ["MAX_RESULTS", "0"] && args[3..][2..] == [];
    assert terms[1..] == [AtMost(0)] && terms[1..][1..] == [];
    CapitalsDoNotMatter();
    assert Written(args[3..], terms[1..], how.user);
    LimitIs(args, terms, how);
  }

  lemma CapitalsDoNotMatter()
    ensures SameNoCase("FILENAME", "filename") && SameNoCase("CONTAINS", "contains") && SameNoCase("MAX_RESULTS", "max_results")
  {}
}
