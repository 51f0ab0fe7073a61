/**
 The race feed: the events of four tables merged newest first and cut at thirty, each table having
 been cut to its own newest thirty rows by the query that reads it.
 */
module Feed {
  import opened Options
  import opened StableSorting

  const FEED_LIMIT: nat := 30

  datatype RaceControlRow = RaceControlRow(frame: int, sessionTime: real, code: string, safetyCarType: Option<string>,
          text: string)

  /** A penalty, retirement or fastest lap; `text` is its message. */
  datatype EventRow = EventRow(frame: int, sessionTime: real, text: string)

  datatype Kind = Flag | Lights | Drs | SafetyCar | Penalty | Retirement | FastestLap

  datatype Item = Item(frame: int, sessionTime: real, kind: Kind, message: string)

  /** Safety-car rows without a type, and rows with an unknown code, have no message. */
  predicate HasMessage(r: RaceControlRow) {
    if r.code == "SCAR" then r.safetyCarType.Some? && r.safetyCarType.value != "" && r.safetyCarType.value != "NONE"
    else r.code in ["SSTA", "SEND", "LGOT", "CHQF", "RDFL", "DRSE", "DRSD", "STLG"]
  }

  function RaceControlMessage(r: RaceControlRow): Option<string> {
    if HasMessage(r) then Some(r.text) else None
  }

  function RaceControlKind(r: RaceControlRow): Kind {
    if r.code == "SCAR" then SafetyCar
    else if r.code == "DRSE" || r.code == "DRSD" then Drs
    else if r.code == "STLG" then Lights
    else Flag
  }

  function RaceControlItems(rows: seq<RaceControlRow>): seq<Item> {
    if rows == [] then []
    else
      var r := rows[|rows| - 1];
      RaceControlItems(rows[..|rows| - 1])
        + (if RaceControlMessage(r).Some?
           then [Item(r.frame, r.sessionTime, RaceControlKind(r), RaceControlMessage(r).value)] else [])
  }

  function EventItems(rows: seq<EventRow>, kind: Kind): seq<Item> {
    if rows == [] then []
    else
      var r := rows[|rows| - 1];
      EventItems(rows[..|rows| - 1], kind) + [Item(r.frame, r.sessionTime, kind, r.text)]
  }

  datatype Sources = Sources(raceControl: seq<RaceControlRow>, penalties: seq<EventRow>, retirements: seq<EventRow>,
          fastestLaps: seq<EventRow>)

  function Items(s: Sources): seq<Item> {
    RaceControlItems(s.raceControl) + EventItems(s.penalties, Penalty) + EventItems(s.retirements, Retirement)
      + EventItems(s.fastestLaps, FastestLap)
  }

  function FrameOf(i: Item): real {
    i.frame as real
  }

  function Newest(items: seq<Item>): seq<Item> {
    var sorted := SortDesc(items, FrameOf);
    if |sorted| <= FEED_LIMIT then sorted else sorted[..FEED_LIMIT]
  }

  method EventsOf(rows: seq<EventRow>, kind: Kind, items: seq<Item>) returns (r: seq<Item>)
    ensures r == items + EventItems(rows, kind)
  {
    r := items;
    for i := 0 to |rows|
      invariant r == items + EventItems(rows[..i], kind)
    {
      assert rows[..i + 1][..i] == rows[..i];
      r := r + [Item(rows[i].frame, rows[i].sessionTime, kind, rows[i].text)];
    }
    assert rows[..|rows|] == rows;
  }

  method BuildFeed(s: Sources) returns (feed: seq<Item>)
    ensures feed == Newest(Items(s))
  {
    var items: seq<Item> := [];
    var rows := s.raceControl;
    for i := 0 to |rows|
      invariant items == RaceControlItems(rows[..i])
    {
      assert rows[..i + 1][..i] == rows[..i];
      var message := RaceControlMessage(rows[i]);
      if message == None {
        continue;
      }
      items := items + [Item(rows[i].frame, rows[i].sessionTime, RaceControlKind(rows[i]), message.value)];
    }
    assert rows[..|rows|] == rows;
    items := EventsOf(s.penalties, Penalty, items);
    items := EventsOf(s.retirements, Retirement, items);
    items := EventsOf(s.fastestLaps, FastestLap, items);
    items := SortDesc(items, FrameOf);
    feed := if |items| <= FEED_LIMIT then items else items[..FEED_LIMIT];
  }

  // ---------------------------------------------------------------------------------------------
  // The items, table by table
  // ---------------------------------------------------------------------------------------------

  /** A row that says something: a known event, or a safety car of a type that is given. */
  ghost predicate Speaks(r: RaceControlRow) {
    || r.code == "SSTA" || r.code == "SEND" || r.code == "LGOT" || r.code == "CHQF" || r.code == "RDFL"
    || r.code == "DRSE" || r.code == "DRSD" || r.code == "STLG"
    || (r.code == "SCAR" && r.safetyCarType !in {None, Some(""), Some("NONE")})
  }

  /** The item of a row that speaks: safety cars, DRS and start lights are kinds of their own, the rest are flags. */
  ghost predicate IsRaceControlItem(i: Item, r: RaceControlRow) {
    && Speaks(r) && i.frame == r.frame && i.sessionTime == r.sessionTime && i.message == r.text
    && (i.kind == SafetyCar <==> r.code == "SCAR")
    && (i.kind == Drs <==> r.code == "DRSE" || r.code == "DRSD")
    && (i.kind == Lights <==> r.code == "STLG")
    && i.kind in {SafetyCar, Drs, Lights, Flag}
  }

  ghost predicate IsEventItem(i: Item, r: EventRow, kind: Kind) {
    i.frame == r.frame && i.sessionTime == r.sessionTime && i.kind == kind && i.message == r.text
  }

  lemma {:induction false} ItemOfRow(i: Item, r: RaceControlRow)
    ensures IsRaceControlItem(i, r)
       <==> HasMessage(r) && i == Item(r.frame, r.sessionTime, RaceControlKind(r), r.text)
  {
  }

  lemma {:induction false} RaceControlItemsMembers(rows: seq<RaceControlRow>, i: Item)
    ensures i in RaceControlItems(rows) <==> exists k :: 0 <= k < |rows| && IsRaceControlItem(i, rows[k])
  {
    if rows != [] {
      var n := |rows| - 1;
      RaceControlItemsMembers(rows[..n], i);
      ItemOfRow(i, rows[n]);
      forall k | 0 <= k < n
        ensures rows[..n][k] == rows[k]
      {
      }
      assert i in RaceControlItems(rows) <==> i in RaceControlItems(rows[..n]) || IsRaceControlItem(i, rows[n]);
    }
  }

  lemma {:induction false} EventItemsMembers(rows: seq<EventRow>, kind: Kind, i: Item)
    ensures i in EventItems(rows, kind) <==> exists k :: 0 <= k < |rows| && IsEventItem(i, rows[k], kind)
  {
    if rows != [] {
      var n := |rows| - 1;
      EventItemsMembers(rows[..n], kind, i);
      forall k | 0 <= k < n
        ensures rows[..n][k] == rows[k]
      {
      }
      assert i in EventItems(rows, kind) <==> i in EventItems(rows[..n], kind) || IsEventItem(i, rows[n], kind);
    }
  }

  /** The union that is sorted and cut: an item for each row that speaks, of the kind its table says. */
  lemma {:induction false} ItemsAreTheRows(s: Sources, i: Item)
    ensures i in Items(s)
       <==> || (exists k :: 0 <= k < |s.raceControl| && IsRaceControlItem(i, s.raceControl[k]))
            || (exists k :: 0 <= k < |s.penalties| && IsEventItem(i, s.penalties[k], Penalty))
            || (exists k :: 0 <= k < |s.retirements| && IsEventItem(i, s.retirements[k], Retirement))
            || (exists k :: 0 <= k < |s.fastestLaps| && IsEventItem(i, s.fastestLaps[k], FastestLap))
  {
    RaceControlItemsMembers(s.raceControl, i);
    EventItemsMembers(s.penalties, Penalty, i);
    EventItemsMembers(s.retirements, Retirement, i);
    EventItemsMembers(s.fastestLaps, FastestLap, i);
  }

  lemma {:induction false} CutIsNoNewer(sorted: seq<Item>, k: nat)
    requires Descending(sorted, FrameOf) && k <= |sorted|
    ensures forall a, b :: a in sorted[k..] && b in sorted[..k] ==> a.frame <= b.frame
    ensures multiset(sorted) - multiset(sorted[..k]) == multiset(sorted[k..])
  {
    assert sorted == sorted[..k] + sorted[k..];
    forall a, b | a in sorted[k..] && b in sorted[..k]
      ensures a.frame <= b.frame
    {
      var i :| 0 <= i < |sorted| - k && sorted[k..][i] == a;
      var j :| 0 <= j < k && sorted[..k][j] == b;
      assert FrameOf(sorted[j]) >= FrameOf(sorted[k + i]);
    }
  }

  /** The feed is in descending order, and thirty long unless there are fewer items. */
  lemma {:induction false} FeedIsSorted(items: seq<Item>)
    ensures Descending(Newest(items), FrameOf)
    ensures |Newest(items)| == if |items| <= 30 then |items| else 30
  {
    SortDescFacts(items, FrameOf);
  }

  /** The feed's items come from the union, and no omitted item is newer than a kept one. */
  lemma {:induction false} FeedIsTheNewest(items: seq<Item>)
    ensures multiset(Newest(items)) <= multiset(items)
    ensures forall a, b :: a in multiset(items) - multiset(Newest(items)) && b in Newest(items) ==> a.frame <= b.frame
  {
    SortDescFacts(items, FrameOf);
    var sorted := SortDesc(items, FrameOf);
    assert sorted[..|sorted|] == sorted;
    KeptAndOmitted(items, sorted, if |sorted| <= FEED_LIMIT then |sorted| else FEED_LIMIT);
  }

  lemma {:induction false} KeptAndOmitted(items: seq<Item>, sorted: seq<Item>, k: nat)
    requires multiset(sorted) == multiset(items) && Descending(sorted, FrameOf) && k <= |sorted|
    ensures multiset(sorted[..k]) <= multiset(items)
    ensures forall a, b :: a in multiset(items) - multiset(sorted[..k]) && b in sorted[..k] ==> a.frame <= b.frame
  {
    CutIsNoNewer(sorted, k);
    assert sorted == sorted[..k] + sorted[k..];
  }

  // ---------------------------------------------------------------------------------------------
  // Counting
  // ---------------------------------------------------------------------------------------------

  function Count<T>(s: seq<T>, p: T -> bool): (n: nat)
    ensures n <= |s|
  {
    if s == [] then 0 else Count(s[..|s| - 1], p) + (if p(s[|s| - 1]) then 1 else 0)
  }

  lemma {:induction false} CountConcat<T>(s: seq<T>, t: seq<T>, p: T -> bool)
    ensures Count(s + t, p) == Count(s, p) + Count(t, p)
  {
    if t == [] {
      assert s + t == s;
    } else {
      CountConcat(s, t[..|t| - 1], p);
      assert (s + t)[..|s + t| - 1] == s + t[..|t| - 1];
    }
  }

  lemma {:induction false} CountPermuted<T>(s: seq<T>, t: seq<T>, p: T -> bool)
    requires multiset(s) == multiset(t)
    ensures Count(s, p) == Count(t, p)
  {
    if s == [] {
      assert |multiset(t)| == 0;
    } else {
      var x := s[|s| - 1];
      assert x in multiset(t);
      var j :| 0 <= j < |t| && t[j] == x;
      RestPermuted(s, t, j);
      CountPermuted(s[..|s| - 1], t[..j] + t[j + 1..], p);
      CountWithout(t, j, p);
    }
  }

  lemma {:induction false} WithoutOne<T>(t: seq<T>, j: nat)
    requires j < |t|
    ensures multiset(t[..j] + t[j + 1..]) == multiset(t) - multiset{t[j]}
  {
    assert t == t[..j] + [t[j]] + t[j + 1..];
    assert multiset(t) == multiset(t[..j] + t[j + 1..]) + multiset{t[j]};
  }

  lemma {:induction false} RestPermuted<T>(s: seq<T>, t: seq<T>, j: nat)
    requires multiset(s) == multiset(t) && j < |t| && s != [] && t[j] == s[|s| - 1]
    ensures multiset(s[..|s| - 1]) == multiset(t[..j] + t[j + 1..])
  {
    var n := |s| - 1;
    WithoutOne(t, j);
    WithoutOne(s, n);
    assert s[..n] + s[n + 1..] == s[..n];
  }

  lemma {:induction false} CountWithout<T>(t: seq<T>, j: nat, p: T -> bool)
    requires j < |t|
    ensures Count(t, p) == Count(t[..j] + t[j + 1..], p) + (if p(t[j]) then 1 else 0)
  {
    assert t == t[..j] + [t[j]] + t[j + 1..];
    CountConcat(t[..j] + [t[j]], t[j + 1..], p);
    CountConcat(t[..j], [t[j]], p);
    CountConcat(t[..j], t[j + 1..], p);
    CountOne(t[j], p);
  }

  lemma {:induction false} CountOne<T>(x: T, p: T -> bool)
    ensures Count([x], p) == if p(x) then 1 else 0
  {
  }

  lemma {:induction false} CountAll<T>(s: seq<T>, p: T -> bool)
    ensures (forall i :: 0 <= i < |s| ==> p(s[i])) <==> Count(s, p) == |s|
  {
    if s != [] {
      CountAll(s[..|s| - 1], p);
    }
  }

  lemma {:induction false} CountNone<T>(s: seq<T>, p: T -> bool)
    ensures (forall i :: 0 <= i < |s| ==> !p(s[i])) <==> Count(s, p) == 0
  {
    if s != [] {
      CountNone(s[..|s| - 1], p);
    }
  }

  function Capped(n: nat): nat {
    if n <= FEED_LIMIT then n else FEED_LIMIT
  }

  /** Items at frame `x` or newer. */
  function Since(x: int): Item -> bool {
    (i: Item) => i.frame >= x
  }

  function EventSince(x: int): EventRow -> bool {
    (r: EventRow) => r.frame >= x
  }

  function MessageSince(x: int): RaceControlRow -> bool {
    (r: RaceControlRow) => HasMessage(r) && r.frame >= x
  }

  lemma {:induction false} RaceControlItemsCount(rows: seq<RaceControlRow>, x: int)
    ensures Count(RaceControlItems(rows), Since(x)) == Count(rows, MessageSince(x))
  {
    if rows != [] {
      var r := rows[|rows| - 1];
      RaceControlItemsCount(rows[..|rows| - 1], x);
      var tail := if HasMessage(r) then [Item(r.frame, r.sessionTime, RaceControlKind(r), r.text)] else [];
      assert RaceControlItems(rows) == RaceControlItems(rows[..|rows| - 1]) + tail;
      CountConcat(RaceControlItems(rows[..|rows| - 1]), tail, Since(x));
      if HasMessage(r) {
        CountOne(tail[0], Since(x));
      } else {
        assert Count(tail, Since(x)) == 0;
      }
    }
  }

  lemma {:induction false} EventItemsCount(rows: seq<EventRow>, kind: Kind, x: int)
    ensures Count(EventItems(rows, kind), Since(x)) == Count(rows, EventSince(x))
  {
    if rows != [] {
      var r := rows[|rows| - 1];
      EventItemsCount(rows[..|rows| - 1], kind, x);
      CountConcat(EventItems(rows[..|rows| - 1], kind), [Item(r.frame, r.sessionTime, kind, r.text)], Since(x));
      CountOne(Item(r.frame, r.sessionTime, kind, r.text), Since(x));
    }
  }

  lemma {:induction false} ItemsCount(s: Sources, x: int)
    ensures Count(Items(s), Since(x))
         == Count(s.raceControl, MessageSince(x)) + Count(s.penalties, EventSince(x))
              + Count(s.retirements, EventSince(x)) + Count(s.fastestLaps, EventSince(x))
  {
    var a, b := RaceControlItems(s.raceControl), EventItems(s.penalties, Penalty);
    var c, d := EventItems(s.retirements, Retirement), EventItems(s.fastestLaps, FastestLap);
    CountConcat(a + b + c, d, Since(x));
    CountConcat(a + b, c, Since(x));
    CountConcat(a, b, Since(x));
    RaceControlItemsCount(s.raceControl, x);
    EventItemsCount(s.penalties, Penalty, x);
    EventItemsCount(s.retirements, Retirement, x);
    EventItemsCount(s.fastestLaps, FastestLap, x);
  }

  lemma {:induction false} CountSplit(s: seq<Item>, k: nat, x: int)
    requires k <= |s|
    ensures Count(s, Since(x)) == Count(s[..k], Since(x)) + Count(s[k..], Since(x))
  {
    assert s == s[..k] + s[k..];
    CountConcat(s[..k], s[k..], Since(x));
  }

  lemma {:induction false} NewerBefore(s: seq<Item>, i: nat, x: int)
    requires Descending(s, FrameOf) && i < |s| && s[i].frame >= x
    ensures Count(s[..i + 1], Since(x)) == i + 1
  {
    forall j | 0 <= j <= i
      ensures s[j].frame >= x
    {
      assert FrameOf(s[j]) >= FrameOf(s[i]);
    }
    CountAll(s[..i + 1], Since(x));
  }

  lemma {:induction false} OlderAfter(s: seq<Item>, i: nat, x: int)
    requires Descending(s, FrameOf) && i < |s| && s[i].frame < x
    ensures Count(s[i..], Since(x)) == 0
  {
    forall j | i <= j < |s|
      ensures s[j].frame < x
    {
      assert j == i || FrameOf(s[i]) >= FrameOf(s[j]);
    }
    CountNone(s[i..], Since(x));
  }

  /** In descending order, the items since `x` come first. */
  lemma {:induction false} SinceIsPrefix(s: seq<Item>, i: nat, x: int)
    requires Descending(s, FrameOf) && i < |s|
    ensures s[i].frame >= x <==> Count(s, Since(x)) > i
  {
    if s[i].frame >= x {
      NewerBefore(s, i, x);
      CountSplit(s, i + 1, x);
    } else {
      OlderAfter(s, i, x);
      CountSplit(s, i, x);
    }
  }

  lemma {:induction false} PrefixCount(s: seq<Item>, x: int)
    requires Descending(s, FrameOf) && |s| >= FEED_LIMIT
    ensures Count(s[..FEED_LIMIT], Since(x)) == Capped(Count(s, Since(x)))
  {
    var last := FEED_LIMIT - 1;
    CountSplit(s, FEED_LIMIT, x);
    if s[last].frame >= x {
      NewerBefore(s, last, x);
    } else {
      OlderAfter(s, last, x);
      CountSplit(s, last, x);
      CountSplit(s[..FEED_LIMIT], last, x);
      assert s[..FEED_LIMIT][..last] == s[..last];
    }
  }

  lemma {:induction false} NewestCount(items: seq<Item>, x: int)
    ensures Count(Newest(items), Since(x)) == Capped(Count(items, Since(x)))
  {
    var sorted := SortDesc(items, FrameOf);
    SortDescFacts(items, FrameOf);
    CountPermuted(sorted, items, Since(x));
    if |sorted| > FEED_LIMIT {
      PrefixCount(sorted, x);
    }
  }

  function Frames(items: seq<Item>): (r: seq<int>)
    ensures |r| == |items| && forall i :: 0 <= i < |items| ==> r[i] == items[i].frame
  {
    if items == [] then [] else Frames(items[..|items| - 1]) + [items[|items| - 1].frame]
  }

  lemma {:induction false} SameFramesSameCount(s: seq<Item>, t: seq<Item>, x: int)
    requires Frames(s) == Frames(t)
    ensures Count(s, Since(x)) == Count(t, Since(x))
  {
    assert |s| == |t|;
    if s != [] {
      var n := |s| - 1;
      assert s[n].frame == Frames(s)[n] == t[n].frame;
      assert Frames(s[..n]) == Frames(s)[..n] && Frames(t[..n]) == Frames(t)[..n];
      SameFramesSameCount(s[..n], t[..n], x);
    }
  }

  lemma {:induction false} NotShorter(s: seq<Item>, t: seq<Item>)
    requires Descending(s, FrameOf)
    requires forall x :: Count(s, Since(x)) == Count(t, Since(x))
    ensures |s| <= |t|
  {
    if s != [] {
      SinceIsPrefix(s, |s| - 1, s[|s| - 1].frame);
      assert Count(s, Since(s[|s| - 1].frame)) <= |t|;
    }
  }

  /** Descending lists with the same counts since every frame have the same frames. */
  lemma {:induction false} SameCountsSameFrames(s: seq<Item>, t: seq<Item>)
    requires Descending(s, FrameOf) && Descending(t, FrameOf)
    requires forall x :: Count(s, Since(x)) == Count(t, Since(x))
    ensures Frames(s) == Frames(t)
  {
    NotShorter(s, t);
    NotShorter(t, s);
    forall i | 0 <= i < |s|
      ensures s[i].frame == t[i].frame
    {
      SinceIsPrefix(s, i, s[i].frame);
      SinceIsPrefix(t, i, s[i].frame);
      SinceIsPrefix(s, i, t[i].frame);
      SinceIsPrefix(t, i, t[i].frame);
    }
  }

  // ---------------------------------------------------------------------------------------------
  // Limits pushed into the queries
  // ---------------------------------------------------------------------------------------------

  /** `ORDER BY frame DESC LIMIT 30`, ties cut anywhere: `top` is read from the table and `cut` is not. */
  ghost predicate IsLimited<R>(table: seq<R>, top: seq<R>, cut: seq<R>, frame: R -> int) {
    && multiset(table) == multiset(top + cut)
    && |top| <= FEED_LIMIT && (cut != [] ==> |top| == FEED_LIMIT)
    && forall i, j :: 0 <= i < |top| && 0 <= j < |cut| ==> frame(top[i]) >= frame(cut[j])
  }

  function EventFrame(r: EventRow): int {
    r.frame
  }

  function RaceControlFrame(r: RaceControlRow): int {
    r.frame
  }

  datatype Cuts = Cuts(raceControl: seq<RaceControlRow>, penalties: seq<EventRow>, retirements: seq<EventRow>,
          fastestLaps: seq<EventRow>)

  ghost predicate AreLimited(tables: Sources, tops: Sources, cuts: Cuts) {
    && IsLimited(tables.raceControl, tops.raceControl, cuts.raceControl, RaceControlFrame)
    && IsLimited(tables.penalties, tops.penalties, cuts.penalties, EventFrame)
    && IsLimited(tables.retirements, tops.retirements, cuts.retirements, EventFrame)
    && IsLimited(tables.fastestLaps, tops.fastestLaps, cuts.fastestLaps, EventFrame)
  }

  lemma {:induction false} LimitedCount(table: seq<EventRow>, top: seq<EventRow>, cut: seq<EventRow>, x: int)
    requires IsLimited(table, top, cut, EventFrame)
    ensures Count(table, EventSince(x)) == Count(top, EventSince(x)) + Count(cut, EventSince(x))
    ensures Count(cut, EventSince(x)) > 0 ==> Count(top, EventSince(x)) == FEED_LIMIT
  {
    CountPermuted(table, top + cut, EventSince(x));
    CountConcat(top, cut, EventSince(x));
    CountNone(cut, EventSince(x));
    if j :| 0 <= j < |cut| && EventSince(x)(cut[j]) {
      forall i | 0 <= i < |top|
        ensures EventSince(x)(top[i])
      {
        assert EventFrame(top[i]) >= EventFrame(cut[j]);
      }
      CountAll(top, EventSince(x));
    }
  }

  /** What the limits cost at frame `x`: race-control messages that were cut, unless there are thirty items anyway. */
  lemma {:induction false} LimitedItems(tables: Sources, tops: Sources, cuts: Cuts, x: int)
    requires AreLimited(tables, tops, cuts)
    ensures var all, read := Count(Items(tables), Since(x)), Count(Items(tops), Since(x));
            all >= read && (read >= FEED_LIMIT || all == read + Count(cuts.raceControl, MessageSince(x)))
  {
    ItemsCount(tables, x);
    ItemsCount(tops, x);
    LimitedCount(tables.penalties, tops.penalties, cuts.penalties, x);
    LimitedCount(tables.retirements, tops.retirements, cuts.retirements, x);
    LimitedCount(tables.fastestLaps, tops.fastestLaps, cuts.fastestLaps, x);
    CountPermuted(tables.raceControl, tops.raceControl + cuts.raceControl, MessageSince(x));
    CountConcat(tops.raceControl, cuts.raceControl, MessageSince(x));
  }

  lemma {:induction false} OlderCountsMore(items: seq<Item>, x: int, y: int)
    requires x <= y
    ensures Count(items, Since(x)) >= Count(items, Since(y))
  {
    if items != [] {
      OlderCountsMore(items[..|items| - 1], x, y);
    }
  }

  /** For every cut row with a message, thirty of the items read are at its frame or newer. */
  ghost predicate CutsAreOlder(cut: seq<RaceControlRow>, read: seq<Item>) {
    forall r :: r in cut && HasMessage(r) ==> Count(read, Since(r.frame)) >= FEED_LIMIT
  }

  lemma {:induction false} CutMessages(cut: seq<RaceControlRow>, read: seq<Item>, x: int)
    requires CutsAreOlder(cut, read)
    ensures Count(cut, MessageSince(x)) > 0 ==> Count(read, Since(x)) >= FEED_LIMIT
  {
    CountNone(cut, MessageSince(x));
    if j :| 0 <= j < |cut| && MessageSince(x)(cut[j]) {
      OlderCountsMore(read, x, cut[j].frame);
    }
  }

  lemma {:induction false} SameCountWhenOlder(tables: Sources, tops: Sources, cuts: Cuts, x: int)
    requires AreLimited(tables, tops, cuts) && CutsAreOlder(cuts.raceControl, Items(tops))
    ensures Count(Newest(Items(tops)), Since(x)) == Count(Newest(Items(tables)), Since(x))
  {
    LimitedItems(tables, tops, cuts, x);
    CutMessages(cuts.raceControl, Items(tops), x);
    NewestCount(Items(tops), x);
    NewestCount(Items(tables), x);
  }

  lemma {:induction false} SameFramesWhenOlder(tables: Sources, tops: Sources, cuts: Cuts)
    requires AreLimited(tables, tops, cuts) && CutsAreOlder(cuts.raceControl, Items(tops))
    ensures Frames(Newest(Items(tops))) == Frames(Newest(Items(tables)))
  {
    var read, all := Newest(Items(tops)), Newest(Items(tables));
    forall x
      ensures Count(read, Since(x)) == Count(all, Since(x))
    {
      SameCountWhenOlder(tables, tops, cuts, x);
    }
    FeedIsSorted(Items(tops));
    FeedIsSorted(Items(tables));
    SameCountsSameFrames(read, all);
  }

  /**
   Cutting every table to its newest thirty rows first gives the frames of the newest thirty of the whole
   union exactly when, for every race-control row that was cut and has a message, thirty of the items read
   are at its frame or newer.
   */
  lemma {:induction false} LimitsAgreeExactly(tables: Sources, tops: Sources, cuts: Cuts)
    requires AreLimited(tables, tops, cuts)
    ensures Frames(Newest(Items(tops))) == Frames(Newest(Items(tables)))
        <==> CutsAreOlder(cuts.raceControl, Items(tops))
  {
    if CutsAreOlder(cuts.raceControl, Items(tops)) {
      SameFramesWhenOlder(tables, tops, cuts);
    } else if Frames(Newest(Items(tops))) == Frames(Newest(Items(tables))) {
      forall r | r in cuts.raceControl && HasMessage(r)
        ensures Count(Items(tops), Since(r.frame)) >= FEED_LIMIT
      {
        CutMessageNeedsFull(tables, tops, cuts, r);
      }
    }
  }

  lemma {:induction false} CutMessageNeedsFull(tables: Sources, tops: Sources, cuts: Cuts, r: RaceControlRow)
    requires AreLimited(tables, tops, cuts) && r in cuts.raceControl && HasMessage(r)
    requires Frames(Newest(Items(tops))) == Frames(Newest(Items(tables)))
    ensures Count(Items(tops), Since(r.frame)) >= FEED_LIMIT
  {
    var x := r.frame;
    SameFramesSameCount(Newest(Items(tops)), Newest(Items(tables)), x);
    NewestCount(Items(tops), x);
    NewestCount(Items(tables), x);
    LimitedItems(tables, tops, cuts, x);
    CountNone(cuts.raceControl, MessageSince(x));
    assert Count(cuts.raceControl, MessageSince(x)) > 0 by {
      var j :| 0 <= j < |cuts.raceControl| && cuts.raceControl[j] == r;
      assert MessageSince(x)(cuts.raceControl[j]);
    }
  }

  /** With no messageless row among the race-control rows read, the limits lose nothing. */
  lemma {:induction false} LimitsAgreeWithoutNulls(tables: Sources, tops: Sources, cuts: Cuts)
    requires AreLimited(tables, tops, cuts) && forall r :: r in tops.raceControl ==> HasMessage(r)
    ensures Frames(Newest(Items(tops))) == Frames(Newest(Items(tables)))
  {
    forall r | r in cuts.raceControl && HasMessage(r)
      ensures Count(Items(tops), Since(r.frame)) >= FEED_LIMIT
    {
      var j :| 0 <= j < |cuts.raceControl| && cuts.raceControl[j] == r;
      forall i | 0 <= i < |tops.raceControl|
        ensures MessageSince(r.frame)(tops.raceControl[i])
      {
        assert tops.raceControl[i] in tops.raceControl;
        assert RaceControlFrame(tops.raceControl[i]) >= RaceControlFrame(cuts.raceControl[j]);
      }
      CountAll(tops.raceControl, MessageSince(r.frame));
      ItemsCount(tops, r.frame);
    }
    LimitsAgreeExactly(tables, tops, cuts);
  }

  /** Thirty messageless safety-car rows hide an older message that the whole table would show. */
  lemma {:induction false} NullRowsHideMessages(quiet: RaceControlRow, start: RaceControlRow)
    requires quiet.code == "SCAR" && quiet.safetyCarType == Some("NONE")
    requires start.code == "SSTA" && start.frame <= quiet.frame
    ensures var top := seq(FEED_LIMIT, _ => quiet);
            && AreLimited(Sources(top + [start], [], [], []), Sources(top, [], [], []), Cuts([start], [], [], []))
            && Frames(Newest(Items(Sources(top, [], [], []))))
                 != Frames(Newest(Items(Sources(top + [start], [], [], []))))
  {
    var top := seq(FEED_LIMIT, _ => quiet);
    var tables, tops, cuts := Sources(top + [start], [], [], []), Sources(top, [], [], []), Cuts([start], [], [], []);
    assert !HasMessage(quiet) && HasMessage(start);
    ItemsCount(tops, start.frame);
    CountNone(top, MessageSince(start.frame));
    LimitsAgreeExactly(tables, tops, cuts);
  }
}
