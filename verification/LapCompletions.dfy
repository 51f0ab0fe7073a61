/** Lap-completion detection: the last lap number seen for each driver, in a bounded cache. */
module LapCompletions {
  import opened Options
  import opened Recency
  import opened FrameBufferModel
  import opened FrameTables

  const TRACKED_DRIVERS: nat := 500

  datatype Driver = Driver(uid: SessionUid, user: UserId)

  type Tracker = Dict<Driver, nat>

  datatype Report = Report(driver: Driver, lap: nat)

  /** The completed lap that seeing `lap` announces, if any. */
  function Completed(t: Tracker, driver: Driver, lap: nat): Option<nat> {
    var last := Lookup(t.vals, driver).GetOr(0);
    if lap > last && last > 0 then Some(last) else None
  }

  function See(t: Tracker, driver: Driver, lap: nat): Tracker {
    SetItem(t, TRACKED_DRIVERS, driver, lap)
  }

  /** The flashback loop: each listed key of the session is written back to zero. */
  function ResetKeys(t: Tracker, keys: seq<Driver>, uid: SessionUid): Tracker
    decreases keys
  {
    if keys == [] then t
    else ResetKeys(if keys[0].uid == uid then SetItem(t, TRACKED_DRIVERS, keys[0], 0) else t, keys[1..], uid)
  }

  function ResetSession(t: Tracker, uid: SessionUid): Tracker {
    ResetKeys(t, t.order, uid)
  }

  ghost predicate Inv(t: Tracker) {
    WellFormed(t) && |t.order| <= TRACKED_DRIVERS
  }

  lemma {:induction false} ResetKeysFacts(t: Tracker, keys: seq<Driver>, uid: SessionUid)
    requires Inv(t) && Members(keys) <= t.vals.Keys
    ensures Inv(ResetKeys(t, keys, uid))
    ensures ResetKeys(t, keys, uid).vals == map d | d in t.vals :: if d in keys && d.uid == uid then 0 else t.vals[d]
    decreases keys
  {
    if keys != [] {
      assert keys == [keys[0]] + keys[1..];
      assert keys[0] in Members(keys);
      var t1 := if keys[0].uid == uid then SetItem(t, TRACKED_DRIVERS, keys[0], 0) else t;
      SetItemValid(t, TRACKED_DRIVERS, keys[0], 0);
      assert t1.vals.Keys == t.vals.Keys;
      assert Members(keys[1..]) <= Members(keys);
      ResetKeysFacts(t1, keys[1..], uid);
    }
  }

  /** A flashback zeroes exactly the tracked drivers of its own session, and evicts nobody. */
  lemma {:induction false} ResetOnlyThatSession(t: Tracker, uid: SessionUid)
    requires Inv(t)
    ensures Inv(ResetSession(t, uid))
    ensures ResetSession(t, uid).vals == map d | d in t.vals :: if d.uid == uid then 0 else t.vals[d]
  {
    ResetKeysFacts(t, t.order, uid);
    assert forall d :: d in t.vals ==> d in Members(t.order);
  }

  // ---------------------------------------------------------------------------------------------
  // Whole runs
  // ---------------------------------------------------------------------------------------------

  /** A lap number checked, a session's flashback, or a restart, which loses the cache. */
  datatype Event = Seen(driver: Driver, lap: nat) | Rewind(uid: SessionUid) | Forget

  ghost function Track(hist: seq<Event>): Tracker {
    if hist == [] then Empty()
    else
      var t := Track(hist[..|hist| - 1]);
      match hist[|hist| - 1]
      case Seen(d, lap) => See(t, d, lap)
      case Rewind(uid) => ResetSession(t, uid)
      case Forget => Empty()
  }

  ghost function ReportedBy(hist: seq<Event>, i: nat): Option<nat>
    requires i < |hist|
  {
    if hist[i].Seen? then Completed(Track(hist[..i]), hist[i].driver, hist[i].lap) else None
  }

  ghost predicate Concerns(e: Event, d: Driver) {
    match e
    case Seen(driver, _) => driver == d
    case Rewind(uid) => uid == d.uid
    case Forget => true
  }

  /** `i` is the driver's last sighting, and neither a flashback of the session nor a restart came after it. */
  ghost predicate LastSighting(hist: seq<Event>, d: Driver, i: nat) {
    && i < |hist| && hist[i].Seen? && hist[i].driver == d
    && forall j :: i < j < |hist| ==> !Concerns(hist[j], d)
  }

  ghost predicate Remembers(hist: seq<Event>, d: Driver) {
    d in Track(hist).vals && Track(hist).vals[d] > 0 ==>
      exists i: nat :: LastSighting(hist, d, i) && hist[i].lap == Track(hist).vals[d]
  }

  lemma {:induction false} TrackInv(hist: seq<Event>)
    ensures Inv(Track(hist))
  {
    if hist != [] {
      var n := |hist| - 1;
      TrackInv(hist[..n]);
      if hist[n].Seen? {
        SetItemValid(Track(hist[..n]), TRACKED_DRIVERS, hist[n].driver, hist[n].lap);
      } else if hist[n].Rewind? {
        ResetOnlyThatSession(Track(hist[..n]), hist[n].uid);
      }
    }
  }

  /** An event about other drivers leaves a driver's lap alone, or evicts it. */
  lemma {:induction false} Untouched(hist: seq<Event>, d: Driver)
    requires hist != [] && !Concerns(hist[|hist| - 1], d) && d in Track(hist).vals
    ensures var t := Track(hist[..|hist| - 1]); d in t.vals && t.vals[d] == Track(hist).vals[d]
  {
    TrackInv(hist[..|hist| - 1]);
    if hist[|hist| - 1].Rewind? {
      ResetOnlyThatSession(Track(hist[..|hist| - 1]), hist[|hist| - 1].uid);
    }
  }

  lemma {:induction false} TrackRemembers(hist: seq<Event>, d: Driver)
    ensures Remembers(hist, d)
  {
    if hist != [] && d in Track(hist).vals && Track(hist).vals[d] > 0 {
      var n := |hist| - 1;
      if !Concerns(hist[n], d) {
        Untouched(hist, d);
        TrackRemembers(hist[..n], d);
        var i: nat :| LastSighting(hist[..n], d, i) && hist[..n][i].lap == Track(hist).vals[d];
        assert LastSighting(hist, d, i);
      } else if hist[n].Seen? {
        assert LastSighting(hist, d, n);
      } else {
        TrackInv(hist[..n]);
        ResetOnlyThatSession(Track(hist[..n]), hist[n].uid);
      }
    }
  }

  /**
   A reported lap is positive, below the lap just seen, and the very lap of the driver's previous
   sighting, with neither a flashback of the session nor a restart in between: after either nothing is
   reported until the driver has been seen once more.
   */
  lemma {:induction false} ReportIsPreviousSighting(hist: seq<Event>, j: nat) returns (i: nat)
    requires j < |hist| && ReportedBy(hist, j).Some?
    ensures 0 < ReportedBy(hist, j).value < hist[j].lap
    ensures i < j && LastSighting(hist[..j], hist[j].driver, i) && hist[i].lap == ReportedBy(hist, j).value
  {
    TrackRemembers(hist[..j], hist[j].driver);
    i :| LastSighting(hist[..j], hist[j].driver, i) && hist[..j][i].lap == Track(hist[..j]).vals[hist[j].driver];
  }

  // ---------------------------------------------------------------------------------------------
  // When a lap is reported
  // ---------------------------------------------------------------------------------------------

  /** The drivers seen since the last restart. */
  ghost function DriversSeen(hist: seq<Event>): set<Driver> {
    if hist == [] then {}
    else
      var before := DriversSeen(hist[..|hist| - 1]);
      match hist[|hist| - 1]
      case Seen(d, _) => before + {d}
      case Rewind(_) => before
      case Forget => {}
  }

  /** At no time more drivers than the cache holds. */
  ghost predicate FewDrivers(hist: seq<Event>) {
    |DriversSeen(hist)| <= 500 && (hist != [] ==> FewDrivers(hist[..|hist| - 1]))
  }

  /** With room for all, a sighting only ever adds to the cache. */
  lemma {:induction false} SeeKeepsAll(t: Tracker, d: Driver, lap: nat)
    requires Inv(t) && |t.vals.Keys + {d}| <= TRACKED_DRIVERS
    ensures See(t, d, lap).vals == t.vals[d := lap]
  {
    MembersCount(t.order);
    assert d !in t.vals ==> |t.vals.Keys + {d}| == |t.vals.Keys| + 1;
  }

  lemma {:induction false} AllAreTracked(hist: seq<Event>)
    requires FewDrivers(hist)
    ensures Track(hist).vals.Keys == DriversSeen(hist)
  {
    if hist != [] {
      var n := |hist| - 1;
      AllAreTracked(hist[..n]);
      TrackInv(hist[..n]);
      if hist[n].Seen? {
        SeeKeepsAll(Track(hist[..n]), hist[n].driver, hist[n].lap);
      } else if hist[n].Rewind? {
        ResetOnlyThatSession(Track(hist[..n]), hist[n].uid);
      }
    }
  }

  /** While the cache has room, a driver's entry is the lap of the last sighting. */
  lemma {:induction false} LastSightingIsTracked(hist: seq<Event>, d: Driver, i: nat)
    requires FewDrivers(hist) && LastSighting(hist, d, i)
    ensures Lookup(Track(hist).vals, d) == Some(hist[i].lap)
  {
    var n := |hist| - 1;
    if i < n {
      LastSightingIsTracked(hist[..n], d, i);
      TrackInv(hist[..n]);
      if hist[n].Seen? {
        AllAreTracked(hist[..n]);
        SeeKeepsAll(Track(hist[..n]), hist[n].driver, hist[n].lap);
      } else if hist[n].Rewind? {
        ResetOnlyThatSession(Track(hist[..n]), hist[n].uid);
      }
    }
  }

  /** The sighting of number `j` is on a later lap than that of number `i`, the driver's last one before it. */
  ghost predicate CompletesLap(hist: seq<Event>, i: nat, j: nat) {
    && i < j < |hist| && hist[j].Seen? && LastSighting(hist[..j], hist[j].driver, i)
    && 0 < hist[i].lap < hist[j].lap
  }

  /**
   While the cache has room for all drivers: a sighting reports a lap exactly when the driver's last one was on that
   lap, a positive one below its own, with neither a flashback of the session nor a restart in between.
   */
  lemma {:induction false} ReportedExactlyWhen(hist: seq<Event>, j: nat, lap: nat)
    requires j < |hist| && FewDrivers(hist[..j])
    ensures ReportedBy(hist, j) == Some(lap) <==> exists i: nat :: CompletesLap(hist, i, j) && hist[i].lap == lap
  {
    if ReportedBy(hist, j) == Some(lap) {
      var i := ReportIsPreviousSighting(hist, j);
      assert CompletesLap(hist, i, j);
    }
    forall i: nat | CompletesLap(hist, i, j)
      ensures ReportedBy(hist, j) == Some(hist[i].lap)
    {
      LastSightingIsTracked(hist[..j], hist[j].driver, i);
    }
  }

  /** Between flashbacks of its session a driver's lap numbers never fall. */
  ghost predicate LapsNeverFall(hist: seq<Event>) {
    forall i, j :: 0 <= i < j < |hist| && hist[i].Seen? && hist[j].Seen? && hist[i].driver == hist[j].driver
                   && (forall k :: i < k < j ==> hist[k] != Rewind(hist[i].driver.uid))
      ==> hist[i].lap <= hist[j].lap
  }

  /** Between flashbacks the laps reported for a driver are strictly increasing, evictions or not. */
  lemma {:induction false} ReportsIncrease(hist: seq<Event>, i: nat, j: nat)
    requires LapsNeverFall(hist) && i < j < |hist|
    requires ReportedBy(hist, i).Some? && ReportedBy(hist, j).Some? && hist[i].driver == hist[j].driver
    requires forall k :: i < k < j ==> hist[k] != Rewind(hist[i].driver.uid)
    ensures ReportedBy(hist, i).value < ReportedBy(hist, j).value
  {
    var _ := ReportIsPreviousSighting(hist, i);
    var p := ReportIsPreviousSighting(hist, j);
    assert hist[..j][i] == hist[i] && Concerns(hist[i], hist[j].driver);
    assert hist[p] == hist[..j][p];
    assert p > i ==> hist[i].lap <= hist[p].lap;
  }

  /** Everything reported, in order. */
  ghost function Reports(hist: seq<Event>): seq<Report> {
    if hist == [] then []
    else
      var n := |hist| - 1;
      Reports(hist[..n]) + if ReportedBy(hist, n).Some? then [Report(hist[n].driver, ReportedBy(hist, n).value)] else []
  }

  lemma {:induction false} FewDriversBefore(hist: seq<Event>, j: nat)
    requires j <= |hist| && FewDrivers(hist)
    ensures FewDrivers(hist[..j])
  {
    if j == |hist| {
      assert hist[..j] == hist;
    } else {
      FewDriversBefore(hist[..|hist| - 1], j);
      assert hist[..|hist| - 1][..j] == hist[..j];
    }
  }

  /** The sighting of number `j` makes the report. */
  ghost predicate MakesReport(hist: seq<Event>, r: Report, j: nat) {
    j < |hist| && hist[j].Seen? && hist[j].driver == r.driver && ReportedBy(hist, j) == Some(r.lap)
  }

  lemma {:induction false} MakesReportBefore(hist: seq<Event>, r: Report, n: nat, j: nat)
    requires j < n <= |hist|
    ensures MakesReport(hist[..n], r, j) <==> MakesReport(hist, r, j)
  {
    assert hist[..n][..j] == hist[..j];
  }

  lemma {:induction false} ReportsAreOfSightings(hist: seq<Event>, r: Report)
    ensures r in Reports(hist) <==> exists j: nat :: MakesReport(hist, r, j)
  {
    if hist != [] {
      var n := |hist| - 1;
      ReportsAreOfSightings(hist[..n], r);
      forall j: nat | j < n
        ensures MakesReport(hist[..n], r, j) <==> MakesReport(hist, r, j)
      {
        MakesReportBefore(hist, r, n, j);
      }
      assert r in Reports(hist) <==> r in Reports(hist[..n]) || MakesReport(hist, r, n);
    }
  }

  ghost predicate LapCompleted(hist: seq<Event>, r: Report, i: nat, j: nat) {
    CompletesLap(hist, i, j) && hist[j].driver == r.driver && hist[i].lap == r.lap
  }

  /** The reports are those of the laps completed, none missing. */
  lemma {:induction false} ReportsAreTheLapsCompleted(hist: seq<Event>, r: Report)
    requires FewDrivers(hist)
    ensures r in Reports(hist) <==> exists i: nat, j: nat :: LapCompleted(hist, r, i, j)
  {
    ReportsAreOfSightings(hist, r);
    forall j: nat | j < |hist|
      ensures ReportedBy(hist, j) == Some(r.lap)
         <==> exists i: nat :: CompletesLap(hist, i, j) && hist[i].lap == r.lap
    {
      FewDriversBefore(hist, j);
      ReportedExactlyWhen(hist, j, r.lap);
    }
    if j: nat :| MakesReport(hist, r, j) {
      var i: nat :| CompletesLap(hist, i, j) && hist[i].lap == r.lap;
      assert LapCompleted(hist, r, i, j);
    }
    if i: nat, j: nat :| LapCompleted(hist, r, i, j) {
      assert CompletesLap(hist, i, j);
      assert MakesReport(hist, r, j);
    }
  }

  /** The sighting that made report number `k`. */
  ghost function SightingOf(hist: seq<Event>, k: nat): nat
    requires k < |Reports(hist)|
  {
    var n := |hist| - 1;
    if k < |Reports(hist[..n])| then SightingOf(hist[..n], k) else n
  }

  lemma {:induction false} ReportIsOfItsSighting(hist: seq<Event>, k: nat)
    requires k < |Reports(hist)|
    ensures var j := SightingOf(hist, k);
            && j < |hist| && ReportedBy(hist, j) == Some(Reports(hist)[k].lap)
            && hist[j].driver == Reports(hist)[k].driver
  {
    var n := |hist| - 1;
    if k < |Reports(hist[..n])| {
      var j := SightingOf(hist[..n], k);
      ReportIsOfItsSighting(hist[..n], k);
      assert hist[..n][..j] == hist[..j];
    }
  }

  lemma {:induction false} SightingsInOrder(hist: seq<Event>, k: nat, l: nat)
    requires k < l < |Reports(hist)|
    ensures SightingOf(hist, k) < SightingOf(hist, l)
  {
    var n := |hist| - 1;
    if l < |Reports(hist[..n])| {
      SightingsInOrder(hist[..n], k, l);
    } else {
      ReportIsOfItsSighting(hist[..n], k);
    }
  }
}
