/** Whole runs of the listener: the lap completions it announces, against the lap numbers it was shown. */
module ListenerLaps {
  import opened Options
  import opened Recency
  import opened FrameBufferModel
  import opened FrameTables
  import opened AnchorCache
  import opened CarFrames
  import opened Listener
  import opened ListenerRaces
  import LC = LapCompletions

  // ---------------------------------------------------------------------------------------------
  // The lap numbers a run checks
  // ---------------------------------------------------------------------------------------------

  /** The lap numbers of the mapped cars being driven. */
  ghost function Sightings(uid: SessionUid, users: UserMap, laps: CarPacket, cars: seq<Car>): seq<LC.Event>
    decreases cars
  {
    if cars == [] then []
    else if cars[0] !in users || laps.laps[cars[0]].driverStatus !in {1, 4} then Sightings(uid, users, laps, cars[1..])
    else [LC.Seen(LC.Driver(uid, users[cars[0]]), laps.laps[cars[0]].number)] + Sightings(uid, users, laps, cars[1..])
  }

  /** What a delivered frame shows: nothing unless it counts, holds lap data and its race is open. */
  ghost function SeenIn(p: Process, d: Delivery<CarPacket>): seq<LC.Event> {
    if Skipped(p, d) || LAP_DATA !in d.packets.vals then []
    else if !Lookup(FlagsAfter(p, d).raceStarted.vals, d.uid).GetOr(true) then []
    else Sightings(d.uid, p.userMaps.vals[d.uid], d.packets.vals[LAP_DATA], Cars())
  }

  ghost function SeenInAll(p: Process, ds: seq<Delivery<CarPacket>>): seq<LC.Event>
    decreases ds
  {
    if ds == [] then [] else SeenIn(p, ds[0]) + SeenInAll(FlagsAfter(p, ds[0]), ds[1..])
  }

  /** What an input means for the laps: a restart, a flashback let in, or the laps of the frames it flushes. */
  ghost function LapEvents(w: World, input: Input): seq<LC.Event> {
    if input.Restart? then [LC.Forget]
    else if input.packet.Flashback? && input.packet.uid !in w.process.excluded
         && input.packet.uid in w.process.caches.known
    then [LC.Rewind(input.packet.uid)]
    else SeenInAll(w.process, Flushed(w, input))
  }

  ghost function LapHistory(inputs: seq<Input>): seq<LC.Event> {
    if inputs == [] then []
    else LapHistory(inputs[..|inputs| - 1]) + LapEvents(Run(inputs[..|inputs| - 1]), inputs[|inputs| - 1])
  }

  // ---------------------------------------------------------------------------------------------
  // A flushed frame
  // ---------------------------------------------------------------------------------------------

  /** The cache and the announcements are those of the laps shown. */
  ghost predicate LapSound(w: World, hist: seq<LC.Event>) {
    w.process.laps == LC.Track(hist) && w.reports == LC.Reports(hist)
  }

  lemma {:induction false} OneSighting(hist: seq<LC.Event>, driver: LC.Driver, lap: nat)
    ensures LC.Track(hist + [LC.Seen(driver, lap)]) == LC.See(LC.Track(hist), driver, lap)
    ensures var done := LC.Completed(LC.Track(hist), driver, lap);
            LC.Reports(hist + [LC.Seen(driver, lap)])
              == LC.Reports(hist) + if done.Some? then [LC.Report(driver, done.value)] else []
  {
    assert (hist + [LC.Seen(driver, lap)])[..|hist|] == hist;
  }

  lemma {:induction false} CheckDriven(tracker: LC.Tracker, uid: SessionUid, users: UserMap, laps: CarPacket,
          cars: seq<Car>)
    requires cars != [] && cars[0] in users && laps.laps[cars[0]].driverStatus in {1, 4}
    ensures var driver, lap := LC.Driver(uid, users[cars[0]]), laps.laps[cars[0]].number;
            var done := LC.Completed(tracker, driver, lap);
            var o := CheckLaps(tracker, uid, users, laps, cars);
            var rest := CheckLaps(LC.See(tracker, driver, lap), uid, users, laps, cars[1..]);
            && o.tracker == rest.tracker
            && forall before :: before + o.reports
                == before + (if done.Some? then [LC.Report(driver, done.value)] else []) + rest.reports
  {
  }

  lemma {:induction false} CheckLapsSees(hist: seq<LC.Event>, uid: SessionUid, users: UserMap, laps: CarPacket,
          cars: seq<Car>)
    ensures var o := CheckLaps(LC.Track(hist), uid, users, laps, cars);
            var seen := hist + Sightings(uid, users, laps, cars);
            o.tracker == LC.Track(seen) && LC.Reports(hist) + o.reports == LC.Reports(seen)
    decreases cars
  {
    if cars == [] {
      assert hist + [] == hist;
    } else if cars[0] !in users || laps.laps[cars[0]].driverStatus !in {1, 4} {
      CheckLapsSees(hist, uid, users, laps, cars[1..]);
    } else {
      var driver, lap := LC.Driver(uid, users[cars[0]]), laps.laps[cars[0]].number;
      var hist' := hist + [LC.Seen(driver, lap)];
      OneSighting(hist, driver, lap);
      CheckLapsSees(hist', uid, users, laps, cars[1..]);
      CheckDriven(LC.Track(hist), uid, users, laps, cars);
      assert hist + Sightings(uid, users, laps, cars) == hist' + Sightings(uid, users, laps, cars[1..]);
    }
  }

  lemma {:induction false} SeeLapsSound(w: World, uid: SessionUid, users: UserMap, laps: CarPacket, hist: seq<LC.Event>)
    requires LapSound(w, hist)
    ensures LapSound(SeeLaps(w, uid, users, laps), hist + Sightings(uid, users, laps, Cars()))
  {
    CheckLapsSees(hist, uid, users, laps, Cars());
  }

  lemma {:induction false} DeliverLaps(w: World, d: Delivery<CarPacket>, now: Instant, hist: seq<LC.Event>)
    requires LapSound(w, hist)
    ensures LapSound(Deliver(w, d, now), hist + SeenIn(w.process, d))
  {
    if SeenIn(w.process, d) == [] {
      assert hist + [] == hist;
    }
    if !Skipped(w.process, d) {
      var t := TickOf(w.process, d, now);
      var p := FlagsAfter(w.process, d);
      var open := Lookup(p.raceStarted.vals, d.uid).GetOr(true);
      var written := if open && Combined(d.packets) then WriteTick(w.(process := p), t, d.packets)
          else w.(process := p);
      if open && LAP_DATA in d.packets.vals {
        SeeLapsSound(written, t.uid, t.users, d.packets.vals[LAP_DATA], hist);
      }
    }
  }

  lemma {:induction false} SameSeenInAll(p: Process, q: Process, ds: seq<Delivery<CarPacket>>)
    requires SameView(p, q)
    ensures SeenInAll(p, ds) == SeenInAll(q, ds) && SameView(FlagsAfterAll(p, ds), FlagsAfterAll(q, ds))
    decreases ds
  {
    if ds != [] {
      SameSeenInAll(FlagsAfter(p, ds[0]), FlagsAfter(q, ds[0]), ds[1..]);
    }
  }

  lemma {:induction false} DeliverAllLaps(w: World, ds: seq<Delivery<CarPacket>>, now: Instant, hist: seq<LC.Event>)
    requires LapSound(w, hist)
    ensures LapSound(DeliverAll(w, ds, now), hist + SeenInAll(w.process, ds))
    ensures SameView(DeliverAll(w, ds, now).process, FlagsAfterAll(w.process, ds))
    decreases ds
  {
    if ds == [] {
      assert hist + [] == hist;
    } else {
      var w1 := Deliver(w, ds[0], now);
      DeliverLaps(w, ds[0], now, hist);
      DeliverView(w, ds[0], now);
      SameSeenInAll(w1.process, FlagsAfter(w.process, ds[0]), ds[1..]);
      DeliverAllLaps(w1, ds[1..], now, hist + SeenIn(w.process, ds[0]));
      assert hist + SeenInAll(w.process, ds) == hist + SeenIn(w.process, ds[0]) + SeenInAll(w1.process, ds[1..]);
    }
  }

  lemma {:induction false} BufferedLaps(w: World, o: Outcome<CarPacket>, now: Instant, hist: seq<LC.Event>)
    requires LapSound(w, hist)
    ensures LapSound(Buffered(w, o, now), hist + SeenInAll(w.process, o.delivered))
    ensures SameView(Buffered(w, o, now).process, FlagsAfterAll(w.process, o.delivered))
  {
    var w0 := w.(process := w.process.(buffer := o.buffer));
    DeliverAllLaps(w0, o.delivered, now, hist);
    SameSeenInAll(w0.process, w.process, o.delivered);
  }

  lemma {:induction false} InThree(a: seq<LC.Event>, b: seq<LC.Event>, c: seq<LC.Event>)
    ensures a + (b + c) == (a + b) + c
  {
  }

  lemma {:induction false} SeenInBoth(p: Process, a: seq<Delivery<CarPacket>>, b: seq<Delivery<CarPacket>>)
    ensures SeenInAll(p, a + b) == SeenInAll(p, a) + SeenInAll(FlagsAfterAll(p, a), b)
    decreases a
  {
    if a == [] {
      assert a + b == b;
    } else {
      var p1 := FlagsAfter(p, a[0]);
      assert (a + b)[0] == a[0] && (a + b)[1..] == a[1..] + b;
      SeenInBoth(p1, a[1..], b);
      InThree(SeenIn(p, a[0]), SeenInAll(p1, a[1..]), SeenInAll(FlagsAfterAll(p1, a[1..]), b));
    }
  }

  // ---------------------------------------------------------------------------------------------
  // A packet
  // ---------------------------------------------------------------------------------------------

  lemma {:induction false} SweepLaps(w: World, now: Instant, clock: real, hist: seq<LC.Event>)
    requires LapSound(w, hist) && !((clock - w.process.lastFlush) * 1000.0 < FLUSH_INTERVAL_MS)
    ensures LapSound(PeriodicSweep(w, now, clock), hist + SeenInAll(w.process, SweepStale(w.process.buffer).delivered))
  {
    var w0 := w.(process := w.process.(lastFlush := clock));
    BufferedLaps(w0, SweepStale(w.process.buffer), now, hist);
    SameSeenInAll(w0.process, w.process, SweepStale(w.process.buffer).delivered);
  }

  lemma {:induction false} CarDataLaps(w: World, slot: Slot, data: CarPacket, now: Instant, clock: real,
          hist: seq<LC.Event>)
    requires LapSound(w, hist) && Lookup(w.process.userMaps.vals, slot.uid).GetOr(map[]) != map[]
    ensures var o := AddPacket(w.process.buffer, slot, data);
            var swept := if (clock - w.process.lastFlush) * 1000.0 < FLUSH_INTERVAL_MS then []
                else SweepStale(o.buffer).delivered;
            LapSound(HandleCarData(w, slot, data, now, clock), hist + SeenInAll(w.process, o.delivered + swept))
  {
    var o := AddPacket(w.process.buffer, slot, data);
    var w1 := AddLaps(w, slot, data, now, hist);
    if (clock - w.process.lastFlush) * 1000.0 < FLUSH_INTERVAL_MS {
      assert o.delivered + [] == o.delivered;
    } else {
      SweepLaps(w1, now, clock, hist + SeenInAll(w.process, o.delivered));
      SeenInTwo(w.process, w1.process, o.delivered, SweepStale(o.buffer).delivered, hist);
    }
  }

  lemma {:induction false} AddLaps(w: World, slot: Slot, data: CarPacket, now: Instant, hist: seq<LC.Event>)
      returns (w1: World)
    requires LapSound(w, hist)
    ensures var o := AddPacket(w.process.buffer, slot, data);
            && w1 == Buffered(w, o, now) && LapSound(w1, hist + SeenInAll(w.process, o.delivered))
            && w1.process.buffer == o.buffer && w1.process.lastFlush == w.process.lastFlush
            && SameView(w1.process, FlagsAfterAll(w.process, o.delivered))
  {
    var o := AddPacket(w.process.buffer, slot, data);
    w1 := Buffered(w, o, now);
    BufferedLaps(w, o, now, hist);
    DeliverAllKeeps(w.(process := w.process.(buffer := o.buffer)), o.delivered, now);
  }

  lemma {:induction false} SeenInTwo(p: Process, q: Process, a: seq<Delivery<CarPacket>>, b: seq<Delivery<CarPacket>>,
          hist: seq<LC.Event>)
    requires SameView(q, FlagsAfterAll(p, a))
    ensures hist + SeenInAll(p, a) + SeenInAll(q, b) == hist + SeenInAll(p, a + b)
  {
    SameSeenInAll(q, FlagsAfterAll(p, a), b);
    SeenInBoth(p, a, b);
  }

  lemma {:induction false} RewindLaps(w: World, uid: SessionUid, rewindTo: real, hist: seq<LC.Event>)
    requires LapSound(w, hist)
    ensures LapSound(HandleFlashback(w, uid, rewindTo), hist + [LC.Rewind(uid)])
  {
    assert (hist + [LC.Rewind(uid)])[..|hist|] == hist;
  }

  lemma {:induction false} RestartLaps(w: World, clock: real, hist: seq<LC.Event>)
    requires LapSound(w, hist)
    ensures LapSound(Listen(w, Restart(clock)), hist + [LC.Forget])
  {
    assert (hist + [LC.Forget])[..|hist|] == hist;
  }

  lemma {:induction false} QuietLaps(w: World, input: Input)
    requires input.Receive? && !input.packet.SessionEnd? && !input.packet.Flashback? && !input.packet.CarData?
    ensures Listen(w, input).process.laps == w.process.laps && Listen(w, input).reports == w.reports
    ensures LapEvents(w, input) == []
  {
  }

  lemma {:induction false} KnownLaps(w: World, input: Input, hist: seq<LC.Event>)
    requires LapSound(w, hist) && input.Receive?
    requires input.packet.Uid() !in w.process.excluded && input.packet.Uid() in w.process.caches.known
    requires input.packet.SessionEnd? || input.packet.Flashback? || input.packet.CarData?
    ensures LapSound(Listen(w, input), hist + LapEvents(w, input))
  {
    if input.packet.SessionEnd? {
      ListenEnd(w, input);
      BufferedLaps(w, FlushSession(w.process.buffer, input.packet.uid), input.now, hist);
    } else if input.packet.Flashback? {
      RewindLaps(w, input.packet.uid, input.packet.rewindTo, hist);
    } else if Lookup(w.process.userMaps.vals, input.packet.slot.uid).GetOr(map[]) == map[] {
      ListenUnmapped(w, input);
      assert hist + [] == hist;
    } else {
      ListenCarData(w, input);
      CarDataLaps(w, input.packet.slot, input.packet.packet, input.now, input.clock, hist);
    }
  }

  lemma {:induction false} ListenLaps(w: World, input: Input, hist: seq<LC.Event>)
    requires LapSound(w, hist)
    ensures LapSound(Listen(w, input), hist + LapEvents(w, input))
  {
    assert hist + [] == hist;
    if input.Restart? {
      RestartLaps(w, input.clock, hist);
    } else if !input.packet.SessionEnd? && !input.packet.Flashback? && !input.packet.CarData? {
      QuietLaps(w, input);
    } else if input.packet.Uid() in w.process.excluded || input.packet.Uid() !in w.process.caches.known {
      ListenIgnored(w, input);
    } else {
      KnownLaps(w, input, hist);
    }
  }

  // ---------------------------------------------------------------------------------------------
  // Whole runs
  // ---------------------------------------------------------------------------------------------

  /** Over any run, the laps remembered and announced are those of the lap numbers it was shown. */
  lemma {:induction false} RunTracksLaps(inputs: seq<Input>)
    ensures Run(inputs).process.laps == LC.Track(LapHistory(inputs))
    ensures Run(inputs).reports == LC.Reports(LapHistory(inputs))
  {
    if inputs != [] {
      var earlier, last := inputs[..|inputs| - 1], inputs[|inputs| - 1];
      RunTracksLaps(earlier);
      ListenLaps(Run(earlier), last, LapHistory(earlier));
    }
  }

  /**
   Over any run, each lap announced is positive, below the lap the driver was then seen on, and the very lap of
   the driver's previous sighting, with neither a flashback of the session nor a restart in between.
   */
  lemma {:induction false} AnnouncedLapWasLastSeen(inputs: seq<Input>, k: nat) returns (i: nat, j: nat)
    requires k < |Run(inputs).reports|
    ensures var hist, r := LapHistory(inputs), Run(inputs).reports[k];
            && i < j < |hist| && hist[j].Seen? && hist[j].driver == r.driver && 0 < r.lap < hist[j].lap
            && LC.LastSighting(hist[..j], r.driver, i) && hist[i].lap == r.lap
  {
    var hist := LapHistory(inputs);
    RunTracksLaps(inputs);
    LC.ReportIsOfItsSighting(hist, k);
    j := LC.SightingOf(hist, k);
    i := LC.ReportIsPreviousSighting(hist, j);
  }

  /**
   Over any run that shows no process more than 500 drivers: a lap is announced exactly when a driver is seen on a
   later lap than at the sighting before, with neither a flashback of the session nor a restart in between.
   */
  lemma {:induction false} AnnouncedExactlyWhen(inputs: seq<Input>, r: LC.Report)
    requires LC.FewDrivers(LapHistory(inputs))
    ensures r in Run(inputs).reports <==> exists i: nat, j: nat :: LC.LapCompleted(LapHistory(inputs), r, i, j)
  {
    RunTracksLaps(inputs);
    LC.ReportsAreTheLapsCompleted(LapHistory(inputs), r);
  }

  /**
   Over any run in which lap numbers fall only through flashbacks, the laps announced for a driver strictly
   increase from one announcement to any later one, unless a flashback of the session came in between.
   */
  lemma {:induction false} AnnouncedLapsIncrease(inputs: seq<Input>, k: nat, l: nat) returns (i: nat, j: nat)
    requires k < l < |Run(inputs).reports| && LC.LapsNeverFall(LapHistory(inputs))
    requires Run(inputs).reports[k].driver == Run(inputs).reports[l].driver
    ensures var hist := LapHistory(inputs); var driver := Run(inputs).reports[k].driver;
            && i < j < |hist| && hist[i].Seen? && hist[j].Seen? && hist[i].driver == hist[j].driver == driver
            && LC.ReportedBy(hist, i) == Some(Run(inputs).reports[k].lap)
            && LC.ReportedBy(hist, j) == Some(Run(inputs).reports[l].lap)
            && (Run(inputs).reports[k].lap < Run(inputs).reports[l].lap
                || exists m :: i < m < j && hist[m] == LC.Rewind(driver.uid))
  {
    var hist := LapHistory(inputs);
    RunTracksLaps(inputs);
    LC.ReportIsOfItsSighting(hist, k);
    LC.ReportIsOfItsSighting(hist, l);
    LC.SightingsInOrder(hist, k, l);
    i, j := LC.SightingOf(hist, k), LC.SightingOf(hist, l);
    if forall m :: i < m < j ==> hist[m] != LC.Rewind(hist[i].driver.uid) {
      LC.ReportsIncrease(hist, i, j);
    }
  }
}
