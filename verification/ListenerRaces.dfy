/** Whole runs of the listener: a race stores nothing before it has started, and stays started. */
module ListenerRaces {
  import opened Options
  import opened Recency
  import opened FrameBufferModel
  import FrameBufferRuns
  import opened FrameTables
  import opened AnchorCache
  import opened CarFrames
  import opened Listener
  import opened ListenerTables
  import LC = LapCompletions

  // ---------------------------------------------------------------------------------------------
  // Evidence of a start, read off the inputs and the frames they flush
  // ---------------------------------------------------------------------------------------------

  /** The frames an input hands to the flush callback. */
  ghost function Flushed(w: World, input: Input): seq<Delivery<CarPacket>> {
    if input.Restart? then []
    else if input.packet.Uid() in w.process.excluded || input.packet.Uid() !in w.process.caches.known then []
    else
      match input.packet
      case SessionEnd(uid) => FlushSession(w.process.buffer, uid).delivered
      case CarData(slot, data) =>
        if Lookup(w.process.userMaps.vals, slot.uid).GetOr(map[]) == map[] then []
        else
          var o := AddPacket(w.process.buffer, slot, data);
          var due := !((input.clock - w.process.lastFlush) * 1000.0 < FLUSH_INTERVAL_MS);
          o.delivered + if due then SweepStale(o.buffer).delivered else []
      case _ => []
  }

  /** The sessions with a mapped car on a racing lap in one of the frames. */
  ghost function Racing(p: Process, ds: seq<Delivery<CarPacket>>): set<SessionUid> {
    set i | 0 <= i < |ds| && !Skipped(p, ds[i]) && OnRacingLap(p.userMaps.vals[ds[i].uid], ds[i].packets) :: ds[i].uid
  }

  /**
   The sessions an input shows to be under way: a session first announced as something other than a
   race, lights out, the end of the formation lap, or a flushed frame with a mapped car on lap two.
   */
  ghost function Signals(w: World, input: Input): set<SessionUid> {
    if input.Restart? || input.packet.Uid() in w.process.excluded then {}
    else
      match input.packet
      case SessionInfo(uid, sessionType, _) =>
        if sessionType in EXCLUDED_SESSION_TYPES || sessionType in RACE_SESSION_TYPES then {}
        else if uid in w.process.raceStarted.vals then {} else {uid}
      case LightsOut(uid) => if uid in w.process.caches.known then {uid} else {}
      case FormationLapOver(uid) => if uid in w.process.caches.known then {uid} else {}
      case _ => Racing(w.process, Flushed(w, input))
  }

  /** The sessions shown to be under way since the process last started. */
  ghost function UnderWay(inputs: seq<Input>): set<SessionUid> {
    if inputs == [] then {}
    else if inputs[|inputs| - 1].Restart? then {}
    else UnderWay(inputs[..|inputs| - 1]) + Signals(Run(inputs[..|inputs| - 1]), inputs[|inputs| - 1])
  }

  /** The sessions ever shown to be under way. */
  ghost function EverUnderWay(inputs: seq<Input>): set<SessionUid> {
    if inputs == [] then {}
    else EverUnderWay(inputs[..|inputs| - 1]) + Signals(Run(inputs[..|inputs| - 1]), inputs[|inputs| - 1])
  }

  // ---------------------------------------------------------------------------------------------
  // What every step keeps
  // ---------------------------------------------------------------------------------------------

  /** Session times play no part here. */
  ghost function AllTimes(): iset<real> {
    iset t: real | Micros(t) == Micros(t)
  }

  ghost function AnyTime(sessions: set<SessionUid>): Origin {
    Origin(sessions, Law(AllTimes(), (_, _, _) => true, None))
  }

  ghost predicate FlagsSound(p: Process, started: set<SessionUid>) {
    && WellFormed(p.raceStarted)
    && Members(p.caches.known) <= p.raceStarted.vals.Keys
    && started <= p.raceStarted.vals.Keys
    && (forall u :: u in p.raceStarted.vals ==> (p.raceStarted.vals[u] <==> u in started))
    && BufferSound(p.buffer, AnyTime(p.raceStarted.vals.Keys))
  }

  ghost predicate RowsWithin(db: Database, sessions: set<SessionUid>) {
    && (forall k :: k in db.frames ==> k.uid in sessions)
    && (forall k :: k in db.damage ==> k.uid in sessions)
  }

  lemma {:induction false} MarkStartedFlags(p: Process, uid: SessionUid, started: set<SessionUid>)
    requires FlagsSound(p, started) && uid in p.raceStarted.vals
    ensures FlagsSound(MarkStarted(p, uid), started + {uid})
    ensures MarkStarted(p, uid).raceStarted.vals == p.raceStarted.vals[uid := true]
  {
    var p' := MarkStarted(p, uid);
    if Lookup(p.raceStarted.vals, uid) == Some(true) {
      assert p.raceStarted.vals[uid := true] == p.raceStarted.vals;
      assert started + {uid} == started;
    } else {
      FlagSetWellFormed(p.raceStarted, uid, true);
      assert p'.raceStarted.vals.Keys == p.raceStarted.vals.Keys;
    }
  }

  lemma {:induction false} FlagSetWellFormed(flags: Dict<SessionUid, bool>, uid: SessionUid, value: bool)
    requires WellFormed(flags) && (uid in flags.vals || |flags.vals.Keys| < RACE_FLAGS)
    ensures WellFormed(SetItem(flags, RACE_FLAGS, uid, value))
    ensures SetItem(flags, RACE_FLAGS, uid, value).vals == flags.vals[uid := value]
  {
    MembersCount(flags.order);
    if uid in flags.vals {
      assert uid in Members(flags.order);
      WithoutMembers(flags.order, uid);
      WithoutNoDup(flags.order, uid);
      assert Members(Without(flags.order, uid) + [uid]) == Members(Without(flags.order, uid)) + {uid};
      assert uid !in Members(Without(flags.order, uid));
    } else {
      SetItemValid(flags, RACE_FLAGS, uid, value);
    }
  }

  lemma {:induction false} WriteTickRows(w: World, t: Tick, packets: Packets<CarPacket>, sessions: set<SessionUid>)
    requires RowsWithin(w.db, sessions) && t.uid in sessions
    ensures RowsWithin(WriteTick(w, t, packets).db, sessions)
  {
    var raw, damage := RowsFor(t, packets, Cars()), DamageFor(t, packets, Cars());
    RowsOfTick(t, packets, Cars());
    forall k | k in InsertBatch(w.db.frames, WithGaps(raw))
      ensures k.uid in sessions
    {
      InsertBatchKeys(w.db.frames, WithGaps(raw), k);
      GapsKeepKeys(raw, k);
    }
    forall k | k in InsertBatch(w.db.damage, damage)
      ensures k.uid in sessions
    {
      InsertBatchKeys(w.db.damage, damage, k);
    }
  }

  /** The process once a frame has been delivered, but for the laps seen. */
  ghost function FlagsAfter(p: Process, d: Delivery<CarPacket>): Process {
    if !Skipped(p, d) && OnRacingLap(p.userMaps.vals[d.uid], d.packets) then MarkStarted(p, d.uid) else p
  }

  ghost function FlagsAfterAll(p: Process, ds: seq<Delivery<CarPacket>>): Process
    decreases ds
  {
    if ds == [] then p else FlagsAfterAll(FlagsAfter(p, ds[0]), ds[1..])
  }

  lemma {:induction false} DeliverProcess(w: World, d: Delivery<CarPacket>, now: Instant)
    ensures Deliver(w, d, now).process == FlagsAfter(w.process, d).(laps := Deliver(w, d, now).process.laps)
  {
  }

  /** The same flags and rosters. */
  ghost predicate SameView(p: Process, q: Process) {
    p.raceStarted == q.raceStarted && p.userMaps == q.userMaps
  }

  lemma {:induction false} DeliverView(w: World, d: Delivery<CarPacket>, now: Instant)
    ensures SameView(Deliver(w, d, now).process, FlagsAfter(w.process, d))
  {
    DeliverProcess(w, d, now);
  }

  lemma {:induction false} RacingOne(p: Process, d: Delivery<CarPacket>)
    ensures Racing(p, [d]) == if !Skipped(p, d) && OnRacingLap(p.userMaps.vals[d.uid], d.packets) then {d.uid} else {}
  {
    assert [d][0] == d;
  }

  lemma {:induction false} DeliveredIsFlagged(p: Process, d: Delivery<CarPacket>)
    requires !Skipped(p, d) && GoodDeliveries([d], AnyTime(p.raceStarted.vals.Keys))
    ensures d.uid in p.raceStarted.vals
  {
    assert [d][0] == d;
    assert GoodPacket(d.uid, d.frame, d.packets.vals[d.packets.order[0]], AnyTime(p.raceStarted.vals.Keys));
  }

  lemma {:induction false} FlagsAfterSound(p: Process, d: Delivery<CarPacket>, started: set<SessionUid>)
    requires FlagsSound(p, started) && GoodDeliveries([d], AnyTime(p.raceStarted.vals.Keys))
    ensures FlagsSound(FlagsAfter(p, d), started + Racing(p, [d]))
    ensures FlagsAfter(p, d).raceStarted.vals.Keys == p.raceStarted.vals.Keys
  {
    RacingOne(p, d);
    if Racing(p, [d]) == {} {
      assert started + {} == started;
    } else {
      DeliveredIsFlagged(p, d);
      MarkStartedFlags(p, d.uid, started);
    }
  }

  lemma {:induction false} StoresOnlyUnderWay(p: Process, d: Delivery<CarPacket>, started: set<SessionUid>)
    requires FlagsSound(p, started) && GoodDeliveries([d], AnyTime(p.raceStarted.vals.Keys)) && Stores(p, d)
    ensures d.uid in started + Racing(p, [d])
  {
    RacingOne(p, d);
    DeliveredIsFlagged(p, d);
  }

  lemma {:induction false} DeliverRows(w: World, d: Delivery<CarPacket>, now: Instant, sessions: set<SessionUid>)
    requires RowsWithin(w.db, sessions) && (Stores(w.process, d) ==> d.uid in sessions)
    ensures RowsWithin(Deliver(w, d, now).db, sessions)
  {
    if Stores(w.process, d) {
      StoredDelivery(w, d, now);
      WriteTickRows(w, TickOf(w.process, d, now), d.packets, sessions);
    } else {
      UnstoredDelivery(w, d, now);
    }
  }

  lemma {:induction false} UnstoredDelivery(w: World, d: Delivery<CarPacket>, now: Instant)
    requires !Stores(w.process, d)
    ensures Deliver(w, d, now).db == w.db
  {
    if !Skipped(w.process, d) {
      DeliverTickShape(w, TickOf(w.process, d, now), d.packets);
      assert TablesOf(Deliver(w, d, now)).db == w.db;
    }
  }

  lemma {:induction false} SameFlags(p: Process, laps: LC.Tracker, started: set<SessionUid>)
    requires FlagsSound(p, started)
    ensures FlagsSound(p.(laps := laps), started)
  {
  }

  /** A delivery writes only for a session under way, counting what the delivered frame itself shows. */
  lemma {:induction false} DeliverRace(w: World, d: Delivery<CarPacket>, now: Instant, started: set<SessionUid>,
          ever: set<SessionUid>)
    requires FlagsSound(w.process, started) && RowsWithin(w.db, ever) && started <= ever
    requires GoodDeliveries([d], AnyTime(w.process.raceStarted.vals.Keys))
    ensures var w' := Deliver(w, d, now);
            && FlagsSound(w'.process, started + Racing(w.process, [d]))
            && RowsWithin(w'.db, ever + Racing(w.process, [d]))
            && w'.process.raceStarted.vals.Keys == w.process.raceStarted.vals.Keys
            && w'.process.userMaps == w.process.userMaps
  {
    FlagsAfterSound(w.process, d, started);
    DeliverProcess(w, d, now);
    SameFlags(FlagsAfter(w.process, d), Deliver(w, d, now).process.laps, started + Racing(w.process, [d]));
    if Stores(w.process, d) {
      StoresOnlyUnderWay(w.process, d, started);
    }
    DeliverRows(w, d, now, ever + Racing(w.process, [d]));
  }

  lemma {:induction false} DeliverAllRace(w: World, ds: seq<Delivery<CarPacket>>, now: Instant,
          started: set<SessionUid>, ever: set<SessionUid>)
    requires FlagsSound(w.process, started) && RowsWithin(w.db, ever) && started <= ever
    requires GoodDeliveries(ds, AnyTime(w.process.raceStarted.vals.Keys))
    ensures var w' := DeliverAll(w, ds, now);
            && FlagsSound(w'.process, started + Racing(w.process, ds))
            && RowsWithin(w'.db, ever + Racing(w.process, ds))
            && w'.process.raceStarted.vals.Keys == w.process.raceStarted.vals.Keys
            && w'.process.userMaps == w.process.userMaps
    decreases ds
  {
    if ds == [] {
      assert started + Racing(w.process, ds) == started && ever + Racing(w.process, ds) == ever;
    } else {
      var w1 := Deliver(w, ds[0], now);
      var r0 := Racing(w.process, [ds[0]]);
      assert [ds[0]][0] == ds[0];
      DeliverRace(w, ds[0], now, started, ever);
      assert forall i :: 0 <= i < |ds[1..]| ==> ds[1..][i] == ds[i + 1];
      DeliverAllRace(w1, ds[1..], now, started + r0, ever + r0);
      RacingSplit(w.process, w1.process, ds);
      assert started + Racing(w.process, ds) == started + r0 + Racing(w1.process, ds[1..]);
      assert ever + Racing(w.process, ds) == ever + r0 + Racing(w1.process, ds[1..]);
    }
  }

  lemma {:induction false} RacingSplit(p: Process, p1: Process, ds: seq<Delivery<CarPacket>>)
    requires ds != [] && p1.userMaps == p.userMaps
    ensures Racing(p, ds) == Racing(p, [ds[0]]) + Racing(p1, ds[1..])
  {
    var left, right := Racing(p, ds), Racing(p, [ds[0]]) + Racing(p1, ds[1..]);
    forall u
      ensures u in left <==> u in right
    {
      if u in left {
        var i :| 0 <= i < |ds| && !Skipped(p, ds[i]) && OnRacingLap(p.userMaps.vals[ds[i].uid], ds[i].packets)
            && ds[i].uid == u;
        if i == 0 {
          assert [ds[0]][0] == ds[0];
        } else {
          assert ds[1..][i - 1] == ds[i] && !Skipped(p1, ds[1..][i - 1]);
        }
      }
      if u in Racing(p1, ds[1..]) {
        var i :| 0 <= i < |ds[1..]| && !Skipped(p1, ds[1..][i])
            && OnRacingLap(p1.userMaps.vals[ds[1..][i].uid], ds[1..][i].packets) && ds[1..][i].uid == u;
        assert ds[i + 1] == ds[1..][i] && !Skipped(p, ds[i + 1]);
      }
      if u in Racing(p, [ds[0]]) {
        assert !Skipped(p, ds[0]);
      }
    }
  }

  lemma {:induction false} RacingConcat(p: Process, a: seq<Delivery<CarPacket>>, b: seq<Delivery<CarPacket>>)
    ensures Racing(p, a + b) == Racing(p, a) + Racing(p, b)
    decreases a
  {
    if a == [] {
      assert a + b == b;
      assert Racing(p, a) == {};
    } else {
      assert (a + b)[1..] == a[1..] + b;
      RacingConcat(p, a[1..], b);
      RacingSplit(p, p, a);
      RacingSplit(p, p, a + b);
    }
  }

  /** Flags, pending frames and rows, all relative to the sessions shown to be under way. */
  ghost predicate RaceSound(w: World, started: set<SessionUid>, ever: set<SessionUid>) {
    FlagsSound(w.process, started) && RowsWithin(w.db, ever) && started <= ever
  }

  lemma {:induction false} BufferedRace(w: World, o: Outcome<CarPacket>, now: Instant, started: set<SessionUid>,
          ever: set<SessionUid>)
    requires RaceSound(w, started, ever)
    requires BufferSound(o.buffer, AnyTime(w.process.raceStarted.vals.Keys))
    requires GoodDeliveries(o.delivered, AnyTime(w.process.raceStarted.vals.Keys))
    ensures var w' := Buffered(w, o, now); var r := Racing(w.process, o.delivered);
            && RaceSound(w', started + r, ever + r)
            && w'.process.raceStarted.vals.Keys == w.process.raceStarted.vals.Keys
            && w'.process.userMaps == w.process.userMaps
  {
    var w0 := w.(process := w.process.(buffer := o.buffer));
    DeliverAllRace(w0, o.delivered, now, started, ever);
    assert Racing(w0.process, o.delivered) == Racing(w.process, o.delivered) by {
      SameRacing(w0.process, w.process, o.delivered);
    }
  }

  lemma {:induction false} SameRacing(p: Process, q: Process, ds: seq<Delivery<CarPacket>>)
    requires p.userMaps == q.userMaps
    ensures Racing(p, ds) == Racing(q, ds)
  {
  }

  // ---------------------------------------------------------------------------------------------
  // A packet
  // ---------------------------------------------------------------------------------------------

  lemma {:induction false} MarkRace(w: World, uid: SessionUid, started: set<SessionUid>, ever: set<SessionUid>)
    requires RaceSound(w, started, ever) && uid in w.process.caches.known
    ensures RaceSound(w.(process := MarkStarted(w.process, uid)), started + {uid}, ever + {uid})
    ensures MarkStarted(w.process, uid).raceStarted.vals.Keys == w.process.raceStarted.vals.Keys
  {
    assert uid in Members(w.process.caches.known);
    MarkStartedFlags(w.process, uid, started);
  }

  lemma {:induction false} AdmittedFlags(p: Process, p': Process, uid: SessionUid, open: bool)
    requires WellFormed(p.raceStarted) && |p.raceStarted.vals.Keys + {uid}| <= RACE_FLAGS
    requires p'.raceStarted == if uid in p.raceStarted.vals then p.raceStarted
        else SetItem(p.raceStarted, RACE_FLAGS, uid, open)
    ensures WellFormed(p'.raceStarted)
    ensures p'.raceStarted.vals == if uid in p.raceStarted.vals then p.raceStarted.vals
        else p.raceStarted.vals[uid := open]
    ensures p'.raceStarted.vals.Keys == p.raceStarted.vals.Keys + {uid}
  {
    var flags := p.raceStarted;
    if uid !in flags.vals {
      assert |flags.vals.Keys + {uid}| == |flags.vals.Keys| + 1;
      FlagSetWellFormed(flags, uid, open);
    } else {
      assert flags.vals.Keys + {uid} == flags.vals.Keys;
    }
  }

  lemma {:induction false} AdmittedRace(p: Process, p': Process, uid: SessionUid, open: bool, started: set<SessionUid>)
    requires FlagsSound(p, started) && WellFormed(p'.raceStarted)
    requires p'.raceStarted.vals == if uid in p.raceStarted.vals then p.raceStarted.vals
        else p.raceStarted.vals[uid := open]
    requires p'.raceStarted.vals.Keys == p.raceStarted.vals.Keys + {uid}
    requires Members(p'.caches.known) <= Members(p.caches.known) + {uid} && p'.buffer == p.buffer
    ensures FlagsSound(p', started + if open && uid !in p.raceStarted.vals then {uid} else {})
  {
    WiderOrigin(p.buffer, AnyTime(p.raceStarted.vals.Keys), AnyTime(p'.raceStarted.vals.Keys));
  }

  lemma {:induction false} SessionRace(w: World, uid: SessionUid, sessionType: nat, time: real, now: Instant,
          started: set<SessionUid>, ever: set<SessionUid>)
    requires RaceSound(w, started, ever) && |w.process.raceStarted.vals.Keys + {uid}| <= RACE_FLAGS
    ensures var w' := HandleSession(w, uid, sessionType, time, now);
            var shown := if sessionType !in RACE_SESSION_TYPES && uid !in w.process.raceStarted.vals then {uid} else {};
            && RaceSound(w', started + shown, ever + shown)
            && w'.process.raceStarted.vals.Keys == w.process.raceStarted.vals.Keys + {uid}
  {
    var p' := HandleSession(w, uid, sessionType, time, now).process;
    TouchMembers(w.process.caches.known, KNOWN_SESSIONS, uid);
    AdmittedFlags(w.process, p', uid, sessionType !in RACE_SESSION_TYPES);
    AdmittedRace(w.process, p', uid, sessionType !in RACE_SESSION_TYPES, started);
  }

  lemma {:induction false} EndRace(w: World, uid: SessionUid, now: Instant, started: set<SessionUid>,
          ever: set<SessionUid>)
    requires RaceSound(w, started, ever)
    ensures var o := FlushSession(w.process.buffer, uid);
            var r, w' := Racing(w.process, o.delivered), Buffered(w, o, now);
            RaceSound(w', started + r, ever + r) && w'.process.raceStarted.vals.Keys == w.process.raceStarted.vals.Keys
  {
    var b := w.process.buffer;
    EndSound(b, uid, AnyTime(w.process.raceStarted.vals.Keys));
    BufferedRace(w, FlushSession(b, uid), now, started, ever);
  }

  lemma {:induction false} SweepRace(w: World, now: Instant, clock: real, started: set<SessionUid>,
          ever: set<SessionUid>)
    requires RaceSound(w, started, ever) && !((clock - w.process.lastFlush) * 1000.0 < FLUSH_INTERVAL_MS)
    ensures var r := Racing(w.process, SweepStale(w.process.buffer).delivered); var w' := PeriodicSweep(w, now, clock);
            RaceSound(w', started + r, ever + r) && w'.process.raceStarted.vals.Keys == w.process.raceStarted.vals.Keys
  {
    var b := w.process.buffer;
    var w0 := w.(process := w.process.(lastFlush := clock));
    SweepSound(b, AnyTime(w.process.raceStarted.vals.Keys));
    BufferedRace(w0, SweepStale(b), now, started, ever);
    SameRacing(w0.process, w.process, SweepStale(b).delivered);
  }

  lemma {:induction false} DeliverAllKeeps(w: World, ds: seq<Delivery<CarPacket>>, now: Instant)
    ensures DeliverAll(w, ds, now).process.buffer == w.process.buffer
    ensures DeliverAll(w, ds, now).process.lastFlush == w.process.lastFlush
    decreases ds
  {
    if ds != [] {
      DeliverAllKeeps(Deliver(w, ds[0], now), ds[1..], now);
    }
  }

  lemma {:induction false} AddRace(w: World, slot: Slot, data: CarPacket, now: Instant, started: set<SessionUid>,
          ever: set<SessionUid>)
    returns (w': World)
    requires RaceSound(w, started, ever) && slot.uid in w.process.caches.known
    ensures var o := AddPacket(w.process.buffer, slot, data); var r := Racing(w.process, o.delivered);
            && w' == Buffered(w, o, now)
            && RaceSound(w', started + r, ever + r)
            && w'.process.raceStarted.vals.Keys == w.process.raceStarted.vals.Keys
            && w'.process.userMaps == w.process.userMaps
            && w'.process.buffer == o.buffer && w'.process.lastFlush == w.process.lastFlush
  {
    var o := AddPacket(w.process.buffer, slot, data);
    assert slot.uid in Members(w.process.caches.known);
    AddSound(w.process.buffer, slot, data, AnyTime(w.process.raceStarted.vals.Keys));
    w' := Buffered(w, o, now);
    BufferedRace(w, o, now, started, ever);
    DeliverAllKeeps(w.(process := w.process.(buffer := o.buffer)), o.delivered, now);
  }

  lemma {:induction false} RacingInTwo(p: Process, q: Process, a: seq<Delivery<CarPacket>>, b: seq<Delivery<CarPacket>>,
          sessions: set<SessionUid>)
    requires q.userMaps == p.userMaps
    ensures sessions + Racing(p, a) + Racing(q, b) == sessions + Racing(p, a + b)
  {
    SameRacing(p, q, b);
    RacingConcat(p, a, b);
  }

  lemma {:induction false} CarDataQuietRace(w: World, slot: Slot, data: CarPacket, now: Instant, clock: real,
          started: set<SessionUid>, ever: set<SessionUid>)
    requires RaceSound(w, started, ever) && slot.uid in w.process.caches.known
    requires Lookup(w.process.userMaps.vals, slot.uid).GetOr(map[]) != map[]
    requires (clock - w.process.lastFlush) * 1000.0 < FLUSH_INTERVAL_MS
    ensures var r := Racing(w.process, AddPacket(w.process.buffer, slot, data).delivered);
            var w' := HandleCarData(w, slot, data, now, clock);
            RaceSound(w', started + r, ever + r) && w'.process.raceStarted.vals.Keys == w.process.raceStarted.vals.Keys
  {
    var w1 := AddRace(w, slot, data, now, started, ever);
    assert HandleCarData(w, slot, data, now, clock) == w1;
  }

  lemma {:induction false} CarDataSweptRace(w: World, slot: Slot, data: CarPacket, now: Instant, clock: real,
          started: set<SessionUid>, ever: set<SessionUid>)
    requires RaceSound(w, started, ever) && slot.uid in w.process.caches.known
    requires Lookup(w.process.userMaps.vals, slot.uid).GetOr(map[]) != map[]
    requires !((clock - w.process.lastFlush) * 1000.0 < FLUSH_INTERVAL_MS)
    ensures var o := AddPacket(w.process.buffer, slot, data);
            var r := Racing(w.process, o.delivered + SweepStale(o.buffer).delivered);
            var w' := HandleCarData(w, slot, data, now, clock);
            RaceSound(w', started + r, ever + r) && w'.process.raceStarted.vals.Keys == w.process.raceStarted.vals.Keys
  {
    var o := AddPacket(w.process.buffer, slot, data);
    var r := Racing(w.process, o.delivered);
    var w1 := AddRace(w, slot, data, now, started, ever);
    assert HandleCarData(w, slot, data, now, clock) == PeriodicSweep(w1, now, clock);
    SweepRace(w1, now, clock, started + r, ever + r);
    RacingInTwo(w.process, w1.process, o.delivered, SweepStale(o.buffer).delivered, started);
    RacingInTwo(w.process, w1.process, o.delivered, SweepStale(o.buffer).delivered, ever);
  }

  lemma {:induction false} ListenIgnored(w: World, input: Input)
    requires input.Receive?
    requires input.packet.Uid() in w.process.excluded
        || (!input.packet.SessionInfo? && input.packet.Uid() !in w.process.caches.known)
    ensures Listen(w, input) == w && Signals(w, input) == {}
  {
  }

  lemma {:induction false} ListenExcluded(w: World, input: Input)
    requires input.Receive? && input.packet.Uid() !in w.process.excluded
    requires input.packet.SessionInfo? && input.packet.sessionType in EXCLUDED_SESSION_TYPES
    ensures Listen(w, input) == w.(process := Exclude(w.process, input.packet.uid))
    ensures Signals(w, input) == {}
  {
  }

  lemma {:induction false} ListenSession(w: World, input: Input)
    requires input.Receive? && input.packet.Uid() !in w.process.excluded
    requires input.packet.SessionInfo? && input.packet.sessionType !in EXCLUDED_SESSION_TYPES
    ensures Listen(w, input)
        == HandleSession(w, input.packet.uid, input.packet.sessionType, input.packet.time, input.now)
    ensures var uid, sessionType := input.packet.uid, input.packet.sessionType;
            Signals(w, input)
              == if sessionType !in RACE_SESSION_TYPES && uid !in w.process.raceStarted.vals then {uid} else {}
  {
  }

  /** What an input adds to the sessions under way; a restart forgets them. */
  lemma {:induction false} ReceiveRace(w: World, input: Input, started: set<SessionUid>, ever: set<SessionUid>)
    requires RaceSound(w, started, ever) && input.Receive?
    requires input.packet.SessionInfo? ==> |w.process.raceStarted.vals.Keys + {input.packet.uid}| <= RACE_FLAGS
    ensures RaceSound(Listen(w, input), started + Signals(w, input), ever + Signals(w, input))
    ensures Listen(w, input).process.raceStarted.vals.Keys
         <= w.process.raceStarted.vals.Keys + if input.packet.SessionInfo? then {input.packet.uid} else {}
  {
    assert started + {} == started && ever + {} == ever;
    if input.packet.Uid() in w.process.excluded {
      ListenIgnored(w, input);
    } else if input.packet.SessionInfo? {
      if input.packet.sessionType in EXCLUDED_SESSION_TYPES {
        ListenExcluded(w, input);
      } else {
        SessionRace(w, input.packet.uid, input.packet.sessionType, input.packet.time, input.now, started, ever);
        ListenSession(w, input);
      }
    } else if input.packet.Uid() !in w.process.caches.known {
      ListenIgnored(w, input);
    } else {
      KnownRace(w, input, started, ever);
    }
  }

  lemma {:induction false} KnownRace(w: World, input: Input, started: set<SessionUid>, ever: set<SessionUid>)
    requires RaceSound(w, started, ever) && input.Receive? && !input.packet.SessionInfo?
    requires input.packet.Uid() !in w.process.excluded && input.packet.Uid() in w.process.caches.known
    ensures RaceSound(Listen(w, input), started + Signals(w, input), ever + Signals(w, input))
    ensures Listen(w, input).process.raceStarted.vals.Keys == w.process.raceStarted.vals.Keys
  {
    match input.packet
    case LightsOut(_) | FormationLapOver(_) => MarkingRace(w, input, started, ever);
    case SessionEnd(_) => EndingRace(w, input, started, ever);
    case CarData(_, _) => DrivingRace(w, input, started, ever);
    case Participants(_, _, _) | Flashback(_, _) | Lobby(_) | Other(_) =>
      QuietRace(w, input, started, ever);
      QuietSignals(w, input);
  }

  lemma {:induction false} QuietSignals(w: World, input: Input)
    requires input.Receive?
    requires input.packet.Participants? || input.packet.Flashback? || input.packet.Lobby? || input.packet.Other?
    ensures Signals(w, input) == {}
  {
  }

  lemma {:induction false} MarkingRace(w: World, input: Input, started: set<SessionUid>, ever: set<SessionUid>)
    requires RaceSound(w, started, ever) && input.Receive?
    requires input.packet.LightsOut? || input.packet.FormationLapOver?
    requires input.packet.Uid() !in w.process.excluded && input.packet.Uid() in w.process.caches.known
    ensures RaceSound(Listen(w, input), started + Signals(w, input), ever + Signals(w, input))
    ensures Listen(w, input).process.raceStarted.vals.Keys == w.process.raceStarted.vals.Keys
  {
    MarkRace(w, input.packet.uid, started, ever);
    assert Listen(w, input) == w.(process := MarkStarted(w.process, input.packet.uid));
  }

  lemma {:induction false} ListenEnd(w: World, input: Input)
    requires input.Receive? && input.packet.SessionEnd?
    requires input.packet.Uid() !in w.process.excluded && input.packet.Uid() in w.process.caches.known
    ensures Listen(w, input) == Buffered(w, FlushSession(w.process.buffer, input.packet.uid), input.now)
    ensures Signals(w, input) == Racing(w.process, FlushSession(w.process.buffer, input.packet.uid).delivered)
  {
  }

  lemma {:induction false} EndingRace(w: World, input: Input, started: set<SessionUid>, ever: set<SessionUid>)
    requires RaceSound(w, started, ever) && input.Receive? && input.packet.SessionEnd?
    requires input.packet.Uid() !in w.process.excluded && input.packet.Uid() in w.process.caches.known
    ensures RaceSound(Listen(w, input), started + Signals(w, input), ever + Signals(w, input))
    ensures Listen(w, input).process.raceStarted.vals.Keys == w.process.raceStarted.vals.Keys
  {
    EndRace(w, input.packet.uid, input.now, started, ever);
    ListenEnd(w, input);
  }

  lemma {:induction false} ListenUnmapped(w: World, input: Input)
    requires input.Receive? && input.packet.CarData?
    requires input.packet.Uid() !in w.process.excluded && input.packet.Uid() in w.process.caches.known
    requires Lookup(w.process.userMaps.vals, input.packet.slot.uid).GetOr(map[]) == map[]
    ensures Listen(w, input) == w && Signals(w, input) == {}
  {
  }

  lemma {:induction false} ListenCarData(w: World, input: Input)
    requires input.Receive? && input.packet.CarData?
    requires input.packet.Uid() !in w.process.excluded && input.packet.Uid() in w.process.caches.known
    requires Lookup(w.process.userMaps.vals, input.packet.slot.uid).GetOr(map[]) != map[]
    ensures Listen(w, input) == HandleCarData(w, input.packet.slot, input.packet.packet, input.now, input.clock)
    ensures var o := AddPacket(w.process.buffer, input.packet.slot, input.packet.packet);
            var swept := if (input.clock - w.process.lastFlush) * 1000.0 < FLUSH_INTERVAL_MS then []
                else SweepStale(o.buffer).delivered;
            Signals(w, input) == Racing(w.process, o.delivered + swept)
  {
  }

  lemma {:induction false} DrivingRace(w: World, input: Input, started: set<SessionUid>, ever: set<SessionUid>)
    requires RaceSound(w, started, ever) && input.Receive? && input.packet.CarData?
    requires input.packet.Uid() !in w.process.excluded && input.packet.Uid() in w.process.caches.known
    ensures RaceSound(Listen(w, input), started + Signals(w, input), ever + Signals(w, input))
    ensures Listen(w, input).process.raceStarted.vals.Keys == w.process.raceStarted.vals.Keys
  {
    if Lookup(w.process.userMaps.vals, input.packet.slot.uid).GetOr(map[]) == map[] {
      ListenUnmapped(w, input);
      assert started + {} == started && ever + {} == ever;
    } else {
      ListenCarData(w, input);
      if (input.clock - w.process.lastFlush) * 1000.0 < FLUSH_INTERVAL_MS {
        CarDataQuietRace(w, input.packet.slot, input.packet.packet, input.now, input.clock, started, ever);
        var ds := AddPacket(w.process.buffer, input.packet.slot, input.packet.packet).delivered;
        assert ds + [] == ds;
      } else {
        CarDataSweptRace(w, input.packet.slot, input.packet.packet, input.now, input.clock, started, ever);
      }
    }
  }

  lemma {:induction false} QuietRace(w: World, input: Input, started: set<SessionUid>, ever: set<SessionUid>)
    requires RaceSound(w, started, ever) && input.Receive?
    requires input.packet.Uid() !in w.process.excluded && input.packet.Uid() in w.process.caches.known
    requires input.packet.Participants? || input.packet.Flashback? || input.packet.Lobby? || input.packet.Other?
    ensures RaceSound(Listen(w, input), started, ever)
    ensures Listen(w, input).process.raceStarted == w.process.raceStarted
  {
    if input.packet.Flashback? {
      DiscardSound(w.process.buffer, input.packet.uid, AnyTime(w.process.raceStarted.vals.Keys));
    }
  }

  // ---------------------------------------------------------------------------------------------
  // Whole runs
  // ---------------------------------------------------------------------------------------------

  lemma {:induction false} RestartRace(w: World, input: Input, started: set<SessionUid>, ever: set<SessionUid>)
    requires RaceSound(w, started, ever) && input.Restart?
    ensures RaceSound(Listen(w, input), {}, ever) && Listen(w, input).process.raceStarted.vals == map[]
    ensures Signals(w, input) == {}
  {
  }

  lemma {:induction false} RunRace(inputs: seq<Input>)
    requires FewSessions(inputs)
    ensures RaceSound(Run(inputs), UnderWay(inputs), EverUnderWay(inputs))
    ensures Run(inputs).process.raceStarted.vals.Keys <= Announced(inputs)
  {
    if inputs != [] {
      var n := |inputs| - 1;
      RunRace(inputs[..n]);
      if inputs[n].Receive? {
        if inputs[n].packet.SessionInfo? {
          SubsetCount(Run(inputs[..n]).process.raceStarted.vals.Keys + {inputs[n].packet.uid}, Announced(inputs));
        }
        ReceiveRace(Run(inputs[..n]), inputs[n], UnderWay(inputs[..n]), EverUnderWay(inputs[..n]));
      } else {
        RestartRace(Run(inputs[..n]), inputs[n], UnderWay(inputs[..n]), EverUnderWay(inputs[..n]));
      }
    }
  }

  /**
   Over any run, restarts included, no frame or damage row is stored for a race before lights out,
   the end of the formation lap, or a flushed frame with a mapped car on lap two or later.
   */
  lemma {:induction false} NothingStoredBeforeTheStart(inputs: seq<Input>)
    requires FewSessions(inputs)
    ensures forall k :: k in Run(inputs).db.frames ==> k.uid in EverUnderWay(inputs)
    ensures forall k :: k in Run(inputs).db.damage ==> k.uid in EverUnderWay(inputs)
  {
    RunRace(inputs);
  }

  /**
   Within one process a session counts as started exactly from the first sign that it is under way:
   it is not opened without one, and once open it never reverts.
   */
  lemma {:induction false} StartedExactlyWhenUnderWay(inputs: seq<Input>, uid: SessionUid)
    requires FewSessions(inputs) && uid in Run(inputs).process.caches.known
    ensures Lookup(Run(inputs).process.raceStarted.vals, uid) == Some(uid in UnderWay(inputs))
  {
    RunRace(inputs);
    assert uid in Members(Run(inputs).process.caches.known);
  }
}
