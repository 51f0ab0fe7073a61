/**
 What the listener stores of a flushed frame, said of rosters, packets and flags alone: a frame sent a second or
 more into a session under way, with a confirmed driver and a packet to make a row of, is stored; nothing else is.
 */
module ListenerGates {
  import opened Options
  import opened Recency
  import opened FrameBufferModel
  import opened FrameTables
  import opened AnchorCache
  import opened CarFrames
  import opened Listener
  import opened ListenerTables
  import opened ListenerRaces
  import opened ListenerStores
  import opened ListenerLaps
  import LC = LapCompletions

  /** The confirmed drivers the process knows for a session. */
  function RosterOf(p: Process, uid: SessionUid): UserMap {
    if uid in p.userMaps.vals then p.userMaps.vals[uid] else map[]
  }

  /** The packet the frame's time is read from was sent a second or more into the session. */
  ghost predicate IsTimely(d: Delivery<CarPacket>) {
    && d.packets.order != [] && d.packets.order[0] in d.packets.vals
    && d.packets.vals[d.packets.order[0]].sessionTime >= 1.0
  }

  /** Motion, lap, telemetry or status data came. */
  ghost predicate MakesRows(packets: Packets<CarPacket>) {
    0 in packets.vals || 2 in packets.vals || 6 in packets.vals || 7 in packets.vals
  }

  ghost predicate OnSecondLap(users: UserMap, packets: Packets<CarPacket>) {
    2 in packets.vals && exists car: Car :: car in users && packets.vals[2].laps[car].number >= 2
  }

  /** No flag holds the session back, or the frame itself shows a confirmed driver past the first lap. */
  ghost predicate IsOpen(p: Process, d: Delivery<CarPacket>) {
    (d.uid in p.raceStarted.vals ==> p.raceStarted.vals[d.uid]) || OnSecondLap(RosterOf(p, d.uid), d.packets)
  }

  ghost predicate IsHeeded(p: Process, d: Delivery<CarPacket>) {
    RosterOf(p, d.uid) != map[] && IsTimely(d)
  }

  ghost predicate IsWritten(p: Process, d: Delivery<CarPacket>) {
    IsHeeded(p, d) && MakesRows(d.packets) && IsOpen(p, d)
  }

  /** The frame as it is written: its time, the session's roster and whom it withholds, and its anchor if kept. */
  ghost function TickAt(p: Process, d: Delivery<CarPacket>, now: Instant): Tick
    requires IsTimely(d)
  {
    Tick(d.uid, d.frame, d.packets.vals[d.packets.order[0]].sessionTime, RosterOf(p, d.uid),
         if d.uid in p.restricted.vals then p.restricted.vals[d.uid] else {},
         if d.uid in p.caches.starts.vals then Some(p.caches.starts.vals[d.uid]) else None, now)
  }

  // ---------------------------------------------------------------------------------------------
  // One frame
  // ---------------------------------------------------------------------------------------------

  lemma {:induction false} CarsOnSecondLap(users: UserMap, packets: Packets<CarPacket>)
    ensures OnRacingLap(users, packets) <==> OnSecondLap(users, packets)
  {
  }

  lemma {:induction false} HeededExactlyWhen(p: Process, d: Delivery<CarPacket>)
    ensures IsHeeded(p, d) <==> !Skipped(p, d)
    ensures IsHeeded(p, d) ==> forall now :: TickOf(p, d, now) == TickAt(p, d, now)
  {
  }

  lemma {:induction false} WrittenExactlyWhen(p: Process, d: Delivery<CarPacket>)
    ensures IsWritten(p, d) <==> Stores(p, d)
  {
    HeededExactlyWhen(p, d);
    CarsOnSecondLap(RosterOf(p, d.uid), d.packets);
  }

  /** Both tables and both histories have got the rows, and the anchors are as they were. */
  ghost predicate Wrote(w: World, w': World, rows: seq<(Key, Stored<FrameRow>)>, damage: seq<(Key, Stored<Cell>)>) {
    && TablesOf(w') == Tables(w.db.(frames := InsertBatch(w.db.frames, rows),
                                    damage := InsertBatch(w.db.damage, damage)),
                              w.frameLog + Writes(rows), w.damageLog + Writes(damage))
  }

  lemma {:induction false} WritesNothing(w: World, d: Delivery<CarPacket>, now: Instant)
    requires !Stores(w.process, d)
    ensures Wrote(w, Deliver(w, d, now), [], [])
  {
    if !Skipped(w.process, d) {
      DeliverTickShape(w, TickOf(w.process, d, now), d.packets);
    }
    assert TablesOf(Deliver(w, d, now)) == TablesOf(w);
    assert w.frameLog + Writes<FrameRow>([]) == w.frameLog && w.damageLog + Writes<Cell>([]) == w.damageLog;
  }

  lemma {:induction false} WritesTick(w: World, d: Delivery<CarPacket>, now: Instant)
    requires Stores(w.process, d) && IsHeeded(w.process, d)
    ensures var t := TickAt(w.process, d, now);
            Wrote(w, Deliver(w, d, now), WithGaps(RowsFor(t, d.packets, Cars())), DamageFor(t, d.packets, Cars()))
  {
    HeededExactlyWhen(w.process, d);
    DeliverTickShape(w, TickAt(w.process, d, now), d.packets);
  }

  /**
   What a flushed frame adds to the tables, whatever they hold: a row, and if it came and is not withheld a damage
   row, of each confirmed driver's car that is not in the garage, exactly when the frame is to be written.
   */
  lemma {:induction false} FrameWritesExactly(w: World, d: Delivery<CarPacket>, now: Instant)
    returns (rows: seq<(Key, Stored<FrameRow>)>, damage: seq<(Key, Stored<Cell>)>)
    ensures Wrote(w, Deliver(w, d, now), rows, damage)
    ensures if IsWritten(w.process, d)
            then AreRowsOf(rows, TickAt(w.process, d, now), d.packets)
              && AreDamageOf(damage, TickAt(w.process, d, now), d.packets)
            else rows == [] && damage == []
  {
    WrittenExactlyWhen(w.process, d);
    rows, damage := [], [];
    if IsWritten(w.process, d) {
      var t := TickAt(w.process, d, now);
      rows, damage := WithGaps(RowsFor(t, d.packets, Cars())), DamageFor(t, d.packets, Cars());
      WritesTick(w, d, now);
      TickRowsAreOwnData(t, d.packets);
      TickDamageIsOwnData(t, d.packets);
    } else {
      WritesNothing(w, d, now);
    }
  }

  /** A frame of the session's first second, or of a session with no confirmed driver, changes nothing at all. */
  lemma {:induction false} UnheededFrameChangesNothing(w: World, d: Delivery<CarPacket>, now: Instant)
    requires RosterOf(w.process, d.uid) == map[] || !IsTimely(d)
    ensures Deliver(w, d, now) == w
  {
    HeededExactlyWhen(w.process, d);
  }

  /** A confirmed driver's car is seen on the lap it reports. */
  ghost predicate IsSightingIn(e: LC.Event, uid: SessionUid, users: UserMap, laps: CarPacket, car: Car) {
    && car in users && (laps.laps[car].driverStatus == 1 || laps.laps[car].driverStatus == 4)
    && e == LC.Seen(LC.Driver(uid, users[car]), laps.laps[car].number)
  }

  lemma {:induction false} SightingsAreOwn(uid: SessionUid, users: UserMap, laps: CarPacket, cars: seq<Car>,
          e: LC.Event)
    ensures e in Sightings(uid, users, laps, cars)
       <==> exists car: Car :: car in cars && IsSightingIn(e, uid, users, laps, car)
    decreases cars
  {
    if cars != [] {
      SightingsAreOwn(uid, users, laps, cars[1..], e);
      assert cars[0] in cars;
      forall car | car in cars
        ensures car == cars[0] || car in cars[1..]
      {
      }
    }
  }

  /** The laps a flushed frame is looked at for: of confirmed drivers on a flying lap or on track, in an open race. */
  lemma {:induction false} FrameShowsExactly(p: Process, d: Delivery<CarPacket>, e: LC.Event)
    ensures e in SeenIn(p, d)
       <==> && IsHeeded(p, d) && IsOpen(p, d) && 2 in d.packets.vals
            && exists car: Car :: IsSightingIn(e, d.uid, RosterOf(p, d.uid), d.packets.vals[2], car)
  {
    HeededExactlyWhen(p, d);
    CarsOnSecondLap(RosterOf(p, d.uid), d.packets);
    if IsHeeded(p, d) && 2 in d.packets.vals {
      SightingsAreOwn(d.uid, RosterOf(p, d.uid), d.packets.vals[2], Cars(), e);
      forall car: Car
        ensures car in Cars()
      {
        assert Cars()[car] == car;
      }
    }
  }

  // ---------------------------------------------------------------------------------------------
  // The frames of a batch
  // ---------------------------------------------------------------------------------------------

  /** Histories only gain entries, tables only rows. */
  ghost predicate Grows(w: World, w': World) {
    && w.frameLog <= w'.frameLog && w.damageLog <= w'.damageLog
    && w.db.frames.Keys <= w'.db.frames.Keys && w.db.damage.Keys <= w'.db.damage.Keys
  }

  lemma {:induction false} BatchKeeps<R>(t: Table<R>, rows: seq<(Key, R)>)
    ensures t.Keys <= InsertBatch(t, rows).Keys
    ensures forall i :: 0 <= i < |rows| ==> rows[i].0 in InsertBatch(t, rows)
  {
    forall k
      ensures k in InsertBatch(t, rows) <==> k in t || HasKey(rows, k)
    {
      InsertBatchKeys(t, rows, k);
    }
    forall i | 0 <= i < |rows|
      ensures rows[i].0 in InsertBatch(t, rows)
    {
      assert HasKey(rows, rows[i].0);
    }
  }

  lemma {:induction false} WroteGrows(w: World, w': World, rows: seq<(Key, Stored<FrameRow>)>,
          damage: seq<(Key, Stored<Cell>)>)
    requires Wrote(w, w', rows, damage)
    ensures Grows(w, w')
  {
    BatchKeeps(w.db.frames, rows);
    BatchKeeps(w.db.damage, damage);
  }

  /** Between the two the row entered the history, and its key is stored. */
  ghost predicate Added<R>(log: seq<Entry<R>>, log': seq<Entry<R>>, t: Table<Stored<R>>, r: (Key, Stored<R>)) {
    r.0 in t && exists n :: |log| <= n < |log'| && log'[n] == Entry.Write(r.0, r.1)
  }

  ghost predicate RowAdded(w: World, w': World, r: (Key, Stored<FrameRow>)) {
    Added(w.frameLog, w'.frameLog, w'.db.frames, r)
  }

  ghost predicate DamageAdded(w: World, w': World, r: (Key, Stored<Cell>)) {
    Added(w.damageLog, w'.damageLog, w'.db.damage, r)
  }

  ghost predicate RowAddedOf(w: World, w': World, t: Tick, packets: Packets<CarPacket>, car: Car) {
    exists r :: RowAdded(w, w', r) && IsRowOf(r, t, packets, car)
  }

  /** Between the two the frame's rows have been written, and they are stored. */
  ghost predicate Recorded(w: World, w': World, t: Tick, packets: Packets<CarPacket>) {
    && (forall car: Car {:trigger RowAddedOf(w, w', t, packets, car)} ::
          OnTrack(t, packets, car) ==> RowAddedOf(w, w', t, packets, car))
    && (forall car: Car, r :: IsDamageOf(r, t, packets, car) ==> DamageAdded(w, w', r))
  }

  lemma {:induction false} MemberIsAdded<R>(log: seq<Entry<R>>, t: Table<Stored<R>>, rows: seq<(Key, Stored<R>)>,
          r: (Key, Stored<R>))
    requires r in rows
    ensures Added(log, log + Writes(rows), InsertBatch(t, rows), r)
  {
    var i :| 0 <= i < |rows| && rows[i] == r;
    assert (log + Writes(rows))[|log| + i] == Entry.Write(r.0, r.1);
    BatchKeeps(t, rows);
  }

  lemma {:induction false} WroteIsAdded(w: World, w': World, rows: seq<(Key, Stored<FrameRow>)>,
          damage: seq<(Key, Stored<Cell>)>)
    requires Wrote(w, w', rows, damage)
    ensures forall r :: r in rows ==> RowAdded(w, w', r)
    ensures forall r :: r in damage ==> DamageAdded(w, w', r)
  {
    forall r | r in rows
      ensures RowAdded(w, w', r)
    {
      MemberIsAdded(w.frameLog, w.db.frames, rows, r);
    }
    forall r | r in damage
      ensures DamageAdded(w, w', r)
    {
      MemberIsAdded(w.damageLog, w.db.damage, damage, r);
    }
  }

  lemma {:induction false} WroteIsRecorded(w: World, w': World, rows: seq<(Key, Stored<FrameRow>)>,
          damage: seq<(Key, Stored<Cell>)>, t: Tick, packets: Packets<CarPacket>)
    requires Wrote(w, w', rows, damage) && AreRowsOf(rows, t, packets) && AreDamageOf(damage, t, packets)
    ensures Recorded(w, w', t, packets)
  {
    WroteIsAdded(w, w', rows, damage);
    forall car: Car | OnTrack(t, packets, car)
      ensures RowAddedOf(w, w', t, packets, car)
    {
      assert HasRowOf(rows, t, packets, car);
      var r :| r in rows && IsRowOf(r, t, packets, car);
      assert RowAdded(w, w', r);
    }
    forall car: Car, r | IsDamageOf(r, t, packets, car)
      ensures DamageAdded(w, w', r)
    {
      assert r in damage;
    }
  }

  lemma {:induction false} WrittenIsRecorded(w: World, d: Delivery<CarPacket>, now: Instant)
    requires IsWritten(w.process, d)
    ensures Recorded(w, Deliver(w, d, now), TickAt(w.process, d, now), d.packets)
  {
    var rows, damage := FrameWritesExactly(w, d, now);
    WroteIsRecorded(w, Deliver(w, d, now), rows, damage, TickAt(w.process, d, now), d.packets);
  }

  lemma {:induction false} AddedWithin(w0: World, w: World, w': World, w1: World)
    requires Grows(w0, w) && Grows(w', w1)
    ensures forall r :: RowAdded(w, w', r) ==> RowAdded(w0, w1, r)
    ensures forall r :: DamageAdded(w, w', r) ==> DamageAdded(w0, w1, r)
  {
  }

  lemma {:induction false} RecordedWithin(w0: World, w: World, w': World, w1: World, t: Tick,
          packets: Packets<CarPacket>)
    requires Grows(w0, w) && Recorded(w, w', t, packets) && Grows(w', w1)
    ensures Recorded(w0, w1, t, packets)
  {
    AddedWithin(w0, w, w', w1);
    forall car: Car | OnTrack(t, packets, car)
      ensures RowAddedOf(w0, w1, t, packets, car)
    {
      assert RowAddedOf(w, w', t, packets, car);
      var r :| RowAdded(w, w', r) && IsRowOf(r, t, packets, car);
      assert RowAdded(w0, w1, r);
    }
  }

  lemma {:induction false} DeliverGrows(w: World, d: Delivery<CarPacket>, now: Instant)
    ensures Grows(w, Deliver(w, d, now))
  {
    var rows, damage := FrameWritesExactly(w, d, now);
    WroteGrows(w, Deliver(w, d, now), rows, damage);
  }

  lemma {:induction false} DeliverAllGrows(w: World, ds: seq<Delivery<CarPacket>>, now: Instant)
    ensures Grows(w, DeliverAll(w, ds, now))
    decreases ds
  {
    if ds != [] {
      DeliverGrows(w, ds[0], now);
      DeliverAllGrows(Deliver(w, ds[0], now), ds[1..], now);
    }
  }

  /** What later frames find: the same rosters and anchors, and no flag that has closed. */
  ghost predicate StaysOpen(p: Process, p': Process) {
    && p'.userMaps == p.userMaps && p'.restricted == p.restricted && p'.caches == p.caches
    && forall u :: u in p'.raceStarted.vals && !p'.raceStarted.vals[u]
         ==> u in p.raceStarted.vals && !p.raceStarted.vals[u]
  }

  lemma {:induction false} DeliverStaysOpen(w: World, d: Delivery<CarPacket>, now: Instant)
    ensures StaysOpen(w.process, Deliver(w, d, now).process)
  {
    DeliverProcess(w, d, now);
  }

  lemma {:induction false} DeliverAllStaysOpen(w: World, ds: seq<Delivery<CarPacket>>, now: Instant)
    ensures StaysOpen(w.process, DeliverAll(w, ds, now).process)
    decreases ds
  {
    if ds != [] {
      DeliverStaysOpen(w, ds[0], now);
      DeliverAllStaysOpen(Deliver(w, ds[0], now), ds[1..], now);
    }
  }

  lemma {:induction false} StillWritten(p: Process, p': Process, d: Delivery<CarPacket>, now: Instant)
    requires StaysOpen(p, p') && IsWritten(p, d)
    ensures IsWritten(p', d) && TickAt(p', d, now) == TickAt(p, d, now)
  {
  }

  lemma {:induction false} BatchRecords(w: World, ds: seq<Delivery<CarPacket>>, now: Instant, i: nat)
    requires i < |ds| && IsWritten(w.process, ds[i])
    ensures Recorded(w, DeliverAll(w, ds, now), TickAt(w.process, ds[i], now), ds[i].packets)
    decreases ds
  {
    var w1, w' := Deliver(w, ds[0], now), DeliverAll(w, ds, now);
    var t := TickAt(w.process, ds[i], now);
    if i == 0 {
      WrittenIsRecorded(w, ds[0], now);
      DeliverAllGrows(w1, ds[1..], now);
      RecordedWithin(w, w, w1, w', t, ds[0].packets);
    } else {
      DeliverGrows(w, ds[0], now);
      DeliverStaysOpen(w, ds[0], now);
      StillWritten(w.process, w1.process, ds[i], now);
      assert ds[1..][i - 1] == ds[i];
      BatchRecords(w1, ds[1..], now, i - 1);
      RecordedWithin(w, w1, w', w', t, ds[i].packets);
    }
  }

  // ---------------------------------------------------------------------------------------------
  // The frames an input flushes
  // ---------------------------------------------------------------------------------------------

  lemma {:induction false} BufferedRecords(w: World, o: Outcome<CarPacket>, now: Instant, i: nat)
    requires i < |o.delivered| && IsWritten(w.process, o.delivered[i])
    ensures Recorded(w, Buffered(w, o, now), TickAt(w.process, o.delivered[i], now), o.delivered[i].packets)
  {
    var w0 := w.(process := w.process.(buffer := o.buffer));
    StillWritten(w.process, w0.process, o.delivered[i], now);
    BatchRecords(w0, o.delivered, now, i);
    RecordedWithin(w, w0, Buffered(w, o, now), Buffered(w, o, now), TickAt(w.process, o.delivered[i], now),
                   o.delivered[i].packets);
  }

  lemma {:induction false} BufferedGrows(w: World, o: Outcome<CarPacket>, now: Instant)
    ensures Grows(w, Buffered(w, o, now)) && StaysOpen(w.process, Buffered(w, o, now).process)
    ensures Buffered(w, o, now).process.buffer == o.buffer
    ensures Buffered(w, o, now).process.lastFlush == w.process.lastFlush
  {
    var w0 := w.(process := w.process.(buffer := o.buffer));
    DeliverAllGrows(w0, o.delivered, now);
    DeliverAllStaysOpen(w0, o.delivered, now);
    DeliverAllKeeps(w0, o.delivered, now);
  }

  lemma {:induction false} SweepRecords(w: World, now: Instant, clock: real, i: nat)
    requires SweepDue(w.process, clock)
    requires i < |SweepStale(w.process.buffer).delivered|
    requires IsWritten(w.process, SweepStale(w.process.buffer).delivered[i])
    ensures var d := SweepStale(w.process.buffer).delivered[i];
            Recorded(w, PeriodicSweep(w, now, clock), TickAt(w.process, d, now), d.packets)
  {
    var o, w0 := SweepStale(w.process.buffer), w.(process := w.process.(lastFlush := clock));
    StillWritten(w.process, w0.process, o.delivered[i], now);
    BufferedRecords(w0, o, now, i);
    RecordedWithin(w, w0, Buffered(w0, o, now), Buffered(w0, o, now), TickAt(w.process, o.delivered[i], now),
                   o.delivered[i].packets);
  }

  lemma {:induction false} SweepGrows(w: World, now: Instant, clock: real)
    ensures Grows(w, PeriodicSweep(w, now, clock))
  {
    if SweepDue(w.process, clock) {
      var w0 := w.(process := w.process.(lastFlush := clock));
      BufferedGrows(w0, SweepStale(w.process.buffer), now);
    }
  }

  lemma {:induction false} AddedRecords(w: World, o: Outcome<CarPacket>, now: Instant, clock: real, i: nat)
    requires i < |o.delivered| && IsWritten(w.process, o.delivered[i])
    ensures var w' := PeriodicSweep(Buffered(w, o, now), now, clock);
            Recorded(w, w', TickAt(w.process, o.delivered[i], now), o.delivered[i].packets)
  {
    var w1 := Buffered(w, o, now);
    BufferedRecords(w, o, now, i);
    SweepGrows(w1, now, clock);
    RecordedWithin(w, w, w1, PeriodicSweep(w1, now, clock), TickAt(w.process, o.delivered[i], now),
                   o.delivered[i].packets);
  }

  lemma {:induction false} SweptRecords(w: World, o: Outcome<CarPacket>, now: Instant, clock: real, i: nat)
    requires SweepDue(w.process, clock)
    requires i < |SweepStale(o.buffer).delivered| && IsWritten(w.process, SweepStale(o.buffer).delivered[i])
    ensures var w', d := PeriodicSweep(Buffered(w, o, now), now, clock), SweepStale(o.buffer).delivered[i];
            Recorded(w, w', TickAt(w.process, d, now), d.packets)
  {
    var w1, d := Buffered(w, o, now), SweepStale(o.buffer).delivered[i];
    var w' := PeriodicSweep(w1, now, clock);
    BufferedGrows(w, o, now);
    StillWritten(w.process, w1.process, d, now);
    SweepRecords(w1, now, clock, i);
    RecordedWithin(w, w1, w', w', TickAt(w.process, d, now), d.packets);
  }

  lemma {:induction false} CarDataRecords(w: World, slot: Slot, data: CarPacket, now: Instant, clock: real, i: nat)
    requires Lookup(w.process.userMaps.vals, slot.uid).GetOr(map[]) != map[]
    requires var o := AddPacket(w.process.buffer, slot, data);
             var ds := o.delivered + if SweepDue(w.process, clock) then SweepStale(o.buffer).delivered else [];
             i < |ds| && IsWritten(w.process, ds[i])
    ensures var o := AddPacket(w.process.buffer, slot, data);
            var ds := o.delivered + if SweepDue(w.process, clock) then SweepStale(o.buffer).delivered else [];
            Recorded(w, HandleCarData(w, slot, data, now, clock), TickAt(w.process, ds[i], now), ds[i].packets)
  {
    var o := AddPacket(w.process.buffer, slot, data);
    assert HandleCarData(w, slot, data, now, clock) == PeriodicSweep(Buffered(w, o, now), now, clock);
    if i < |o.delivered| {
      AddedRecords(w, o, now, clock, i);
    } else {
      SweptRecords(w, o, now, clock, i - |o.delivered|);
    }
  }

  /** Each frame an input flushes, if it is to be written as the process stands, is written and stored. */
  lemma {:induction false} FlushedFrameIsRecorded(w: World, input: Input, i: nat)
    requires input.Receive? && i < |Flushed(w, input)| && IsWritten(w.process, Flushed(w, input)[i])
    ensures var d := Flushed(w, input)[i];
            Recorded(w, Listen(w, input), TickAt(w.process, d, input.now), d.packets)
  {
    if input.packet.SessionEnd? {
      ListenEnd(w, input);
      BufferedRecords(w, FlushSession(w.process.buffer, input.packet.uid), input.now, i);
    } else if input.packet.CarData? {
      ListenCarData(w, input);
      CarDataRecords(w, input.packet.slot, input.packet.packet, input.now, input.clock, i);
    }
  }

  // ---------------------------------------------------------------------------------------------
  // Whole runs
  // ---------------------------------------------------------------------------------------------

  /** A confirmed driver's car, not in the garage by the lap data that came with the frame. */
  ghost predicate IsDriving(p: Process, d: Delivery<CarPacket>, car: Car) {
    car in RosterOf(p, d.uid) && (2 in d.packets.vals ==> d.packets.vals[2].laps[car].driverStatus != 0)
  }

  ghost function KeyAt(p: Process, d: Delivery<CarPacket>, anchor: Instant, car: Car): Key
    requires IsTimely(d) && car in RosterOf(p, d.uid)
  {
    var time := d.packets.vals[d.packets.order[0]].sessionTime;
    Key(anchor + Micros(time), d.uid, RosterOf(p, d.uid)[car], d.frame)
  }

  /** The row is of the frame's time and of the car's own data. */
  ghost predicate IsOwn(r: (Key, Stored<FrameRow>), d: Delivery<CarPacket>, car: Car, restricted: bool)
    requires IsTimely(d)
  {
    r.1.time == d.packets.vals[d.packets.order[0]].sessionTime && OwnColumns(r.1.row, d.packets, car, restricted)
  }

  predicate Withholds(p: Process, uid: SessionUid, car: Car) {
    uid in p.restricted.vals && car in p.restricted.vals[uid]
  }

  lemma {:induction false} RowOfFrame(p: Process, d: Delivery<CarPacket>, now: Instant, car: Car,
          r: (Key, Stored<FrameRow>))
    requires IsTimely(d) && d.uid in p.caches.starts.vals && IsRowOf(r, TickAt(p, d, now), d.packets, car)
    ensures IsDriving(p, d, car) && r.0 == KeyAt(p, d, p.caches.starts.vals[d.uid], car)
    ensures IsOwn(r, d, car, Withholds(p, d.uid, car))
  {
  }

  lemma {:induction false} RecordedUnderAnchor(w: World, w': World, d: Delivery<CarPacket>, now: Instant, car: Car)
    returns (r: (Key, Stored<FrameRow>))
    requires IsTimely(d) && IsDriving(w.process, d, car) && d.uid in w.process.caches.starts.vals
    requires Recorded(w, w', TickAt(w.process, d, now), d.packets)
    ensures RowAdded(w, w', r) && r.0 == KeyAt(w.process, d, w.process.caches.starts.vals[d.uid], car)
    ensures IsOwn(r, d, car, Withholds(w.process, d.uid, car))
  {
    var t := TickAt(w.process, d, now);
    assert OnTrack(t, d.packets, car) && RowAddedOf(w, w', t, d.packets, car);
    r :| RowAdded(w, w', r) && IsRowOf(r, t, d.packets, car);
    RowOfFrame(w.process, d, now, car, r);
  }

  lemma {:induction false} FlushedIsOfSessionLetIn(w: World, input: Input, i: nat, sessions: set<SessionUid>)
    requires BufferSound(w.process.buffer, AnyTime(sessions)) && Members(w.process.caches.known) <= sessions
    requires i < |Flushed(w, input)| && IsTimely(Flushed(w, input)[i])
    ensures Flushed(w, input)[i].uid in sessions
  {
    var d := Flushed(w, input)[i];
    if input.Receive? && input.packet.Uid() in w.process.caches.known {
      assert input.packet.Uid() in Members(w.process.caches.known);
    }
    FlushedGood(w, input, AnyTime(sessions));
    assert GoodPacket(d.uid, d.frame, d.packets.vals[d.packets.order[0]], AnyTime(sessions));
  }

  /**
   Over any run of at most 200 sessions per process: of a flushed frame sent a second or more into a session that
   was under way, or shows itself to be, each confirmed driver not in the garage is stored, at the session's stored
   anchor plus the frame's time, with the data of his own car.
   */
  lemma {:induction false} FlushedFramesAreStored(earlier: seq<Input>, last: Input, i: nat, car: Car)
    returns (r: (Key, Stored<FrameRow>))
    requires FewSessions(earlier) && last.Receive? && i < |Flushed(Run(earlier), last)|
    requires var p, d := Run(earlier).process, Flushed(Run(earlier), last)[i];
             && IsTimely(d) && MakesRows(d.packets) && IsDriving(p, d, car)
             && (d.uid in UnderWay(earlier) || OnSecondLap(RosterOf(p, d.uid), d.packets))
    ensures var w, w' := Run(earlier), Run(earlier + [last]);
            var d := Flushed(w, last)[i];
            && d.uid in w.db.anchors
            && r.0 == KeyAt(w.process, d, w.db.anchors[d.uid], car) && r.0 in w'.db.frames
            && RowAdded(w, w', r) && IsOwn(r, d, car, Withholds(w.process, d.uid, car))
  {
    var w, d := Run(earlier), Flushed(Run(earlier), last)[i];
    RunRace(earlier);
    RunRoomy(earlier);
    FlushedIsOfSessionLetIn(w, last, i, w.process.caches.starts.vals.Keys);
    assert car in RosterOf(w.process, d.uid);
    assert IsWritten(w.process, d);
    FlushedFrameIsRecorded(w, last, i);
    assert (earlier + [last])[..|earlier|] == earlier;
    r := RecordedUnderAnchor(w, Listen(w, last), d, last.now, car);
  }
}
