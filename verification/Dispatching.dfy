/**
 The packet dispatcher: its gates and caches, the frame buffer and the services it drives. Its own
 bounded collections are fields holding the values that `BoundedDict` and `BoundedSet` implement.
 */
module Dispatching {
  import opened Options
  import opened Recency
  import opened FrameBufferModel
  import opened FrameBuffers
  import opened FrameTables
  import opened AnchorCache
  import opened CarFrames
  import Listener
  import opened FrameServices
  import LC = LapCompletions

  class PacketDispatcher {
    const buffer: FrameBuffer<CarPacket>
    const sessions: SessionService
    const carFrames: CarFrameService
    const tyreSets: TyreSetsService

    var known: seq<SessionUid>
    var excluded: seq<SessionUid>
    var userMaps: Dict<SessionUid, UserMap>
    var restricted: Dict<SessionUid, set<nat>>
    var raceStarted: Dict<SessionUid, bool>
    var lastLaps: LC.Tracker

    ghost predicate Valid()
      reads sessions.seen, sessions.starts, buffer.frames, buffer.current, buffer.frames.data.Values
    {
      && carFrames.Valid() && sessions.Valid() && buffer.Valid()
      && (sessions.starts as object) != (buffer.frames as object)
      && (sessions.starts as object) != (buffer.current as object)
    }

    ghost function Memory(): Listener.Process
      reads this, sessions.seen, sessions.starts, buffer, buffer.frames, buffer.current, buffer.frames.data.Values
    {
      Listener.Process(Caches(known, sessions.seen.order, sessions.starts.Model()), excluded, userMaps,
                       restricted, raceStarted, lastLaps, buffer.Contents(), buffer.lastFlushTime)
    }

    ghost function Contents(): Listener.World
      reads this, sessions.seen, sessions.starts, buffer, buffer.frames, buffer.current, buffer.frames.data.Values
      reads sessions.repository, carFrames.frames, carFrames.damage, tyreSets
    {
      Listener.World(Memory(),
                     Listener.Database(sessions.repository.anchors, carFrames.frames.rows, carFrames.damage.rows),
                     tyreSets.reports, carFrames.frames.log, carFrames.damage.log)
    }

    /** A listener process starting on a database that may already hold rows. */
    constructor (clock: real, repository: SessionsRepository, carFrames: CarFrameService, tyreSets: TyreSetsService)
      requires carFrames.Valid()
      ensures Valid() && this.carFrames == carFrames && sessions.repository == repository && this.tyreSets == tyreSets
      ensures Memory() == Listener.NewProcess(clock)
    {
      buffer := new FrameBuffer(clock);
      sessions := new SessionService(repository);
      this.carFrames := carFrames;
      this.tyreSets := tyreSets;
      known, excluded := [], [];
      userMaps, restricted, raceStarted, lastLaps := Empty(), Empty(), Empty(), Empty();
    }

    // -------------------------------------------------------------------------------------------
    // A flushed frame
    // -------------------------------------------------------------------------------------------

    /** From here on the session counts as started. */
    method MarkRaceStarted(uid: SessionUid)
      modifies this`raceStarted
      ensures Contents() == old(Contents()).(process := Listener.MarkStarted(old(Contents()).process, uid))
    {
      if Lookup(raceStarted.vals, uid) == Some(true) {
        return;
      }
      raceStarted := SetItem(raceStarted, Listener.RACE_FLAGS, uid, true);
    }

    /** Whether a mapped car is on a lap no car can be on during a formation lap. */
    static method AnyRacing(users: UserMap, packets: Packets<CarPacket>) returns (racing: bool)
      ensures racing == Listener.OnRacingLap(users, packets)
    {
      if LAP_DATA !in packets.vals {
        return false;
      }
      for car := 0 to MAX_CARS
        invariant forall c ::
                     0 <= c < car ==> !(c in users && packets.vals[LAP_DATA].laps[c].number >= Listener.RACING_LAP)
      {
        if car in users && packets.vals[LAP_DATA].laps[car].number >= Listener.RACING_LAP {
          return true;
        }
      }
      racing := false;
    }

    /** One driver's lap number: report the lap it completes, and remember it. */
    method SeeLap(driver: LC.Driver, lap: nat) returns (ghost announced: seq<LC.Report>)
      modifies this`lastLaps, tyreSets
      ensures lastLaps == LC.See(old(lastLaps), driver, lap)
      ensures var done := LC.Completed(old(lastLaps), driver, lap);
              announced == if done.Some? then [LC.Report(driver, done.value)] else []
      ensures tyreSets.reports == old(tyreSets.reports) + announced
    {
      announced := [];
      var last := Lookup(lastLaps.vals, driver).GetOr(0);
      if lap > last && last > 0 {
        tyreSets.OnLapComplete(driver, last);
        announced := [LC.Report(driver, last)];
      }
      lastLaps := SetItem(lastLaps, LC.TRACKED_DRIVERS, driver, lap);
    }

    /** What the remaining cars add completes what the whole loop announces. */
    ghost predicate LapsLeft(tracker: LC.Tracker, reports: seq<LC.Report>, uid: SessionUid, users: UserMap,
            laps: CarPacket, cars: seq<Car>, i: nat)
      requires i <= |cars|
      reads this`lastLaps, tyreSets
    {
      var whole := Listener.CheckLaps(tracker, uid, users, laps, cars);
      var rest := Listener.CheckLaps(lastLaps, uid, users, laps, cars[i..]);
      rest.tracker == whole.tracker && tyreSets.reports + rest.reports == reports + whole.reports
    }

    method CheckLap(ghost tracker: LC.Tracker, ghost reports: seq<LC.Report>, uid: SessionUid, users: UserMap,
            laps: CarPacket, cars: seq<Car>, i: nat)
      requires i < |cars| && LapsLeft(tracker, reports, uid, users, laps, cars, i)
      modifies this`lastLaps, tyreSets
      ensures LapsLeft(tracker, reports, uid, users, laps, cars, i + 1)
    {
      assert cars[i..][1..] == cars[i + 1..];
      if cars[i] in users && laps.laps[cars[i]].driverStatus in {1, 4} {
        ghost var before := tyreSets.reports;
        ghost var rest := Listener.CheckLaps(lastLaps, uid, users, laps, cars[i..]);
        var done := SeeLap(LC.Driver(uid, users[cars[i]]), laps.laps[cars[i]].number);
        ghost var rest' := Listener.CheckLaps(lastLaps, uid, users, laps, cars[i + 1..]);
        assert rest.reports == done + rest'.reports;
        assert before + (done + rest'.reports) == (before + done) + rest'.reports;
      }
    }

    /** Every car's lap number in turn, against the last one seen for its driver. */
    method CheckLapCompletions(uid: SessionUid, users: UserMap, laps: CarPacket)
      modifies this`lastLaps, tyreSets
      ensures Contents() == Listener.SeeLaps(old(Contents()), uid, users, laps)
    {
      ghost var tracker, reports := lastLaps, tyreSets.reports;
      var cars := Cars();
      for i := 0 to |cars|
        invariant LapsLeft(tracker, reports, uid, users, laps, cars, i)
      {
        CheckLap(tracker, reports, uid, users, laps, cars, i);
      }
      assert cars[|cars|..] == [];
    }

    method WriteTick(t: Tick, packets: Packets<CarPacket>, open: bool)
      requires carFrames.Valid()
      modifies carFrames.frames, carFrames.damage
      ensures Contents() == if open then Listener.WriteTick(old(Contents()), t, packets) else old(Contents())
    {
      carFrames.WriteFrame(t, packets, open);
    }

    /** The backstop for a missed start event, and whether the race is open afterwards. */
    method RaceOpen(uid: SessionUid, users: UserMap, packets: Packets<CarPacket>) returns (open: bool)
      modifies this`raceStarted
      ensures var w := old(Contents());
              var p := if Listener.OnRacingLap(users, packets) then Listener.MarkStarted(w.process, uid) else w.process;
              Contents() == w.(process := p) && open == Lookup(p.raceStarted.vals, uid).GetOr(true)
    {
      var racing := AnyRacing(users, packets);
      if racing {
        MarkRaceStarted(uid);
      }
      open := Lookup(raceStarted.vals, uid).GetOr(true);
    }

    /** What is to be written for a frame, unless it is skipped. */
    method TickFor(d: Delivery<CarPacket>, now: Instant) returns (t: Option<Tick>)
      requires Valid()
      ensures var p := Contents().process;
              t == if Listener.Skipped(p, d) then None else Some(Listener.TickOf(p, d, now))
    {
      var users := Lookup(userMaps.vals, d.uid).GetOr(map[]);
      if users == map[] || d.packets.order == [] || d.packets.order[0] !in d.packets.vals {
        return None;
      }
      var time := d.packets.vals[d.packets.order[0]].sessionTime;
      if time < 1.0 {
        return None;
      }
      var withheld := Lookup(restricted.vals, d.uid).GetOr({});
      t := Some(Tick(d.uid, d.frame, time, users, withheld, sessions.starts.Get(d.uid), now));
    }

    /** The frame's rows and laps, once the race is known to be open or not. */
    method WriteCombined(t: Tick, packets: Packets<CarPacket>, open: bool)
      requires carFrames.Valid()
      modifies this`lastLaps, tyreSets, carFrames.frames, carFrames.damage
      ensures var w := old(Contents());
              var written := if open && Listener.Combined(packets) then Listener.WriteTick(w, t, packets) else w;
              Contents() == if open && LAP_DATA in packets.vals
                            then Listener.SeeLaps(written, t.uid, t.users, packets.vals[LAP_DATA]) else written
    {
      if MOTION in packets.vals || TELEMETRY in packets.vals || LAP_DATA in packets.vals || STATUS in packets.vals {
        WriteTick(t, packets, open);
      }
      if open && LAP_DATA in packets.vals {
        CheckLapCompletions(t.uid, t.users, packets.vals[LAP_DATA]);
      }
    }

    /** The rest of the flush, for a frame that is not skipped. */
    method FlushTick(t: Tick, packets: Packets<CarPacket>)
      requires carFrames.Valid()
      modifies this`raceStarted, this`lastLaps, tyreSets, carFrames.frames, carFrames.damage
      ensures Contents() == Listener.DeliverTick(old(Contents()), t, packets)
    {
      var open := RaceOpen(t.uid, t.users, packets);
      WriteCombined(t, packets, open);
    }

    /** A delivered frame: skipped, or written and checked for laps. */
    method FlushFrame(d: Delivery<CarPacket>, now: Instant)
      requires Valid()
      modifies this`raceStarted, this`lastLaps, tyreSets, carFrames.frames, carFrames.damage
      ensures Valid()
      ensures Contents() == Listener.Deliver(old(Contents()), d, now)
    {
      var t := TickFor(d, now);
      if t.None? {
        return;
      }
      FlushTick(t.value, d.packets);
    }

    method FlushFrames(ds: seq<Delivery<CarPacket>>, now: Instant)
      requires Valid()
      modifies this`raceStarted, this`lastLaps, tyreSets, carFrames.frames, carFrames.damage
      ensures Valid()
      ensures Contents() == Listener.DeliverAll(old(Contents()), ds, now)
    {
      for i := 0 to |ds|
        invariant Valid()
        invariant Listener.DeliverAll(Contents(), ds[i..], now) == Listener.DeliverAll(old(Contents()), ds, now)
      {
        assert ds[i..][1..] == ds[i + 1..];
        FlushFrame(ds[i], now);
      }
      assert ds[|ds|..] == [];
    }

    /** Flush what the buffer has just handed over. */
    method FlushTaken(ds: seq<Delivery<CarPacket>>, now: Instant, ghost w: Listener.World, ghost o: Outcome<CarPacket>)
      requires Valid() && ds == o.delivered && Contents() == w.(process := w.process.(buffer := o.buffer))
      modifies this`raceStarted, this`lastLaps, tyreSets, carFrames.frames, carFrames.damage
      ensures Valid() && buffer.Cells() == old(buffer.Cells())
      ensures Contents() == Listener.Buffered(w, o, now)
    {
      FlushFrames(ds, now);
    }

    // -------------------------------------------------------------------------------------------
    // A packet
    // -------------------------------------------------------------------------------------------

    method EndSession(uid: SessionUid, now: Instant)
      requires Valid()
      modifies buffer.frames, buffer.current, buffer.Cells()
      modifies this`raceStarted, this`lastLaps, tyreSets, carFrames.frames, carFrames.damage
      ensures Valid() && buffer.Cells() <= old(buffer.Cells())
      ensures Contents() == Listener.Buffered(old(Contents()), FlushSession(old(Contents()).process.buffer, uid), now)
    {
      ghost var w := Contents();
      var ds := TakeSession(uid);
      FlushTaken(ds, now, w, FlushSession(w.process.buffer, uid));
    }

    /** The frames left behind, when a sweep is due. */
    method TakeStale(clock: real) returns (ds: seq<Delivery<CarPacket>>)
      requires Valid()
      modifies buffer, buffer.frames, buffer.current, buffer.Cells()
      ensures Valid() && buffer.Cells() <= old(buffer.Cells())
      ensures var w := old(Contents()); var o := SweepStale(w.process.buffer);
              if (clock - w.process.lastFlush) * 1000.0 < FLUSH_INTERVAL_MS then Contents() == w && ds == []
              else Contents() == w.(process := w.process.(lastFlush := clock, buffer := o.buffer)) && ds == o.delivered
    {
      ghost var w := Contents();
      ds := buffer.CheckPeriodicFlush(clock);
      assert Memory() == w.process.(lastFlush := buffer.lastFlushTime, buffer := buffer.Contents());
    }

    /** The sweep after each car frame packet. */
    method SweepFrames(now: Instant, clock: real)
      requires Valid()
      modifies buffer, buffer.frames, buffer.current, buffer.Cells()
      modifies this`raceStarted, this`lastLaps, tyreSets, carFrames.frames, carFrames.damage
      ensures Valid() && buffer.Cells() <= old(buffer.Cells())
      ensures Contents() == Listener.PeriodicSweep(old(Contents()), now, clock)
    {
      ghost var w := Contents();
      var ds := TakeStale(clock);
      ghost var due := !((clock - w.process.lastFlush) * 1000.0 < FLUSH_INTERVAL_MS);
      FlushTaken(ds, now, if due then w.(process := w.process.(lastFlush := clock)) else w,
                 if due then SweepStale(w.process.buffer) else Outcome(w.process.buffer, []));
    }

    method Enqueue(slot: Slot, packet: CarPacket) returns (ds: seq<Delivery<CarPacket>>)
      requires Valid()
      modifies buffer.frames, buffer.current, buffer.Cells()
      ensures Valid() && fresh(buffer.Cells() - old(buffer.Cells()))
      ensures var w := old(Contents()); var o := AddPacket(w.process.buffer, slot, packet);
              Contents() == w.(process := w.process.(buffer := o.buffer)) && ds == o.delivered
    {
      ghost var w := Contents();
      ds := buffer.Add(slot, packet);
      assert Memory() == w.process.(buffer := buffer.Contents());
    }

    method TakeSession(uid: SessionUid) returns (ds: seq<Delivery<CarPacket>>)
      requires Valid()
      modifies buffer.frames, buffer.current, buffer.Cells()
      ensures Valid() && buffer.Cells() <= old(buffer.Cells())
      ensures var w := old(Contents()); var o := FlushSession(w.process.buffer, uid);
              Contents() == w.(process := w.process.(buffer := o.buffer)) && ds == o.delivered
    {
      ghost var w := Contents();
      ds := buffer.FlushSession(uid);
      assert Memory() == w.process.(buffer := buffer.Contents());
    }

    method BufferPacket(slot: Slot, packet: CarPacket, now: Instant)
      requires Valid()
      modifies buffer.frames, buffer.current, buffer.Cells()
      modifies this`raceStarted, this`lastLaps, tyreSets, carFrames.frames, carFrames.damage
      ensures Valid() && fresh(buffer.Cells() - old(buffer.Cells()))
      ensures var w := old(Contents());
              Contents() == Listener.Buffered(w, AddPacket(w.process.buffer, slot, packet), now)
    {
      ghost var w := Contents();
      var ds := Enqueue(slot, packet);
      FlushTaken(ds, now, w, AddPacket(w.process.buffer, slot, packet));
    }

    method HandleCarData(slot: Slot, packet: CarPacket, now: Instant, clock: real)
      requires Valid()
      modifies buffer, buffer.frames, buffer.current, buffer.Cells()
      modifies this`raceStarted, this`lastLaps, tyreSets, carFrames.frames, carFrames.damage
      ensures Valid() && fresh(buffer.Cells() - old(buffer.Cells()))
      ensures Contents() == Listener.HandleCarData(old(Contents()), slot, packet, now, clock)
    {
      if Lookup(userMaps.vals, slot.uid).GetOr(map[]) == map[] {
        return;
      }
      BufferPacket(slot, packet, now);
      SweepFrames(now, clock);
    }

    /** Each tracked driver of the session is written back to zero. */
    method ResetLaps(uid: SessionUid)
      modifies this`lastLaps
      ensures lastLaps == LC.ResetSession(old(lastLaps), uid)
    {
      var keys := lastLaps.order;
      for i := 0 to |keys|
        invariant LC.ResetKeys(lastLaps, keys[i..], uid) == LC.ResetKeys(old(lastLaps), keys, uid)
      {
        assert keys[i..][1..] == keys[i + 1..];
        if keys[i].uid == uid {
          lastLaps := SetItem(lastLaps, LC.TRACKED_DRIVERS, keys[i], 0);
        }
      }
      assert keys[|keys|..] == [];
    }

    method DropPending(uid: SessionUid)
      requires Valid()
      modifies buffer.frames, buffer.current
      ensures Valid() && buffer.Cells() <= old(buffer.Cells())
      ensures var w := old(Contents());
              Contents() == w.(process := w.process.(buffer := DiscardSession(w.process.buffer, uid)))
    {
      buffer.DiscardSession(uid);
    }

    method DiscardRows(uid: SessionUid, rewindTo: real)
      requires Valid()
      modifies carFrames.frames, carFrames.damage
      ensures var w := old(Contents()); var start := Lookup(w.process.caches.starts.vals, uid);
              Contents() == w.(db := w.db.(frames := DeleteAfter(w.db.frames, uid, rewindTo, start),
                                           damage := DeleteAfter(w.db.damage, uid, rewindTo, start)),
                               frameLog := w.frameLog + [Undo(uid, rewindTo, start)],
                               damageLog := w.damageLog + [Undo(uid, rewindTo, start)])
    {
      var _ := carFrames.DiscardAfter(uid, rewindTo, sessions.starts.Get(uid));
    }

    method ForgetLaps(uid: SessionUid)
      modifies this`lastLaps
      ensures var w := old(Contents());
              Contents() == w.(process := w.process.(laps := LC.ResetSession(w.process.laps, uid)))
    {
      ResetLaps(uid);
    }

    /** Discard what a flashback undid: pending frames, stored rows and the laps seen. */
    method HandleFlashback(uid: SessionUid, rewindTo: real)
      requires Valid()
      modifies buffer.frames, buffer.current, this`lastLaps, carFrames.frames, carFrames.damage
      ensures Valid() && buffer.Cells() <= old(buffer.Cells())
      ensures Contents() == Listener.HandleFlashback(old(Contents()), uid, rewindTo)
    {
      DropPending(uid);
      DiscardRows(uid, rewindTo);
      ForgetLaps(uid);
    }

    /** The session service's part of a Session packet. */
    method AdmitSession(uid: SessionUid, time: real, now: Instant)
      requires Valid()
      modifies this`known, sessions.repository, sessions.seen, sessions.starts
      ensures Valid()
      ensures var w := old(Contents()); var start := now - Micros(time);
              var c := w.process.caches;
              var stored := if uid in c.seen then w.db.anchors else InsertSession(w.db.anchors, uid, start);
              Contents() == w.(process := w.process.(caches := SessionPacket(c, uid, ReadBack(stored, uid, start))),
                               db := w.db.(anchors := stored))
    {
      known := Touch(known, KNOWN_SESSIONS, uid);
      sessions.HandleSessionPacket(uid, time, now);
    }

    method HandleSession(uid: SessionUid, sessionType: nat, time: real, now: Instant)
      requires Valid()
      modifies this`known, this`raceStarted, sessions.repository, sessions.seen, sessions.starts
      ensures Valid()
      ensures Contents() == Listener.HandleSession(old(Contents()), uid, sessionType, time, now)
    {
      AdmitSession(uid, time, now);
      OpenUnlessRace(uid, sessionType);
    }

    /** The flag of a session announced for the first time: false for a race, true for all else. */
    method OpenUnlessRace(uid: SessionUid, sessionType: nat)
      modifies this`raceStarted
      ensures var w := old(Contents()); var flags := w.process.raceStarted;
              Contents() == w.(process := w.process.(raceStarted :=
                if uid in flags.vals then flags
                else SetItem(flags, Listener.RACE_FLAGS, uid, sessionType !in Listener.RACE_SESSION_TYPES)))
    {
      if uid !in raceStarted.vals {
        raceStarted := SetItem(raceStarted, Listener.RACE_FLAGS, uid, sessionType !in Listener.RACE_SESSION_TYPES);
      }
    }

    method HandleParticipants(uid: SessionUid, confirmed: UserMap, withheld: set<nat>)
      modifies this`restricted, this`userMaps
      ensures var w := old(Contents());
              Contents() == w.(process := Listener.HandleParticipants(w.process, uid, confirmed, withheld))
    {
      restricted := SetItem(restricted, Listener.RESTRICTED_SESSIONS, uid, withheld);
      if confirmed != map[] {
        userMaps := SetItem(userMaps, Listener.USER_MAPS, uid, confirmed);
      }
    }

    /** Session packets are processed before the known-session gate. */
    method HandleSessionPacket(packet: Listener.Packet, now: Instant)
      requires Valid() && packet.SessionInfo?
      modifies this, sessions.repository, sessions.seen, sessions.starts
      ensures Valid()
      ensures var w := old(Contents());
              Contents() == if packet.sessionType in Listener.EXCLUDED_SESSION_TYPES
                            then w.(process := Listener.Exclude(w.process, packet.uid))
                            else Listener.HandleSession(w, packet.uid, packet.sessionType, packet.time, now)
    {
      if packet.sessionType in Listener.EXCLUDED_SESSION_TYPES {
        excluded := Touch(excluded, Listener.EXCLUDED_SESSIONS, packet.uid);
      } else {
        HandleSession(packet.uid, packet.sessionType, packet.time, now);
      }
    }

    /** Rosters and the two signs of a race's start. */
    method HandleNotice(packet: Listener.Packet, ghost now: Instant, ghost clock: real)
      requires Valid() && !packet.SessionEnd? && !packet.Flashback? && !packet.CarData?
      modifies this`restricted, this`userMaps, this`raceStarted
      ensures Valid()
      ensures Contents() == Listener.HandleKnown(old(Contents()), packet, now, clock)
    {
      match packet
      case Participants(uid, confirmed, withheld) => HandleParticipants(uid, confirmed, withheld);
      case LightsOut(uid) => MarkRaceStarted(uid);
      case FormationLapOver(uid) => MarkRaceStarted(uid);
      case SessionInfo(_, _, _) | Lobby(_) | Other(_) =>
    }

    /** A packet of a known session. */
    method HandleKnown(packet: Listener.Packet, now: Instant, clock: real)
      requires Valid()
      modifies this, buffer, buffer.frames, buffer.current, buffer.Cells()
      modifies tyreSets, carFrames.frames, carFrames.damage
      ensures Valid() && fresh(buffer.Cells() - old(buffer.Cells()))
      ensures Contents() == Listener.HandleKnown(old(Contents()), packet, now, clock)
    {
      ghost var after := Listener.HandleKnown(Contents(), packet, now, clock);
      if packet.CarData? {
        HandleCarData(packet.slot, packet.packet, now, clock);
        assert Contents() == after;
      } else if packet.SessionEnd? {
        EndSession(packet.uid, now);
        assert Contents() == after;
      } else if packet.Flashback? {
        HandleFlashback(packet.uid, packet.rewindTo);
        assert Contents() == after;
      } else {
        HandleNotice(packet, now, clock);
      }
    }

    /** The gates a packet has to pass, and what it then does. */
    method HandlePacket(packet: Listener.Packet, now: Instant, clock: real)
      requires Valid()
      modifies this, buffer, buffer.frames, buffer.current, buffer.Cells()
      modifies sessions.repository, sessions.seen, sessions.starts, tyreSets, carFrames.frames, carFrames.damage
      ensures Valid() && fresh(buffer.Cells() - old(buffer.Cells()))
      ensures Contents() == Listener.Handle(old(Contents()), packet, now, clock)
    {
      if packet.Uid() in excluded {
        return;
      }
      if packet.SessionInfo? {
        HandleSessionPacket(packet, now);
      } else if packet.Lobby? || packet.Uid() !in known {
        return;
      } else {
        HandleKnown(packet, now, clock);
      }
    }
  }
}
