/**
 The packet dispatcher with everything that decides which frame rows are stored: its gates and
 caches, the frame buffer, the session anchors and the two frame tables.
 */
module Listener {
  import opened Options
  import opened Recency
  import opened FrameBufferModel
  import opened FrameTables
  import opened AnchorCache
  import opened CarFrames
  import LC = LapCompletions

  const EXCLUDED_SESSION_TYPES: set<nat> := {0, 18}
  const RACE_SESSION_TYPES: set<nat> := {15, 16, 17, 100}
  const RACING_LAP: nat := 2
  const EXCLUDED_SESSIONS: nat := 100
  const USER_MAPS: nat := 200
  const RACE_FLAGS: nat := 200
  const RESTRICTED_SESSIONS: nat := 200

  datatype Packet =
    | SessionInfo(uid: SessionUid, sessionType: nat, time: real)
    | Lobby(uid: SessionUid)
    | Participants(uid: SessionUid, confirmed: UserMap, withheld: set<nat>)
    | LightsOut(uid: SessionUid)
    | FormationLapOver(uid: SessionUid)
    | SessionEnd(uid: SessionUid)
    | Flashback(uid: SessionUid, rewindTo: real)
    | CarData(slot: Slot, packet: CarPacket)
    | Other(uid: SessionUid)
  {
    function Uid(): SessionUid {
      if CarData? then slot.uid else uid
    }
  }

  datatype Input =
    | Receive(packet: Packet, now: Instant, clock: real)
    | Restart(clock: real)

  /** What a listener process holds in memory. */
  datatype Process = Process(
    caches: Caches,
    excluded: seq<SessionUid>,
    userMaps: Dict<SessionUid, UserMap>,
    restricted: Dict<SessionUid, set<nat>>,
    raceStarted: Dict<SessionUid, bool>,
    laps: LC.Tracker,
    buffer: Buffer<CarPacket>,
    lastFlush: real)

  /** What the database holds: session anchors and the two frame tables. */
  datatype Database = Database(
    anchors: map<SessionUid, Instant>,
    frames: Table<Stored<FrameRow>>,
    damage: Table<Stored<Cell>>)

  /** A process, the database, the lap completions announced, and the history of writes to each table. */
  datatype World = World(
    process: Process,
    db: Database,
    reports: seq<LC.Report>,
    frameLog: seq<Entry<FrameRow>>,
    damageLog: seq<Entry<Cell>>)

  function NewProcess(clock: real): Process {
    Process(EmptyCaches(), [], Empty(), Empty(), Empty(), Empty(), EmptyBuffer(), clock)
  }

  // ---------------------------------------------------------------------------------------------
  // A flushed frame
  // ---------------------------------------------------------------------------------------------

  function MarkStarted(p: Process, uid: SessionUid): Process {
    if Lookup(p.raceStarted.vals, uid) == Some(true) then p
    else p.(raceStarted := SetItem(p.raceStarted, RACE_FLAGS, uid, true))
  }

  /** A mapped car reports a lap no car can be on during a formation lap. */
  predicate OnRacingLap(users: UserMap, packets: Packets<CarPacket>) {
    LAP_DATA in packets.vals
    && exists car | 0 <= car < MAX_CARS :: car in users && packets.vals[LAP_DATA].laps[car].number >= RACING_LAP
  }

  function Writes<R>(rows: seq<(Key, Stored<R>)>): seq<Entry<R>> {
    seq(|rows|, i requires 0 <= i < |rows| => Entry.Write(rows[i].0, rows[i].1))
  }

  function WriteTick(w: World, t: Tick, packets: Packets<CarPacket>): World {
    var rows := WithGaps(RowsFor(t, packets, Cars()));
    var damage := DamageFor(t, packets, Cars());
    w.(db := w.db.(frames := InsertBatch(w.db.frames, rows), damage := InsertBatch(w.db.damage, damage)),
       frameLog := w.frameLog + Writes(rows),
       damageLog := w.damageLog + Writes(damage))
  }

  datatype LapOutcome = LapOutcome(tracker: LC.Tracker, reports: seq<LC.Report>)

  /** `_check_lap_completions` over the listed cars; only cars being driven count. */
  function CheckLaps(tracker: LC.Tracker, uid: SessionUid, users: UserMap, laps: CarPacket, cars: seq<Car>): LapOutcome
    decreases cars
  {
    if cars == [] then LapOutcome(tracker, [])
    else if cars[0] !in users || laps.laps[cars[0]].driverStatus !in {1, 4}
    then CheckLaps(tracker, uid, users, laps, cars[1..])
    else
      var driver, lap := LC.Driver(uid, users[cars[0]]), laps.laps[cars[0]].number;
      var done := LC.Completed(tracker, driver, lap);
      var rest := CheckLaps(LC.See(tracker, driver, lap), uid, users, laps, cars[1..]);
      LapOutcome(rest.tracker, (if done.Some? then [LC.Report(driver, done.value)] else []) + rest.reports)
  }

  /** The frame is dropped: no confirmed driver yet, or too early in the session. */
  predicate Skipped(p: Process, d: Delivery<CarPacket>) {
    || Lookup(p.userMaps.vals, d.uid).GetOr(map[]) == map[]
    || d.packets.order == [] || d.packets.order[0] !in d.packets.vals
    || d.packets.vals[d.packets.order[0]].sessionTime < 1.0
  }

  function TickOf(p: Process, d: Delivery<CarPacket>, now: Instant): Tick
    requires !Skipped(p, d)
  {
    Tick(d.uid, d.frame, d.packets.vals[d.packets.order[0]].sessionTime, p.userMaps.vals[d.uid],
         Lookup(p.restricted.vals, d.uid).GetOr({}), Lookup(p.caches.starts.vals, d.uid), now)
  }

  /** One of the packets that make a frame row has arrived. */
  predicate Combined(packets: Packets<CarPacket>) {
    MOTION in packets.vals || TELEMETRY in packets.vals || LAP_DATA in packets.vals || STATUS in packets.vals
  }

  function SeeLaps(w: World, uid: SessionUid, users: UserMap, laps: CarPacket): World {
    var o := CheckLaps(w.process.laps, uid, users, laps, Cars());
    w.(process := w.process.(laps := o.tracker), reports := w.reports + o.reports)
  }

  /** A frame that is not skipped: the backstop for a missed start, the rows, and the laps completed. */
  function DeliverTick(w: World, t: Tick, packets: Packets<CarPacket>): World {
    var p := if OnRacingLap(t.users, packets) then MarkStarted(w.process, t.uid) else w.process;
    var open := Lookup(p.raceStarted.vals, t.uid).GetOr(true);
    var written := if open && Combined(packets) then WriteTick(w.(process := p), t, packets) else w.(process := p);
    if open && LAP_DATA in packets.vals then SeeLaps(written, t.uid, t.users, packets.vals[LAP_DATA]) else written
  }

  /** `_flush_frame` of the dispatcher. */
  function Deliver(w: World, d: Delivery<CarPacket>, now: Instant): World {
    if Skipped(w.process, d) then w else DeliverTick(w, TickOf(w.process, d, now), d.packets)
  }

  function DeliverAll(w: World, ds: seq<Delivery<CarPacket>>, now: Instant): World
    decreases ds
  {
    if ds == [] then w else DeliverAll(Deliver(w, ds[0], now), ds[1..], now)
  }

  // ---------------------------------------------------------------------------------------------
  // A packet
  // ---------------------------------------------------------------------------------------------

  function Buffered(w: World, o: Outcome<CarPacket>, now: Instant): World {
    DeliverAll(w.(process := w.process.(buffer := o.buffer)), o.delivered, now)
  }

  function HandleSession(w: World, uid: SessionUid, sessionType: nat, time: real, now: Instant): World {
    var p := w.process;
    var stored := if uid in p.caches.seen then w.db.anchors else InsertSession(w.db.anchors, uid, now - Micros(time));
    var caches := SessionPacket(p.caches, uid, ReadBack(stored, uid, now - Micros(time)));
    var started := if uid in p.raceStarted.vals then p.raceStarted
                   else SetItem(p.raceStarted, RACE_FLAGS, uid, sessionType !in RACE_SESSION_TYPES);
    w.(process := p.(caches := caches, raceStarted := started), db := w.db.(anchors := stored))
  }

  function Exclude(p: Process, uid: SessionUid): Process {
    p.(excluded := Touch(p.excluded, EXCLUDED_SESSIONS, uid))
  }

  function HandleParticipants(p: Process, uid: SessionUid, confirmed: UserMap, withheld: set<nat>): Process {
    p.(restricted := SetItem(p.restricted, RESTRICTED_SESSIONS, uid, withheld),
       userMaps := if confirmed == map[] then p.userMaps else SetItem(p.userMaps, USER_MAPS, uid, confirmed))
  }

  /** Drop what is pending, delete what was stored past the rewind point, and forget the laps seen. */
  function HandleFlashback(w: World, uid: SessionUid, rewindTo: real): World {
    var p := w.process;
    var start := Lookup(p.caches.starts.vals, uid);
    w.(process := p.(buffer := DiscardSession(p.buffer, uid), laps := LC.ResetSession(p.laps, uid)),
       db := w.db.(frames := DeleteAfter(w.db.frames, uid, rewindTo, start),
                    damage := DeleteAfter(w.db.damage, uid, rewindTo, start)),
       frameLog := w.frameLog + [Undo(uid, rewindTo, start)],
       damageLog := w.damageLog + [Undo(uid, rewindTo, start)])
  }

  function PeriodicSweep(w: World, now: Instant, clock: real): World {
    if (clock - w.process.lastFlush) * 1000.0 < FLUSH_INTERVAL_MS then w
    else Buffered(w.(process := w.process.(lastFlush := clock)), SweepStale(w.process.buffer), now)
  }

  function HandleCarData(w: World, slot: Slot, packet: CarPacket, now: Instant, clock: real): World {
    if Lookup(w.process.userMaps.vals, slot.uid).GetOr(map[]) == map[] then w
    else PeriodicSweep(Buffered(w, AddPacket(w.process.buffer, slot, packet), now), now, clock)
  }

  /** A packet of a known session, by its kind. */
  function HandleKnown(w: World, packet: Packet, now: Instant, clock: real): World {
    match packet
    case Participants(uid, confirmed, withheld) =>
      w.(process := HandleParticipants(w.process, uid, confirmed, withheld))
    case LightsOut(uid) => w.(process := MarkStarted(w.process, uid))
    case FormationLapOver(uid) => w.(process := MarkStarted(w.process, uid))
    case SessionEnd(uid) => Buffered(w, FlushSession(w.process.buffer, uid), now)
    case Flashback(uid, rewindTo) => HandleFlashback(w, uid, rewindTo)
    case CarData(slot, data) => HandleCarData(w, slot, data, now, clock)
    case _ => w
  }

  /** `handle_packet`, after parsing and size validation. */
  function Handle(w: World, packet: Packet, now: Instant, clock: real): World {
    var p := w.process;
    if packet.Uid() in p.excluded then w
    else if packet.SessionInfo? then
      if packet.sessionType in EXCLUDED_SESSION_TYPES
      then w.(process := Exclude(p, packet.uid))
      else HandleSession(w, packet.uid, packet.sessionType, packet.time, now)
    else if packet.Lobby? || packet.Uid() !in p.caches.known then w
    else HandleKnown(w, packet, now, clock)
  }

  /** A restart loses the process and keeps the database. */
  function Listen(w: World, input: Input): World {
    match input
    case Receive(packet, now, clock) => Handle(w, packet, now, clock)
    case Restart(clock) => w.(process := NewProcess(clock))
  }

  ghost function Run(inputs: seq<Input>): World {
    if inputs == [] then World(NewProcess(0.0), Database(map[], map[], map[]), [], [], [])
    else Listen(Run(inputs[..|inputs| - 1]), inputs[|inputs| - 1])
  }
}
