/** Whole runs of the listener: what the frame tables hold. */
module ListenerTables {
  import opened Options
  import opened Recency
  import opened FrameBufferModel
  import FrameBufferRuns
  import opened FrameTables
  import opened AnchorCache
  import opened CarFrames
  import opened Listener
  import LC = LapCompletions

  // ---------------------------------------------------------------------------------------------
  // Batches against tables and histories
  // ---------------------------------------------------------------------------------------------

  ghost predicate TableKeyed<R>(t: Table<Stored<R>>, anchors: map<SessionUid, Instant>, law: Law) {
    forall k :: k in t ==> Stamped(law, k, t[k].time, anchors)
  }

  ghost predicate RowsKeyed<R>(rows: seq<(Key, Stored<R>)>, anchors: map<SessionUid, Instant>, law: Law) {
    forall i :: 0 <= i < |rows| ==> Stamped(law, rows[i].0, rows[i].1.time, anchors)
  }

  /** A table together with the history that explains it. */
  ghost predicate Recorded<R>(t: Table<Stored<R>>, log: seq<Entry<R>>, anchors: map<SessionUid, Instant>, law: Law) {
    t == Replay(log) && Keyed(log, anchors, law) && TableKeyed(t, anchors, law)
  }

  lemma {:induction false} InsertBatchRecorded<R>(t: Table<Stored<R>>, log: seq<Entry<R>>,
          rows: seq<(Key, Stored<R>)>, anchors: map<SessionUid, Instant>, law: Law)
    requires Recorded(t, log, anchors, law) && RowsKeyed(rows, anchors, law)
    ensures Recorded(InsertBatch(t, rows), log + Writes(rows), anchors, law)
    decreases rows
  {
    if rows == [] {
      assert log + Writes(rows) == log;
    } else {
      var e := Entry.Write(rows[0].0, rows[0].1);
      var t1 := Insert(t, rows[0].0, rows[0].1);
      ReplaySnoc(log, e);
      assert Stamped(law, rows[0].0, rows[0].1.time, anchors);
      assert EntryKeyed(e, anchors, law);
      InsertBatchRecorded(t1, log + [e], rows[1..], anchors, law);
      assert log + Writes(rows) == (log + [e]) + Writes(rows[1..]);
    }
  }

  lemma {:induction false} InsertBatchKeys<R>(t: Table<R>, rows: seq<(Key, R)>, k: Key)
    ensures k in InsertBatch(t, rows) <==> k in t || HasKey(rows, k)
    decreases rows
  {
    if rows != [] {
      InsertBatchKeys(Insert(t, rows[0].0, rows[0].1), rows[1..], k);
      HasKeyConcat([rows[0]], rows[1..], k);
      assert rows == [rows[0]] + rows[1..];
      assert HasKey([rows[0]], k) <==> rows[0].0 == k by {
        assert [rows[0]][0] == rows[0];
      }
    }
  }

  lemma {:induction false} DeleteRecorded<R>(t: Table<Stored<R>>, log: seq<Entry<R>>, uid: SessionUid, rewindTo: real,
          start: Option<Instant>, anchors: map<SessionUid, Instant>, law: Law)
    requires Recorded(t, log, anchors, law) && Exact(law.times) && rewindTo in law.times
    requires start == None || (uid in anchors && start == Some(anchors[uid]))
    ensures Recorded(DeleteAfter(t, uid, rewindTo, start), log + [Undo(uid, rewindTo, start)], anchors, law)
    ensures forall k :: k in DeleteAfter(t, uid, rewindTo, start) <==> k in t && !(k.uid == uid && t[k].time > rewindTo)
  {
    ReplaySnoc(log, Undo(uid, rewindTo, start));
    forall k | k in t
      ensures Condemned(k, t[k], uid, rewindTo, start) <==> k.uid == uid && t[k].time > rewindTo
    {
      assert Stamped(law, k, t[k].time, anchors);
      if k.uid == uid && t[k].time > rewindTo {
        PastByTimestamp(law, k, t[k].time, rewindTo, anchors);
      }
    }
  }

  // ---------------------------------------------------------------------------------------------
  // What the pending packets are known to be
  // ---------------------------------------------------------------------------------------------

  /** The sessions packets come from, and the law their times keep to. */
  datatype Origin = Origin(sessions: set<SessionUid>, law: Law)

  ghost predicate GoodPacket(uid: SessionUid, frame: FrameId, packet: CarPacket, o: Origin) {
    && uid in o.sessions && packet.sessionTime in o.law.times
    && o.law.fits(uid, frame, packet.sessionTime)
  }

  ghost predicate BufferSound(b: Buffer<CarPacket>, o: Origin) {
    Inv(b) && forall s: Slot :: PendingAt(b, s).Some? ==> GoodPacket(s.uid, s.frame, PendingAt(b, s).value, o)
  }

  ghost predicate GoodDeliveries(ds: seq<Delivery<CarPacket>>, o: Origin) {
    forall i, id :: 0 <= i < |ds| && id in ds[i].packets.vals
      ==> GoodPacket(ds[i].uid, ds[i].frame, ds[i].packets.vals[id], o)
  }

  lemma {:induction false} MovedSound(b: Buffer<CarPacket>, b': Buffer<CarPacket>, ds: seq<Delivery<CarPacket>>,
          o: Origin)
    requires BufferSound(b, o) && Inv(b') && Moved(b, b', ds)
    ensures BufferSound(b', o) && GoodDeliveries(ds, o)
  {
    forall s: Slot | PendingAt(b', s).Some?
      ensures GoodPacket(s.uid, s.frame, PendingAt(b', s).value, o)
    {
      assert PendingAt(b', s) == PendingAt(b, s);
    }
    forall i, id | 0 <= i < |ds| && id in ds[i].packets.vals
      ensures GoodPacket(ds[i].uid, ds[i].frame, ds[i].packets.vals[id], o)
    {
      assert DeliveredAt(ds, i, Slot(ds[i].uid, ds[i].frame, id)) == Some(ds[i].packets.vals[id]);
    }
  }

  lemma {:induction false} AddSound(b: Buffer<CarPacket>, slot: Slot, packet: CarPacket, o: Origin)
    requires BufferSound(b, o) && GoodPacket(slot.uid, slot.frame, packet, o)
    ensures BufferSound(AddPacket(b, slot, packet).buffer, o)
    ensures GoodDeliveries(AddPacket(b, slot, packet).delivered, o)
  {
    var mid := Complete(b, slot.uid, slot.frame);
    FrameBufferRuns.CompleteMoves(b, slot);
    MovedSound(b, mid.buffer, mid.delivered, o);
    StepInv(b, Add(slot, packet));
    var b' := AddPacket(b, slot, packet).buffer;
    forall s: Slot | PendingAt(b', s).Some?
      ensures GoodPacket(s.uid, s.frame, PendingAt(b', s).value, o)
    {
      FrameBufferRuns.AddAt(b, slot, packet, s);
    }
  }

  lemma {:induction false} EndSound(b: Buffer<CarPacket>, uid: SessionUid, o: Origin)
    requires BufferSound(b, o)
    ensures BufferSound(FlushSession(b, uid).buffer, o) && GoodDeliveries(FlushSession(b, uid).delivered, o)
  {
    FlushSessionMoves(b, uid);
    StepInv(b, Op<CarPacket>.End(uid));
    MovedSound(b, FlushSession(b, uid).buffer, FlushSession(b, uid).delivered, o);
  }

  lemma {:induction false} SweepSound(b: Buffer<CarPacket>, o: Origin)
    requires BufferSound(b, o)
    ensures BufferSound(SweepStale(b).buffer, o) && GoodDeliveries(SweepStale(b).delivered, o)
  {
    FlushAllMoves(b, Stale(b, b.frames.order));
    FlushAllInv(b, Stale(b, b.frames.order));
    MovedSound(b, SweepStale(b).buffer, SweepStale(b).delivered, o);
  }

  lemma {:induction false} DiscardSound(b: Buffer<CarPacket>, uid: SessionUid, o: Origin)
    requires BufferSound(b, o)
    ensures BufferSound(DiscardSession(b, uid), o)
    ensures forall s: Slot ::
              PendingAt(DiscardSession(b, uid), s) == if s.uid == uid then None else PendingAt(b, s)
  {
    DiscardInv(b, uid);
    forall s: Slot
      ensures PendingAt(DiscardSession(b, uid), s) == if s.uid == uid then None else PendingAt(b, s)
    {
    }
  }

  lemma {:induction false} WiderOrigin(b: Buffer<CarPacket>, o: Origin, o': Origin)
    requires BufferSound(b, o) && o'.law == o.law && o.sessions <= o'.sessions
    ensures BufferSound(b, o')
  {
    forall s: Slot | PendingAt(b, s).Some?
      ensures GoodPacket(s.uid, s.frame, PendingAt(b, s).value, o')
    {
      assert GoodPacket(s.uid, s.frame, PendingAt(b, s).value, o);
    }
  }

  // ---------------------------------------------------------------------------------------------
  // A flushed frame
  // ---------------------------------------------------------------------------------------------

  ghost predicate TablesSound(w: World, law: Law) {
    && Recorded(w.db.frames, w.frameLog, w.db.anchors, law)
    && Recorded(w.db.damage, w.damageLog, w.db.anchors, law)
    && w.db.damage.Keys <= w.db.frames.Keys
  }

  /** The keys a tick's rows get are stamped as the law says, whoever drives. */
  ghost predicate StampsTick(law: Law, t: Tick, anchors: map<SessionUid, Instant>) {
    forall user: UserId :: Stamped(law, Key(Timestamp(t), t.uid, user, t.frame), t.time, anchors)
  }

  lemma {:induction false} TickRowsKeyed(t: Tick, packets: Packets<CarPacket>, anchors: map<SessionUid, Instant>,
          law: Law)
    requires StampsTick(law, t, anchors)
    ensures RowsKeyed(WithGaps(RowsFor(t, packets, Cars())), anchors, law)
    ensures RowsKeyed(DamageFor(t, packets, Cars()), anchors, law)
  {
    var raw := RowsFor(t, packets, Cars());
    RowsOfTick(t, packets, Cars());
    forall i | 0 <= i < |raw|
      ensures Stamped(law, WithGaps(raw)[i].0, WithGaps(raw)[i].1.time, anchors)
    {
      assert WithGaps(raw)[i].0 == raw[i].0 && WithGaps(raw)[i].1.time == raw[i].1.time;
      assert raw[i].0 == Key(Timestamp(t), t.uid, raw[i].0.user, t.frame);
    }
    var damage := DamageFor(t, packets, Cars());
    forall i | 0 <= i < |damage|
      ensures Stamped(law, damage[i].0, damage[i].1.time, anchors)
    {
      assert damage[i].0 == Key(Timestamp(t), t.uid, damage[i].0.user, t.frame);
    }
  }

  lemma {:induction false} GapsKeepKeys(rows: seq<(Key, Stored<FrameRow>)>, k: Key)
    ensures HasKey(WithGaps(rows), k) <==> HasKey(rows, k)
  {
    assert forall i :: 0 <= i < |rows| ==> WithGaps(rows)[i].0 == rows[i].0;
    if HasKey(rows, k) {
      var i :| 0 <= i < |rows| && rows[i].0 == k;
      assert WithGaps(rows)[i].0 == k;
    }
  }

  lemma {:induction false} DamageStaysWithin<R, S>(frames: Table<R>, damage: Table<S>, rows: seq<(Key, R)>,
          extra: seq<(Key, S)>)
    requires damage.Keys <= frames.Keys && forall k :: HasKey(extra, k) ==> HasKey(rows, k)
    ensures InsertBatch(damage, extra).Keys <= InsertBatch(frames, rows).Keys
  {
    forall k | k in InsertBatch(damage, extra)
      ensures k in InsertBatch(frames, rows)
    {
      InsertBatchKeys(damage, extra, k);
      InsertBatchKeys(frames, rows, k);
    }
  }

  lemma {:induction false} WriteTickSound(w: World, t: Tick, packets: Packets<CarPacket>, law: Law)
    requires TablesSound(w, law) && StampsTick(law, t, w.db.anchors)
    ensures TablesSound(WriteTick(w, t, packets), law)
  {
    TickRowsKeyed(t, packets, w.db.anchors, law);
    InsertBatchRecorded(w.db.frames, w.frameLog, WithGaps(RowsFor(t, packets, Cars())), w.db.anchors, law);
    InsertBatchRecorded(w.db.damage, w.damageLog, DamageFor(t, packets, Cars()), w.db.anchors, law);
    forall k | HasKey(DamageFor(t, packets, Cars()), k)
      ensures HasKey(WithGaps(RowsFor(t, packets, Cars())), k)
    {
      DamageRowsHaveFrameRows(t, packets, Cars(), k);
      GapsKeepKeys(RowsFor(t, packets, Cars()), k);
    }
    DamageStaysWithin(w.db.frames, w.db.damage, WithGaps(RowsFor(t, packets, Cars())), DamageFor(t, packets, Cars()));
  }

  datatype Tables = Tables(db: Database, frameLog: seq<Entry<FrameRow>>, damageLog: seq<Entry<Cell>>)

  ghost function TablesOf(w: World): Tables {
    Tables(w.db, w.frameLog, w.damageLog)
  }

  /** The race gate is open for the frame, and a packet besides damage and telemetry 2 is there. */
  predicate Writing(p: Process, uid: SessionUid, users: UserMap, packets: Packets<CarPacket>) {
    Combined(packets) && (OnRacingLap(users, packets) || Lookup(p.raceStarted.vals, uid).GetOr(true))
  }

  /** A frame that is not skipped touches the tables, the race flag and the lap cache, nothing else. */
  lemma {:induction false} DeliverTickShape(w: World, t: Tick, packets: Packets<CarPacket>)
    ensures var w' := DeliverTick(w, t, packets);
            && w'.process.caches == w.process.caches && w'.process.buffer == w.process.buffer
            && TablesOf(w') == if Writing(w.process, t.uid, t.users, packets) then TablesOf(WriteTick(w, t, packets))
                else TablesOf(w)
  {
  }

  lemma {:induction false} SameTables(v: World, w: World, law: Law)
    requires TablesSound(v, law) && TablesOf(w) == TablesOf(v)
    ensures TablesSound(w, law)
  {
  }

  // ---------------------------------------------------------------------------------------------
  // Whole runs
  // ---------------------------------------------------------------------------------------------

  lemma {:induction false} RunSnoc(inputs: seq<Input>, last: Input)
    ensures Run(inputs + [last]) == Listen(Run(inputs), last)
  {
    assert (inputs + [last])[..|inputs|] == inputs;
  }

  ghost predicate PacketTimes(packet: Packet, times: iset<real>) {
    match packet
    case Flashback(_, rewindTo) => rewindTo in times
    case CarData(_, data) => data.sessionTime in times
    case _ => true
  }

  /** The sessions announced since the listener process last started. */
  ghost function Announced(inputs: seq<Input>): set<SessionUid> {
    if inputs == [] then {}
    else
      var last := inputs[|inputs| - 1];
      if last.Restart? then {}
      else Announced(inputs[..|inputs| - 1]) + if last.packet.SessionInfo? then {last.packet.uid} else {}
  }

  /** No process of the run sees more sessions than its anchor cache holds. */
  ghost predicate FewSessions(inputs: seq<Input>) {
    |Announced(inputs)| <= 200 && (inputs != [] ==> FewSessions(inputs[..|inputs| - 1]))
  }

  ghost predicate TimesWithin(inputs: seq<Input>, times: iset<real>) {
    forall i :: 0 <= i < |inputs| && inputs[i].Receive? ==> PacketTimes(inputs[i].packet, times)
  }

  // ---------------------------------------------------------------------------------------------
  // Redelivery
  // ---------------------------------------------------------------------------------------------

  /** The delivery writes rows. */
  predicate Stores(p: Process, d: Delivery<CarPacket>) {
    !Skipped(p, d) && Writing(p, d.uid, p.userMaps.vals[d.uid], d.packets)
  }

  /** What a storing delivery leaves in the tables. */
  lemma {:induction false} StoredDelivery(w: World, d: Delivery<CarPacket>, now: Instant)
    requires Stores(w.process, d)
    ensures Deliver(w, d, now).db == WriteTick(w, TickOf(w.process, d, now), d.packets).db
  {
    DeliverTickShape(w, TickOf(w.process, d, now), d.packets);
    assert TablesOf(Deliver(w, d, now)).db == WriteTick(w, TickOf(w.process, d, now), d.packets).db;
  }

  /** The rows and damage rows of a tick are in the tables. */
  ghost predicate IsStored(db: Database, t: Tick, packets: Packets<CarPacket>) {
    && (forall k :: HasKey(RowsFor(t, packets, Cars()), k) ==> k in db.frames)
    && (forall k :: HasKey(DamageFor(t, packets, Cars()), k) ==> k in db.damage)
  }

  /**
   The frame of an earlier delivery, handed over again with the same roster by a process that has, or has
   forgotten, its anchor.
   */
  ghost predicate Again(earlier: Process, later: Process, d: Delivery<CarPacket>, now: Instant, again: Instant) {
    && Stores(earlier, d) && Stores(later, d)
    && d.uid in earlier.caches.starts.vals
    && (d.uid in later.caches.starts.vals ==> later.caches.starts.vals[d.uid] == earlier.caches.starts.vals[d.uid])
    && TickOf(later, d, again).users == TickOf(earlier, d, now).users
    && TickOf(later, d, again).restricted == TickOf(earlier, d, now).restricted
  }

  /** A delivery stores its rows, whatever was there before. */
  lemma {:induction false} DeliveryIsStored(w: World, d: Delivery<CarPacket>, now: Instant)
    requires Stores(w.process, d)
    ensures IsStored(Deliver(w, d, now).db, TickOf(w.process, d, now), d.packets)
  {
    var t := TickOf(w.process, d, now);
    StoredDelivery(w, d, now);
    forall k | HasKey(RowsFor(t, d.packets, Cars()), k)
      ensures k in WriteTick(w, t, d.packets).db.frames
    {
      GapsKeepKeys(RowsFor(t, d.packets, Cars()), k);
      InsertBatchKeys(w.db.frames, WithGaps(RowsFor(t, d.packets, Cars())), k);
    }
    forall k | HasKey(DamageFor(t, d.packets, Cars()), k)
      ensures k in WriteTick(w, t, d.packets).db.damage
    {
      InsertBatchKeys(w.db.damage, DamageFor(t, d.packets, Cars()), k);
    }
  }

  lemma {:induction false} SameTickSameRows(t: Tick, t': Tick, packets: Packets<CarPacket>, cars: seq<Car>)
    requires t' == t.(now := t'.now) && t.start.Some?
    ensures RowsFor(t', packets, cars) == RowsFor(t, packets, cars)
    ensures DamageFor(t', packets, cars) == DamageFor(t, packets, cars)
    decreases cars
  {
    if cars != [] {
      SameTickSameRows(t, t', packets, cars[1..]);
    }
  }

  /**
   A frame delivered again changes neither table, at whatever later time and even in another process, as
   long as its own rows are still stored and the anchor is at hand.
   */
  lemma {:induction false} RedeliveredFrameChangesNothing(earlier: Process, later: World, d: Delivery<CarPacket>,
          now: Instant, again: Instant)
    requires Again(earlier, later.process, d, now, again) && d.uid in later.process.caches.starts.vals
    requires IsStored(later.db, TickOf(earlier, d, now), d.packets)
    ensures Deliver(later, d, again).db == later.db
  {
    var t, t' := TickOf(earlier, d, now), TickOf(later.process, d, again);
    StoredDelivery(later, d, again);
    SameTickSameRows(t, t', d.packets, Cars());
    var rows, damage := WithGaps(RowsFor(t, d.packets, Cars())), DamageFor(t, d.packets, Cars());
    forall i | 0 <= i < |rows|
      ensures rows[i].0 in later.db.frames
    {
      assert HasKey(rows, rows[i].0);
      GapsKeepKeys(RowsFor(t, d.packets, Cars()), rows[i].0);
    }
    forall i | 0 <= i < |damage|
      ensures damage[i].0 in later.db.damage
    {
      assert HasKey(damage, damage[i].0);
    }
    RedeliveryChangesNothing(later.db.frames, rows);
    RedeliveryChangesNothing(later.db.damage, damage);
  }

  lemma {:induction false} RowsUseTheClock(t: Tick, packets: Packets<CarPacket>, cars: seq<Car>)
    requires t.start == None
    ensures forall i :: 0 <= i < |RowsFor(t, packets, cars)| ==> RowsFor(t, packets, cars)[i].0.timestamp == t.now
    decreases cars
  {
    if cars != [] {
      RowsUseTheClock(t, packets, cars[1..]);
    }
  }

  lemma {:induction false} SameRosterSameCount(t: Tick, t': Tick, packets: Packets<CarPacket>, cars: seq<Car>)
    requires t'.users == t.users
    ensures |RowsFor(t', packets, cars)| == |RowsFor(t, packets, cars)|
    decreases cars
  {
    if cars != [] {
      SameRosterSameCount(t, t', packets, cars[1..]);
    }
  }

  /** Without the anchor the frame's rows get keys at the new instant and are stored beside the old ones. */
  lemma {:induction false} ForgottenAnchorStoresAgain(earlier: Process, later: World, d: Delivery<CarPacket>,
          now: Instant, again: Instant)
    requires Again(earlier, later.process, d, now, again) && d.uid !in later.process.caches.starts.vals
    requires RowsFor(TickOf(earlier, d, now), d.packets, Cars()) != []
    requires forall k :: k in later.db.frames ==> k.timestamp != again
    ensures later.db.frames.Keys < Deliver(later, d, again).db.frames.Keys
  {
    var t := TickOf(later.process, d, again);
    var rows := RowsFor(t, d.packets, Cars());
    SameRosterSameCount(TickOf(earlier, d, now), t, d.packets, Cars());
    StoredDelivery(later, d, again);
    RowsUseTheClock(t, d.packets, Cars());
    assert HasKey(rows, rows[0].0);
    GapsKeepKeys(rows, rows[0].0);
    forall k
      ensures k in InsertBatch(later.db.frames, WithGaps(rows)) <==> k in later.db.frames || HasKey(WithGaps(rows), k)
    {
      InsertBatchKeys(later.db.frames, WithGaps(rows), k);
    }
    assert rows[0].0 !in later.db.frames;
  }

  /**
   A frame whose rows are still stored, delivered again at an instant no stored row carries, changes nothing
   exactly when the process still has the session's anchor.
   */
  lemma {:induction false} RedeliveryChangesNothingExactlyWhen(earlier: Process, later: World, d: Delivery<CarPacket>,
          now: Instant, again: Instant)
    requires Again(earlier, later.process, d, now, again)
    requires IsStored(later.db, TickOf(earlier, d, now), d.packets)
    requires RowsFor(TickOf(earlier, d, now), d.packets, Cars()) != []
    requires forall k :: k in later.db.frames ==> k.timestamp != again
    ensures Deliver(later, d, again).db == later.db <==> d.uid in later.process.caches.starts.vals
  {
    if d.uid in later.process.caches.starts.vals {
      RedeliveredFrameChangesNothing(earlier, later, d, now, again);
    } else {
      ForgottenAnchorStoresAgain(earlier, later, d, now, again);
    }
  }

  // ---------------------------------------------------------------------------------------------
  // Anchors, however many sessions there are
  // ---------------------------------------------------------------------------------------------

  ghost predicate StartsStored(w: World) {
    forall u :: u in w.process.caches.starts.vals
        ==> u in w.db.anchors && w.process.caches.starts.vals[u] == w.db.anchors[u]
  }

  lemma {:induction false} DeliverAllKeepsAnchors(w: World, ds: seq<Delivery<CarPacket>>, now: Instant)
    ensures DeliverAll(w, ds, now).process.caches == w.process.caches
    ensures DeliverAll(w, ds, now).db.anchors == w.db.anchors
    decreases ds
  {
    if ds != [] {
      DeliverAllKeepsAnchors(Deliver(w, ds[0], now), ds[1..], now);
    }
  }

  lemma {:induction false} SweepKeepsAnchors(w: World, now: Instant, clock: real)
    ensures PeriodicSweep(w, now, clock).process.caches == w.process.caches
    ensures PeriodicSweep(w, now, clock).db.anchors == w.db.anchors
  {
    var o := SweepStale(w.process.buffer);
    DeliverAllKeepsAnchors(w.(process := w.process.(lastFlush := clock, buffer := o.buffer)), o.delivered, now);
  }

  lemma {:induction false} CarDataKeepsAnchors(w: World, slot: Slot, data: CarPacket, now: Instant, clock: real)
    ensures HandleCarData(w, slot, data, now, clock).process.caches == w.process.caches
    ensures HandleCarData(w, slot, data, now, clock).db.anchors == w.db.anchors
  {
    var o := AddPacket(w.process.buffer, slot, data);
    DeliverAllKeepsAnchors(w.(process := w.process.(buffer := o.buffer)), o.delivered, now);
    SweepKeepsAnchors(Buffered(w, o, now), now, clock);
  }

  /** Only a Session packet of a collected type touches the session caches or the stored anchors. */
  lemma {:induction false} OnlySessionsAnchor(w: World, packet: Packet, now: Instant, clock: real)
    ensures var w' := Handle(w, packet, now, clock);
            (w'.process.caches == w.process.caches && w'.db.anchors == w.db.anchors)
            || (packet.SessionInfo? && w' == HandleSession(w, packet.uid, packet.sessionType, packet.time, now))
  {
    match packet
    case SessionEnd(uid) =>
      var o := FlushSession(w.process.buffer, uid);
      DeliverAllKeepsAnchors(w.(process := w.process.(buffer := o.buffer)), o.delivered, now);
    case CarData(slot, data) => CarDataKeepsAnchors(w, slot, data, now, clock);
    case _ =>
  }

  lemma {:induction false} SessionStartsStored(w: World, uid: SessionUid, sessionType: nat, time: real, now: Instant)
    requires StartsStored(w)
    ensures StartsStored(HandleSession(w, uid, sessionType, time, now))
  {
  }

  ghost predicate Anchored(w: World, before: map<SessionUid, set<SessionUid>>) {
    Shape(w.process.caches) && AllCovered(w.process.caches, before) && StartsStored(w)
  }

  lemma {:induction false} HandleAnchored(w: World, packet: Packet, now: Instant, clock: real,
          before: map<SessionUid, set<SessionUid>>)
    returns (before': map<SessionUid, set<SessionUid>>)
    requires Anchored(w, before)
    ensures Anchored(Handle(w, packet, now, clock), before')
  {
    var w' := Handle(w, packet, now, clock);
    OnlySessionsAnchor(w, packet, now, clock);
    if w'.process.caches == w.process.caches && w'.db.anchors == w.db.anchors {
      before' := before;
    } else {
      SessionStartsStored(w, packet.uid, packet.sessionType, packet.time, now);
      before' := CoveredStep(w.process.caches, packet.uid,
          ReadBack(w'.db.anchors, packet.uid, now - Micros(packet.time)), before);
    }
  }

  lemma {:induction false} RunAnchored(inputs: seq<Input>) returns (before: map<SessionUid, set<SessionUid>>)
    ensures Anchored(Run(inputs), before)
  {
    before := map[];
    if inputs != [] {
      var n := |inputs| - 1;
      var earlier := RunAnchored(inputs[..n]);
      match inputs[n]
      case Restart(_) =>
      case Receive(packet, now, clock) => before := HandleAnchored(Run(inputs[..n]), packet, now, clock, earlier);
    }
  }

  lemma {:induction false} KnownIsAnchored(w: World, before: map<SessionUid, set<SessionUid>>, u: SessionUid)
    requires Anchored(w, before) && u in w.process.caches.known
    ensures u in w.db.anchors && Lookup(w.process.caches.starts.vals, u) == Some(w.db.anchors[u])
  {
  }

  /**
   Over any run, with any number of sessions and restarts, a session the dispatcher lets packets
   through for has its stored anchor in the cache.
   */
  lemma {:induction false} KnownSessionsUseStoredAnchor(inputs: seq<Input>, u: SessionUid)
    requires u in Run(inputs).process.caches.known
    ensures u in Run(inputs).db.anchors
    ensures Lookup(Run(inputs).process.caches.starts.vals, u) == Some(Run(inputs).db.anchors[u])
  {
    var before := RunAnchored(inputs);
    KnownIsAnchored(Run(inputs), before, u);
  }

  lemma {:induction false} SessionKeepsAnchors(w: World, uid: SessionUid, sessionType: nat, time: real, now: Instant,
          u: SessionUid)
    requires u in w.db.anchors
    ensures Lookup(HandleSession(w, uid, sessionType, time, now).db.anchors, u) == Some(w.db.anchors[u])
  {
  }

  lemma {:induction false} ListenKeepsAnchors(w: World, input: Input, u: SessionUid)
    requires u in w.db.anchors
    ensures Lookup(Listen(w, input).db.anchors, u) == Some(w.db.anchors[u])
  {
    if input.Receive? {
      OnlySessionsAnchor(w, input.packet, input.now, input.clock);
      if input.packet.SessionInfo? {
        SessionKeepsAnchors(w, input.packet.uid, input.packet.sessionType, input.packet.time, input.now, u);
      }
    }
  }

  lemma {:induction false} LastKeepsAnchor(inputs: seq<Input>, u: SessionUid, anchor: Instant)
    requires inputs != [] && Lookup(Run(inputs[..|inputs| - 1]).db.anchors, u) == Some(anchor)
    ensures Lookup(Run(inputs).db.anchors, u) == Some(anchor)
  {
    ListenKeepsAnchors(Run(inputs[..|inputs| - 1]), inputs[|inputs| - 1], u);
  }

  /** A session's stored anchor never moves, whatever arrives and however often the listener restarts. */
  lemma {:induction false} AnchorsNeverMove(inputs: seq<Input>, n: nat, u: SessionUid)
    requires n <= |inputs| && u in Run(inputs[..n]).db.anchors
    ensures Lookup(Run(inputs).db.anchors, u) == Some(Run(inputs[..n]).db.anchors[u])
  {
    if n == |inputs| {
      assert inputs[..n] == inputs;
    } else {
      assert inputs[..|inputs| - 1][..n] == inputs[..n];
      AnchorsNeverMove(inputs[..|inputs| - 1], n, u);
      LastKeepsAnchor(inputs, u, Run(inputs[..n]).db.anchors[u]);
    }
  }

  /** Over a run, a frame handed over again finds the anchor it was first stored under, if it finds one. */
  lemma {:induction false} RunHasOneAnchor(inputs: seq<Input>, n: nat, u: SessionUid)
    requires n <= |inputs| && u in Run(inputs[..n]).process.caches.starts.vals
    requires u in Run(inputs).process.caches.starts.vals
    ensures Run(inputs).process.caches.starts.vals[u] == Run(inputs[..n]).process.caches.starts.vals[u]
  {
    var before := RunAnchored(inputs[..n]);
    var later := RunAnchored(inputs);
    AnchorsNeverMove(inputs, n, u);
  }

  ghost predicate SameRoster(p: Process, q: Process, uid: SessionUid) {
    && Lookup(p.userMaps.vals, uid) == Lookup(q.userMaps.vals, uid)
    && Lookup(p.restricted.vals, uid).GetOr({}) == Lookup(q.restricted.vals, uid).GetOr({})
  }

  /**
   Over any run: a frame delivered after `n` inputs and again at the end, by processes with the same roster
   for the session, while its rows are still stored, changes nothing exactly when the anchor is still cached.
   */
  lemma {:induction false} RunRedeliveryChangesNothingExactlyWhen(inputs: seq<Input>, n: nat, d: Delivery<CarPacket>,
          now: Instant, again: Instant)
    requires n <= |inputs| && Stores(Run(inputs[..n]).process, d) && Stores(Run(inputs).process, d)
    requires d.uid in Run(inputs[..n]).process.caches.starts.vals
    requires SameRoster(Run(inputs[..n]).process, Run(inputs).process, d.uid)
    requires IsStored(Run(inputs).db, TickOf(Run(inputs[..n]).process, d, now), d.packets)
    requires RowsFor(TickOf(Run(inputs[..n]).process, d, now), d.packets, Cars()) != []
    requires forall k :: k in Run(inputs).db.frames ==> k.timestamp != again
    ensures Deliver(Run(inputs), d, again).db == Run(inputs).db <==> d.uid in Run(inputs).process.caches.starts.vals
  {
    if d.uid in Run(inputs).process.caches.starts.vals {
      RunHasOneAnchor(inputs, n, d.uid);
    }
    RedeliveryChangesNothingExactlyWhen(Run(inputs[..n]).process, Run(inputs), d, now, again);
  }
}
