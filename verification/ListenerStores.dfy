/**
 Whole runs of the listener, with any number of sessions: what the frame tables hold is explained by what
 was written and undone, even for frames stamped with the wall clock because their session's anchor was
 forgotten, as long as that clock is not behind the frame's own instant.
 */
module ListenerStores {
  import opened Options
  import opened Recency
  import opened FrameBufferModel
  import FrameBufferRuns
  import opened FrameTables
  import opened AnchorCache
  import opened CarFrames
  import opened Listener
  import opened ListenerTables
  import opened ListenerRaces

  /** The frame is dropped, or its session's anchor is at hand: the wall clock is not used. */
  ghost predicate IsAnchored(p: Process, d: Delivery<CarPacket>) {
    Skipped(p, d) || d.uid in p.caches.starts.vals
  }

  ghost predicate AllAnchored(p: Process, ds: seq<Delivery<CarPacket>>) {
    forall i :: 0 <= i < |ds| ==> IsAnchored(p, ds[i])
  }

  /** No frame an input flushes falls back to the wall clock. */
  ghost predicate NoFallback(inputs: seq<Input>) {
    if inputs == [] then true
    else
      var earlier, last := inputs[..|inputs| - 1], inputs[|inputs| - 1];
      NoFallback(earlier) && AllAnchored(Run(earlier).process, Flushed(Run(earlier), last))
  }

  /** The anchor is at hand, or the wall clock has passed the frame's own instant: the stored anchor plus its time. */
  ghost predicate IsInTime(w: World, d: Delivery<CarPacket>, now: Instant) {
    || IsAnchored(w.process, d)
    || (d.uid in w.db.anchors ==> w.db.anchors[d.uid] + Micros(TickOf(w.process, d, now).time) <= now)
  }

  /** ... and the timestamp it gets stands for its session time. */
  ghost predicate IsDated(w: World, d: Delivery<CarPacket>, now: Instant, dating: Dating) {
    && IsInTime(w, d, now)
    && (!Skipped(w.process, d) ==>
          var t := TickOf(w.process, d, now); t.time == dating(d.uid, d.frame, Timestamp(t)))
  }

  /** Nothing needs the wall clock, or what it stamps is dated as the law says. */
  ghost predicate Datable(law: Law, w: World, ds: seq<Delivery<CarPacket>>, now: Instant) {
    forall i :: 0 <= i < |ds|
      ==> if law.dating.None? then IsAnchored(w.process, ds[i]) else IsDated(w, ds[i], now, law.dating.value)
  }

  /** Pending packets are of sessions with a stored anchor. */
  ghost function PendingOrigin(w: World, law: Law): Origin {
    Origin(w.db.anchors.Keys, law)
  }

  /** Tables explained by their histories, cached anchors as stored, pending packets as the law says. */
  ghost predicate Traced(w: World, law: Law) {
    && TablesSound(w, law) && StartsStored(w)
    && BufferSound(w.process.buffer, PendingOrigin(w, law))
  }

  /** What flushing leaves alone. */
  ghost predicate SameSetting(v: World, w: World) {
    && w.process.caches == v.process.caches && w.process.userMaps == v.process.userMaps
    && w.process.buffer == v.process.buffer && w.process.lastFlush == v.process.lastFlush
    && w.db.anchors == v.db.anchors
  }

  lemma {:induction false} DeliverSetting(w: World, d: Delivery<CarPacket>, now: Instant)
    ensures SameSetting(w, Deliver(w, d, now))
  {
  }

  lemma {:induction false} SameDatable(law: Law, v: World, w: World, ds: seq<Delivery<CarPacket>>, now: Instant)
    requires w.process.caches == v.process.caches && w.process.userMaps == v.process.userMaps
    requires w.db.anchors == v.db.anchors && Datable(law, v, ds, now)
    ensures Datable(law, w, ds, now)
  {
    forall i | 0 <= i < |ds|
      ensures if law.dating.None? then IsAnchored(w.process, ds[i]) else IsDated(w, ds[i], now, law.dating.value)
    {
      if law.dating.Some? {
        SameDated(v, w, ds[i], now, law.dating.value);
      }
    }
  }

  lemma {:induction false} SameDated(v: World, w: World, d: Delivery<CarPacket>, now: Instant, dating: Dating)
    requires w.process.caches == v.process.caches && w.process.userMaps == v.process.userMaps
    requires w.db.anchors == v.db.anchors && IsDated(v, d, now, dating)
    ensures IsDated(w, d, now, dating)
  {
  }

  lemma {:induction false} SplitDatable(law: Law, w: World, a: seq<Delivery<CarPacket>>, b: seq<Delivery<CarPacket>>,
          now: Instant)
    requires Datable(law, w, a + b, now)
    ensures Datable(law, w, a, now) && Datable(law, w, b, now)
  {
    assert forall i :: 0 <= i < |a| ==> (a + b)[i] == a[i];
    assert forall i :: 0 <= i < |b| ==> (a + b)[|a| + i] == b[i];
  }

  /** The anchor when it is cached, else the wall clock: either way the law is kept. */
  lemma {:induction false} DeliveryIsStamped(w: World, d: Delivery<CarPacket>, now: Instant, law: Law)
    requires StartsStored(w) && !Skipped(w.process, d)
    requires Datable(law, w, [d], now) && GoodDeliveries([d], PendingOrigin(w, law))
    ensures StampsTick(law, TickOf(w.process, d, now), w.db.anchors)
  {
    assert [d][0] == d;
    assert GoodPacket(d.uid, d.frame, d.packets.vals[d.packets.order[0]], PendingOrigin(w, law));
  }

  lemma {:induction false} DeliverTables(w: World, d: Delivery<CarPacket>, now: Instant, law: Law)
    requires TablesSound(w, law) && StartsStored(w)
    requires Datable(law, w, [d], now) && GoodDeliveries([d], PendingOrigin(w, law))
    ensures TablesSound(Deliver(w, d, now), law)
  {
    if !Skipped(w.process, d) {
      var t := TickOf(w.process, d, now);
      DeliveryIsStamped(w, d, now, law);
      DeliverTickShape(w, t, d.packets);
      if Writing(w.process, t.uid, t.users, d.packets) {
        WriteTickSound(w, t, d.packets, law);
        SameTables(WriteTick(w, t, d.packets), Deliver(w, d, now), law);
      } else {
        SameTables(w, Deliver(w, d, now), law);
      }
    }
  }

  lemma {:induction false} DeliverAllTraced(w: World, ds: seq<Delivery<CarPacket>>, now: Instant, law: Law)
    requires Traced(w, law) && Datable(law, w, ds, now) && GoodDeliveries(ds, PendingOrigin(w, law))
    ensures Traced(DeliverAll(w, ds, now), law)
    ensures SameSetting(w, DeliverAll(w, ds, now))
    decreases ds
  {
    if ds != [] {
      var w1 := Deliver(w, ds[0], now);
      assert ds == [ds[0]] + ds[1..];
      SplitDatable(law, w, [ds[0]], ds[1..], now);
      assert [ds[0]][0] == ds[0];
      DeliverTables(w, ds[0], now, law);
      DeliverSetting(w, ds[0], now);
      SameDatable(law, w, w1, ds[1..], now);
      assert forall i :: 0 <= i < |ds[1..]| ==> ds[1..][i] == ds[i + 1];
      DeliverAllTraced(w1, ds[1..], now, law);
    }
  }

  lemma {:induction false} BufferedTraced(w: World, o: Outcome<CarPacket>, now: Instant, law: Law)
    requires Traced(w, law) && BufferSound(o.buffer, PendingOrigin(w, law))
    requires Datable(law, w, o.delivered, now) && GoodDeliveries(o.delivered, PendingOrigin(w, law))
    ensures Traced(Buffered(w, o, now), law)
    ensures SameSetting(w.(process := w.process.(buffer := o.buffer)), Buffered(w, o, now))
  {
    var w0 := w.(process := w.process.(buffer := o.buffer));
    SameDatable(law, w, w0, o.delivered, now);
    DeliverAllTraced(w0, o.delivered, now, law);
  }

  lemma {:induction false} EndTraced(w: World, uid: SessionUid, now: Instant, law: Law)
    requires Traced(w, law) && Datable(law, w, FlushSession(w.process.buffer, uid).delivered, now)
    ensures Traced(Buffered(w, FlushSession(w.process.buffer, uid), now), law)
  {
    EndSound(w.process.buffer, uid, PendingOrigin(w, law));
    BufferedTraced(w, FlushSession(w.process.buffer, uid), now, law);
  }

  predicate SweepDue(p: Process, clock: real) {
    !((clock - p.lastFlush) * 1000.0 < FLUSH_INTERVAL_MS)
  }

  lemma {:induction false} SweepTraced(w: World, now: Instant, clock: real, law: Law)
    requires Traced(w, law)
    requires SweepDue(w.process, clock) ==> Datable(law, w, SweepStale(w.process.buffer).delivered, now)
    ensures Traced(PeriodicSweep(w, now, clock), law)
  {
    if SweepDue(w.process, clock) {
      var w0 := w.(process := w.process.(lastFlush := clock));
      SweepSound(w.process.buffer, PendingOrigin(w, law));
      SameDatable(law, w, w0, SweepStale(w.process.buffer).delivered, now);
      BufferedTraced(w0, SweepStale(w.process.buffer), now, law);
    }
  }

  lemma {:induction false} CarDataTraced(w: World, slot: Slot, data: CarPacket, now: Instant, clock: real, law: Law)
    requires Traced(w, law) && GoodPacket(slot.uid, slot.frame, data, PendingOrigin(w, law))
    requires Lookup(w.process.userMaps.vals, slot.uid).GetOr(map[]) != map[]
    requires var o := AddPacket(w.process.buffer, slot, data);
             var swept := if SweepDue(w.process, clock) then SweepStale(o.buffer).delivered else [];
             Datable(law, w, o.delivered + swept, now)
    ensures Traced(HandleCarData(w, slot, data, now, clock), law)
  {
    var o := AddPacket(w.process.buffer, slot, data);
    var swept := if SweepDue(w.process, clock) then SweepStale(o.buffer).delivered else [];
    SplitDatable(law, w, o.delivered, swept, now);
    AddSound(w.process.buffer, slot, data, PendingOrigin(w, law));
    BufferedTraced(w, o, now, law);
    var w1 := Buffered(w, o, now);
    SameDatable(law, w, w1, swept, now);
    SweepTraced(w1, now, clock, law);
  }

  /** The rows of the session past the rewind point, and no others, are gone. */
  ghost predicate RowsCut<R>(t: Table<Stored<R>>, t': Table<Stored<R>>, uid: SessionUid, rewindTo: real) {
    && (forall k :: k in t' <==> k in t && !(k.uid == uid && t[k].time > rewindTo))
    && (forall k :: k in t' ==> t'[k] == t[k])
  }

  /** Of the session everything past the rewind point is gone and nothing is pending; all else is as it was. */
  ghost predicate Cleared(w: World, w': World, uid: SessionUid, rewindTo: real) {
    && RowsCut(w.db.frames, w'.db.frames, uid, rewindTo)
    && RowsCut(w.db.damage, w'.db.damage, uid, rewindTo)
    && (forall s: Slot ::
          PendingAt(w'.process.buffer, s) == if s.uid == uid then None else PendingAt(w.process.buffer, s))
  }

  lemma {:induction false} DamageStaysWithinCut(frames: Table<Stored<FrameRow>>, damage: Table<Stored<Cell>>,
          frames': Table<Stored<FrameRow>>, damage': Table<Stored<Cell>>, uid: SessionUid, rewindTo: real,
          anchors: map<SessionUid, Instant>, law: Law)
    requires Exact(law.times) && TableKeyed(frames, anchors, law) && TableKeyed(damage, anchors, law)
    requires damage.Keys <= frames.Keys
    requires RowsCut(frames, frames', uid, rewindTo) && RowsCut(damage, damage', uid, rewindTo)
    ensures damage'.Keys <= frames'.Keys
  {
    forall k | k in damage
      ensures damage[k].time == frames[k].time
    {
      OneTimePerKey(law, k, damage[k].time, frames[k].time, anchors);
    }
  }

  lemma {:induction false} DeleteCuts<R>(t: Table<Stored<R>>, log: seq<Entry<R>>, uid: SessionUid, rewindTo: real,
          start: Option<Instant>, anchors: map<SessionUid, Instant>, law: Law)
    requires Recorded(t, log, anchors, law) && Exact(law.times) && rewindTo in law.times
    requires start == None || (uid in anchors && start == Some(anchors[uid]))
    ensures RowsCut(t, DeleteAfter(t, uid, rewindTo, start), uid, rewindTo)
    ensures Recorded(DeleteAfter(t, uid, rewindTo, start), log + [Undo(uid, rewindTo, start)], anchors, law)
  {
    DeleteRecorded(t, log, uid, rewindTo, start, anchors, law);
  }

  /** A flashback leaves nothing of what it undid, neither stored nor pending, and touches nothing else. */
  lemma {:induction false} FlashbackClears(w: World, uid: SessionUid, rewindTo: real, law: Law)
    requires Traced(w, law) && Exact(law.times) && rewindTo in law.times
    ensures Traced(HandleFlashback(w, uid, rewindTo), law)
    ensures Cleared(w, HandleFlashback(w, uid, rewindTo), uid, rewindTo)
  {
    var start, w' := Lookup(w.process.caches.starts.vals, uid), HandleFlashback(w, uid, rewindTo);
    DeleteCuts(w.db.frames, w.frameLog, uid, rewindTo, start, w.db.anchors, law);
    DeleteCuts(w.db.damage, w.damageLog, uid, rewindTo, start, w.db.anchors, law);
    DamageStaysWithinCut(w.db.frames, w.db.damage, w'.db.frames, w'.db.damage, uid, rewindTo, w.db.anchors, law);
    DiscardSound(w.process.buffer, uid, PendingOrigin(w, law));
  }

  lemma {:induction false} MoreAnchors<R>(t: Table<Stored<R>>, log: seq<Entry<R>>, anchors: map<SessionUid, Instant>,
          anchors': map<SessionUid, Instant>, law: Law)
    requires Recorded(t, log, anchors, law)
    requires forall u :: u in anchors ==> u in anchors' && anchors'[u] == anchors[u]
    ensures Recorded(t, log, anchors', law)
  {
    forall i | 0 <= i < |log|
      ensures EntryKeyed(log[i], anchors', law)
    {
      assert EntryKeyed(log[i], anchors, law);
    }
    forall k | k in t
      ensures Stamped(law, k, t[k].time, anchors')
    {
      assert Stamped(law, k, t[k].time, anchors);
    }
  }

  lemma {:induction false} SessionTraced(w: World, uid: SessionUid, sessionType: nat, time: real, now: Instant,
          law: Law)
    requires Traced(w, law)
    ensures Traced(HandleSession(w, uid, sessionType, time, now), law)
  {
    var w' := HandleSession(w, uid, sessionType, time, now);
    MoreAnchors(w.db.frames, w.frameLog, w.db.anchors, w'.db.anchors, law);
    MoreAnchors(w.db.damage, w.damageLog, w.db.anchors, w'.db.anchors, law);
    SessionStartsStored(w, uid, sessionType, time, now);
    WiderOrigin(w.process.buffer, PendingOrigin(w, law), PendingOrigin(w', law));
  }

  /** What an input's own times have to keep to. */
  ghost predicate Lawful(input: Input, law: Law) {
    input.Receive? ==>
      && PacketTimes(input.packet, law.times)
      && (input.packet.CarData?
          ==> law.fits(input.packet.slot.uid, input.packet.slot.frame, input.packet.packet.sessionTime))
  }

  lemma {:induction false} KnownTraced(w: World, input: Input, law: Law)
    requires input.Receive? && Traced(w, law) && Exact(law.times) && Lawful(input, law)
    requires input.packet.Uid() in w.db.anchors && Datable(law, w, Flushed(w, input), input.now)
    requires input.packet.Uid() !in w.process.excluded && input.packet.Uid() in w.process.caches.known
    requires !input.packet.SessionInfo?
    ensures Traced(Listen(w, input), law)
  {
    match input.packet
    case SessionEnd(uid) => EndTraced(w, uid, input.now, law);
    case Flashback(uid, rewindTo) => FlashbackClears(w, uid, rewindTo, law);
    case CarData(slot, data) =>
      if Lookup(w.process.userMaps.vals, slot.uid).GetOr(map[]) != map[] {
        CarDataTraced(w, slot, data, input.now, input.clock, law);
        ListenCarData(w, input);
      } else {
        ListenUnmapped(w, input);
      }
    case Participants(_, _, _) | LightsOut(_) | FormationLapOver(_) | Lobby(_) | Other(_) =>
      QuietTraced(w, input, law);
  }

  lemma {:induction false} QuietTraced(w: World, input: Input, law: Law)
    requires input.Receive? && Traced(w, law)
    requires !input.packet.SessionInfo? && !input.packet.SessionEnd? && !input.packet.Flashback?
        && !input.packet.CarData?
    ensures Traced(Listen(w, input), law)
  {
  }

  lemma {:induction false} ReceiveTraced(w: World, input: Input, law: Law)
    requires input.Receive? && Traced(w, law) && Exact(law.times) && Lawful(input, law)
    requires Datable(law, w, Flushed(w, input), input.now)
    requires input.packet.Uid() in w.process.caches.known ==> input.packet.Uid() in w.db.anchors
    ensures Traced(Listen(w, input), law)
  {
    if input.packet.Uid() in w.process.excluded
        || (!input.packet.SessionInfo? && input.packet.Uid() !in w.process.caches.known) {
      ListenIgnored(w, input);
    } else if input.packet.SessionInfo? {
      if input.packet.sessionType in EXCLUDED_SESSION_TYPES {
        ListenExcluded(w, input);
      } else {
        ListenSession(w, input);
        SessionTraced(w, input.packet.uid, input.packet.sessionType, input.packet.time, input.now, law);
      }
    } else {
      KnownTraced(w, input, law);
    }
  }

  // ---------------------------------------------------------------------------------------------
  // Whole runs
  // ---------------------------------------------------------------------------------------------

  ghost predicate AllLawful(inputs: seq<Input>, law: Law) {
    forall i :: 0 <= i < |inputs| ==> Lawful(inputs[i], law)
  }

  /** Each frame an input flushes is anchored, or dated as the law says. */
  ghost predicate AllDatable(inputs: seq<Input>, law: Law) {
    if inputs == [] then true
    else
      var earlier, last := inputs[..|inputs| - 1], inputs[|inputs| - 1];
      AllDatable(earlier, law) && (last.Receive? ==> Datable(law, Run(earlier), Flushed(Run(earlier), last), last.now))
  }

  function AnyFit(): (SessionUid, FrameId, real) -> bool {
    (_, _, _) => true
  }

  /** Every key is the stored anchor plus the session time. */
  ghost function AnchoredLaw(times: iset<real>): Law {
    Law(times, AnyFit(), None)
  }

  ghost predicate Governed(inputs: seq<Input>, law: Law) {
    Exact(law.times) && AllLawful(inputs, law) && AllDatable(inputs, law)
  }

  lemma {:induction false} RestartTraced(w: World, clock: real, law: Law)
    requires Traced(w, law)
    ensures Traced(Listen(w, Restart(clock)), law)
  {
  }

  lemma {:induction false} RunTraced(inputs: seq<Input>, law: Law)
    requires Governed(inputs, law)
    ensures Traced(Run(inputs), law)
  {
    if inputs != [] {
      var earlier, last := inputs[..|inputs| - 1], inputs[|inputs| - 1];
      RunTraced(earlier, law);
      if last.Restart? {
        RestartTraced(Run(earlier), last.clock, law);
      } else {
        if last.packet.Uid() in Run(earlier).process.caches.known {
          KnownSessionsUseStoredAnchor(earlier, last.packet.Uid());
        }
        assert Lawful(last, law);
        ReceiveTraced(Run(earlier), last, law);
      }
    }
  }

  /**
   What the tables hold: each key exactly the first row written for it since the last flashback that undid
   it, and every damage key is also a frame key.
   */
  ghost predicate FirstSinceUndone(w: World) {
    && w.db.frames == Replay(w.frameLog) && (forall k :: Explained(w.frameLog, k))
    && w.db.damage == Replay(w.damageLog) && (forall k :: Explained(w.damageLog, k))
    && w.db.damage.Keys <= w.db.frames.Keys
  }

  lemma {:induction false} GovernedRunsAreExplained(inputs: seq<Input>, law: Law)
    requires Governed(inputs, law)
    ensures FirstSinceUndone(Run(inputs)) && TableKeyed(Run(inputs).db.frames, Run(inputs).db.anchors, law)
  {
    var w := Run(inputs);
    RunTraced(inputs, law);
    TableIsFirstSinceUndone(w.frameLog, w.db.anchors, law);
    TableIsFirstSinceUndone(w.damageLog, w.db.anchors, law);
  }

  /**
   Every flushed frame has its session's anchor at hand or is flushed no earlier, by the wall clock, than at its own
   instant. And `dating` gives the session time of every frame flushed: none is flushed twice under one timestamp
   with different times.
   */
  ghost predicate FlushedInTime(inputs: seq<Input>, dating: Dating) {
    if inputs == [] then true
    else
      var earlier, last := inputs[..|inputs| - 1], inputs[|inputs| - 1];
      && FlushedInTime(earlier, dating)
      && forall i :: last.Receive? && 0 <= i < |Flushed(Run(earlier), last)|
           ==> IsDated(Run(earlier), Flushed(Run(earlier), last)[i], last.now, dating)
  }

  lemma {:induction false} InTimeIsDatable(inputs: seq<Input>, law: Law)
    requires law.dating.Some? && FlushedInTime(inputs, law.dating.value)
    ensures AllDatable(inputs, law)
  {
    if inputs != [] {
      InTimeIsDatable(inputs[..|inputs| - 1], law);
    }
  }

  lemma {:induction false} NoFallbackIsDatable(inputs: seq<Input>, law: Law)
    requires law.dating.None? && NoFallback(inputs)
    ensures AllDatable(inputs, law)
  {
    if inputs != [] {
      NoFallbackIsDatable(inputs[..|inputs| - 1], law);
    }
  }

  /**
   Over any run, with any number of sessions, restarts, redeliveries and flashbacks, whatever the caches
   forget, while no frame is stamped by a wall clock that is behind its own instant: each key of either frame
   table holds exactly the first row written for it since the last flashback that undid it, and every damage key
   is also a frame key.
   */
  lemma {:induction false} StoredFramesWhateverIsForgotten(inputs: seq<Input>, times: iset<real>, dating: Dating)
    requires Exact(times) && TimesWithin(inputs, times) && FlushedInTime(inputs, dating)
    ensures FirstSinceUndone(Run(inputs))
  {
    var law := Law(times, AnyFit(), Some(dating));
    InTimeIsDatable(inputs, law);
    GovernedRunsAreExplained(inputs, law);
  }

  /**
   The same whatever the clocks do, over any run in which no flushed frame falls back to the wall clock; every
   key is then the stored anchor plus the session time.
   */
  lemma {:induction false} StoredFramesUnlessFallback(inputs: seq<Input>, times: iset<real>)
    requires Exact(times) && TimesWithin(inputs, times) && NoFallback(inputs)
    ensures FirstSinceUndone(Run(inputs))
    ensures TableKeyed(Run(inputs).db.frames, Run(inputs).db.anchors, AnchoredLaw(times))
  {
    NoFallbackIsDatable(inputs, AnchoredLaw(times));
    GovernedRunsAreExplained(inputs, AnchoredLaw(times));
  }

  // ---------------------------------------------------------------------------------------------
  // When frames are flushed in time
  // ---------------------------------------------------------------------------------------------

  /** What an input flushes comes from the buffer and the packet it adds. */
  lemma {:induction false} FlushedGood(w: World, input: Input, o: Origin)
    requires BufferSound(w.process.buffer, o)
    requires (input.Receive? && input.packet.CarData? && input.packet.Uid() in w.process.caches.known
              ==> GoodPacket(input.packet.slot.uid, input.packet.slot.frame, input.packet.packet, o))
    ensures GoodDeliveries(Flushed(w, input), o)
  {
    var b := w.process.buffer;
    if input.Receive? && input.packet.Uid() !in w.process.excluded && input.packet.Uid() in w.process.caches.known {
      if input.packet.SessionEnd? {
        EndSound(b, input.packet.uid, o);
      } else if input.packet.CarData? {
        AddedGood(b, input.packet.slot, input.packet.packet, o);
      }
    }
  }

  lemma {:induction false} AddedGood(b: Buffer<CarPacket>, slot: Slot, data: CarPacket, o: Origin)
    requires BufferSound(b, o) && GoodPacket(slot.uid, slot.frame, data, o)
    ensures var added := AddPacket(b, slot, data);
            && GoodDeliveries(added.delivered + [], o)
            && GoodDeliveries(added.delivered + SweepStale(added.buffer).delivered, o)
  {
    AddSound(b, slot, data, o);
    SweepSound(AddPacket(b, slot, data).buffer, o);
  }

  lemma {:induction false} RunFlushesGood(inputs: seq<Input>, last: Input, law: Law)
    requires Governed(inputs, law) && Lawful(last, law)
    ensures GoodDeliveries(Flushed(Run(inputs), last), PendingOrigin(Run(inputs), law))
  {
    RunTraced(inputs, law);
    if last.Receive? && last.packet.Uid() in Run(inputs).process.caches.known {
      KnownSessionsUseStoredAnchor(inputs, last.packet.Uid());
    }
    FlushedGood(Run(inputs), last, PendingOrigin(Run(inputs), law));
  }

  /** All packets of a frame carry the same session time, and so do those that come for it again. */
  ghost predicate OneTimePerFrame(inputs: seq<Input>, frameTime: (SessionUid, FrameId) -> real) {
    forall i :: 0 <= i < |inputs| && inputs[i].Receive? && inputs[i].packet.CarData?
      ==> var p := inputs[i].packet; p.packet.sessionTime == frameTime(p.slot.uid, p.slot.frame)
  }

  /** No frame is stamped by a wall clock that is behind the frame's own instant. */
  ghost predicate FallbacksInTime(inputs: seq<Input>) {
    if inputs == [] then true
    else
      var earlier, last := inputs[..|inputs| - 1], inputs[|inputs| - 1];
      && FallbacksInTime(earlier)
      && forall i :: last.Receive? && 0 <= i < |Flushed(Run(earlier), last)|
           ==> IsInTime(Run(earlier), Flushed(Run(earlier), last)[i], last.now)
  }

  function ByFrame(frameTime: (SessionUid, FrameId) -> real): Dating {
    (uid: SessionUid, frame: FrameId, _: Instant) => frameTime(uid, frame)
  }

  function FrameLaw(times: iset<real>, frameTime: (SessionUid, FrameId) -> real): Law {
    var fits := (uid: SessionUid, frame: FrameId, time: real) => time == frameTime(uid, frame);
    Law(times, fits, Some(ByFrame(frameTime)))
  }

  lemma {:induction false} GoodIsDated(w: World, ds: seq<Delivery<CarPacket>>, now: Instant, times: iset<real>,
          frameTime: (SessionUid, FrameId) -> real)
    requires GoodDeliveries(ds, PendingOrigin(w, FrameLaw(times, frameTime)))
    requires forall i :: 0 <= i < |ds| ==> IsInTime(w, ds[i], now)
    ensures forall i :: 0 <= i < |ds| ==> IsDated(w, ds[i], now, ByFrame(frameTime))
  {
    forall i | 0 <= i < |ds|
      ensures IsDated(w, ds[i], now, ByFrame(frameTime))
    {
      var d := ds[i];
      if !Skipped(w.process, d) {
        var first := d.packets.vals[d.packets.order[0]];
        assert GoodPacket(d.uid, d.frame, first, PendingOrigin(w, FrameLaw(times, frameTime)));
      }
    }
  }

  /** With one session time per frame, only the frames that fall back have anything to keep to. */
  lemma {:induction false} FallbacksInTimeSuffice(inputs: seq<Input>, times: iset<real>,
          frameTime: (SessionUid, FrameId) -> real)
    requires Exact(times) && TimesWithin(inputs, times)
    requires OneTimePerFrame(inputs, frameTime) && FallbacksInTime(inputs)
    ensures FlushedInTime(inputs, ByFrame(frameTime))
  {
    if inputs != [] {
      var earlier, last := inputs[..|inputs| - 1], inputs[|inputs| - 1];
      var law := FrameLaw(times, frameTime);
      FallbacksInTimeSuffice(earlier, times, frameTime);
      if last.Receive? {
        InTimeIsDatable(earlier, law);
        forall i | 0 <= i < |inputs|
          ensures Lawful(inputs[i], law)
        {
          assert inputs[i].Receive? ==> PacketTimes(inputs[i].packet, times);
        }
        assert forall i :: 0 <= i < |earlier| ==> earlier[i] == inputs[i];
        RunFlushesGood(earlier, last, law);
        GoodIsDated(Run(earlier), Flushed(Run(earlier), last), last.now, times, frameTime);
      }
    }
  }

  /**
   So with one session time per frame the tables are as they should be over any run in which no frame is stamped
   by a wall clock that is behind the frame's own instant.
   */
  lemma {:induction false} StoredFramesWhileClocksKeepUp(inputs: seq<Input>, times: iset<real>,
          frameTime: (SessionUid, FrameId) -> real)
    requires Exact(times) && TimesWithin(inputs, times)
    requires OneTimePerFrame(inputs, frameTime) && FallbacksInTime(inputs)
    ensures FirstSinceUndone(Run(inputs))
  {
    FallbacksInTimeSuffice(inputs, times, frameTime);
    StoredFramesWhateverIsForgotten(inputs, times, ByFrame(frameTime));
  }

  /** The session time a timestamp of an anchored frame stands for. */
  ghost function ByAnchor(anchors: map<SessionUid, Instant>, times: iset<real>): Dating {
    (uid: SessionUid, _: FrameId, timestamp: Instant) => TimeAt(anchors, times, uid, timestamp)
  }

  ghost function TimeAt(anchors: map<SessionUid, Instant>, times: iset<real>, uid: SessionUid, timestamp: Instant)
      : real
  {
    if uid in anchors && exists t :: t in times && anchors[uid] + Micros(t) == timestamp
    then var t :| t in times && anchors[uid] + Micros(t) == timestamp; t
    else 0.0
  }

  /** `later` holds every anchor of `anchors`, unchanged. */
  ghost predicate Extends(anchors: map<SessionUid, Instant>, later: map<SessionUid, Instant>) {
    forall u :: u in anchors ==> u in later && later[u] == anchors[u]
  }

  lemma {:induction false} AnchoredIsDated(w: World, ds: seq<Delivery<CarPacket>>, now: Instant, times: iset<real>,
          later: map<SessionUid, Instant>)
    requires GoodDeliveries(ds, PendingOrigin(w, AnchoredLaw(times))) && Exact(times)
    requires StartsStored(w) && Extends(w.db.anchors, later) && AllAnchored(w.process, ds)
    ensures forall i :: 0 <= i < |ds| ==> IsDated(w, ds[i], now, ByAnchor(later, times))
  {
    forall i | 0 <= i < |ds|
      ensures IsDated(w, ds[i], now, ByAnchor(later, times))
    {
      var d := ds[i];
      if !Skipped(w.process, d) {
        assert GoodPacket(d.uid, d.frame, d.packets.vals[d.packets.order[0]], PendingOrigin(w, AnchoredLaw(times)));
        var t := TickOf(w.process, d, now);
        assert t.time in times && later[d.uid] + Micros(t.time) == Timestamp(t);
      }
    }
  }

  /** A run without fallbacks is a run in time. */
  lemma {:induction false} NoFallbackIsInTime(inputs: seq<Input>, times: iset<real>, later: map<SessionUid, Instant>)
    requires Exact(times) && TimesWithin(inputs, times) && NoFallback(inputs)
    requires Extends(Run(inputs).db.anchors, later)
    ensures FlushedInTime(inputs, ByAnchor(later, times))
  {
    if inputs != [] {
      var earlier, last := inputs[..|inputs| - 1], inputs[|inputs| - 1];
      forall u | u in Run(earlier).db.anchors
        ensures u in later && later[u] == Run(earlier).db.anchors[u]
      {
        LastKeepsAnchor(inputs, u, Run(earlier).db.anchors[u]);
      }
      NoFallbackIsInTime(earlier, times, later);
      if last.Receive? {
        NoFallbackIsDatable(earlier, AnchoredLaw(times));
        forall i | 0 <= i < |inputs|
          ensures Lawful(inputs[i], AnchoredLaw(times))
        {
          assert inputs[i].Receive? ==> PacketTimes(inputs[i].packet, times);
        }
        assert forall i :: 0 <= i < |earlier| ==> earlier[i] == inputs[i];
        RunTraced(earlier, AnchoredLaw(times));
        RunFlushesGood(earlier, last, AnchoredLaw(times));
        AnchoredIsDated(Run(earlier), Flushed(Run(earlier), last), last.now, times, later);
      }
    }
  }

  /**
   A flashback let in after any such run leaves nothing of what it undid, neither stored nor pending, and touches
   nothing else: all rows of its session past the rewind point go, under whatever timestamp they were stored.
   */
  lemma {:induction false} RunFlashbackClears(inputs: seq<Input>, times: iset<real>, dating: Dating, flashback: Input)
    requires Exact(times) && TimesWithin(inputs + [flashback], times) && FlushedInTime(inputs, dating)
    requires flashback.Receive? && flashback.packet.Flashback?
    requires var p := Run(inputs).process; flashback.packet.uid !in p.excluded && flashback.packet.uid in p.caches.known
    ensures Cleared(Run(inputs), Run(inputs + [flashback]), flashback.packet.uid, flashback.packet.rewindTo)
  {
    var law := Law(times, AnyFit(), Some(dating));
    var all := inputs + [flashback];
    assert all[..|inputs|] == inputs;
    assert all[|inputs|] == flashback && PacketTimes(all[|inputs|].packet, times);
    forall i | 0 <= i < |inputs|
      ensures Lawful(inputs[i], law)
    {
      assert all[i] == inputs[i];
      assert inputs[i].Receive? ==> PacketTimes(all[i].packet, times);
    }
    InTimeIsDatable(inputs, law);
    RunTraced(inputs, law);
    FlashbackClears(Run(inputs), flashback.packet.uid, flashback.packet.rewindTo, law);
    ListenFlashback(Run(inputs), flashback);
  }

  lemma {:induction false} ListenFlashback(w: World, input: Input)
    requires input.Receive? && input.packet.Flashback?
    requires input.packet.uid !in w.process.excluded && input.packet.uid in w.process.caches.known
    ensures Listen(w, input) == HandleFlashback(w, input.packet.uid, input.packet.rewindTo)
  {
  }

  /** What breaks when the wall clock is behind: a row past the rewind point survives exactly if its key is not. */
  lemma {:induction false} LateRowSurvivesExactlyWhen(w: World, uid: SessionUid, rewindTo: real, k: Key)
    requires uid in w.process.caches.starts.vals
    requires k in w.db.frames && k.uid == uid && w.db.frames[k].time > rewindTo
    ensures k in HandleFlashback(w, uid, rewindTo).db.frames
       <==> k.timestamp <= w.process.caches.starts.vals[uid] + Micros(rewindTo)
  {
  }

  lemma {:induction false} MicrosOfWhole(n: int)
    ensures Micros(n as real / 1000000.0) == n
  {
    assert n as real / 1000000.0 * 1000000.0 == n as real;
  }

  /**
   So being in time is what a stored row needs: some flashback to an earlier microsecond would miss it exactly if it
   was stamped before its own instant.
   */
  lemma {:induction false} MissedExactlyWhenLate(w: World, uid: SessionUid, k: Key)
    requires uid in w.process.caches.starts.vals && k in w.db.frames && k.uid == uid
    ensures (exists rewindTo ::
               && Micros(rewindTo) < Micros(w.db.frames[k].time)
               && k in HandleFlashback(w, uid, rewindTo).db.frames)
       <==> k.timestamp < w.process.caches.starts.vals[uid] + Micros(w.db.frames[k].time)
  {
    var start, time := w.process.caches.starts.vals[uid], w.db.frames[k].time;
    forall rewindTo | Micros(rewindTo) < Micros(time)
      ensures k in HandleFlashback(w, uid, rewindTo).db.frames <==> k.timestamp <= start + Micros(rewindTo)
    {
      if time <= rewindTo {
        MicrosMonotone(time, rewindTo);
      }
      LateRowSurvivesExactlyWhen(w, uid, rewindTo, k);
    }
    if k.timestamp < start + Micros(time) {
      var rewindTo := (k.timestamp - start) as real / 1000000.0;
      MicrosOfWhole(k.timestamp - start);
      assert k in HandleFlashback(w, uid, rewindTo).db.frames;
    }
  }

  // ---------------------------------------------------------------------------------------------
  // When nothing falls back
  // ---------------------------------------------------------------------------------------------

  /** Every session the process has let in has the stored anchor in its cache. */
  ghost predicate AnchorsSound(c: Caches, anchors: map<SessionUid, Instant>) {
    && WellFormed(c.starts)
    && (forall u :: u in c.starts.vals ==> u in anchors && c.starts.vals[u] == anchors[u])
    && Members(c.known) <= c.starts.vals.Keys
    && Members(c.seen) <= c.starts.vals.Keys
  }

  /** While the anchor cache has room: every session let in, and every pending packet's, is in it. */
  ghost predicate Roomy(w: World) {
    && AnchorsSound(w.process.caches, w.db.anchors)
    && BufferSound(w.process.buffer, AnyTime(w.process.caches.starts.vals.Keys))
  }

  lemma {:induction false} SessionAnchors(c: Caches, uid: SessionUid, start: Instant, anchors: map<SessionUid, Instant>)
    requires AnchorsSound(c, anchors) && |c.starts.vals.Keys + {uid}| <= ANCHORS
    ensures var stored := if uid in c.seen then anchors else InsertSession(anchors, uid, start);
            AnchorsSound(SessionPacket(c, uid, ReadBack(stored, uid, start)), stored)
  {
    TouchMembers(c.known, KNOWN_SESSIONS, uid);
    if uid in c.seen {
      assert uid in Members(c.seen);
    } else {
      TouchMembers(c.seen, SEEN_SESSIONS, uid);
      StartsGrow(c.starts, uid, ReadBack(InsertSession(anchors, uid, start), uid, start));
    }
  }

  lemma {:induction false} SessionKeys(c: Caches, uid: SessionUid, anchor: Instant)
    requires WellFormed(c.starts) && Members(c.seen) <= c.starts.vals.Keys && |c.starts.vals.Keys + {uid}| <= ANCHORS
    ensures SessionPacket(c, uid, anchor).starts.vals.Keys == c.starts.vals.Keys + {uid}
  {
    if uid in c.seen {
      assert uid in Members(c.seen);
    } else {
      StartsGrow(c.starts, uid, anchor);
    }
  }

  lemma {:induction false} StartsGrow(starts: Dict<SessionUid, Instant>, uid: SessionUid, anchor: Instant)
    requires WellFormed(starts) && |starts.vals.Keys + {uid}| <= ANCHORS
    ensures SetItem(starts, ANCHORS, uid, anchor).vals == starts.vals[uid := anchor]
    ensures WellFormed(SetItem(starts, ANCHORS, uid, anchor))
  {
    MembersCount(starts.order);
    assert starts.vals.Keys + {uid} == if uid in starts.vals then starts.vals.Keys else starts.vals.Keys + {uid};
    assert uid !in starts.vals ==> |starts.vals.Keys + {uid}| == |starts.vals.Keys| + 1;
    if uid in starts.vals {
      assert starts.vals.Keys + {uid} == starts.vals.Keys;
    }
    SetItemValid(starts, ANCHORS, uid, anchor);
  }

  /** What a Session packet does to the anchors. */
  ghost predicate Admits(w: World, w': World, uid: SessionUid, start: Instant) {
    && w'.process.buffer == w.process.buffer
    && w'.db.anchors == (if uid in w.process.caches.seen then w.db.anchors else InsertSession(w.db.anchors, uid, start))
    && w'.process.caches == SessionPacket(w.process.caches, uid, ReadBack(w'.db.anchors, uid, start))
  }

  /** With room in the anchor cache, a Session packet only ever adds to it. */
  lemma {:induction false} AdmittedRoomy(w: World, w': World, uid: SessionUid, start: Instant)
    requires Roomy(w) && |w.process.caches.starts.vals.Keys + {uid}| <= ANCHORS
    requires Admits(w, w', uid, start)
    ensures Roomy(w') && w'.process.caches.starts.vals.Keys == w.process.caches.starts.vals.Keys + {uid}
  {
    var c := w.process.caches;
    assert AnchorsSound(w'.process.caches, w'.db.anchors) by {
      SessionAnchors(c, uid, start, w.db.anchors);
    }
    assert w'.process.caches.starts.vals.Keys == c.starts.vals.Keys + {uid} by {
      SessionKeys(c, uid, ReadBack(w'.db.anchors, uid, start));
    }
    WiderOrigin(w.process.buffer, AnyTime(c.starts.vals.Keys), AnyTime(w'.process.caches.starts.vals.Keys));
  }

  lemma {:induction false} SessionShape(w: World, uid: SessionUid, sessionType: nat, time: real, now: Instant)
    ensures Admits(w, HandleSession(w, uid, sessionType, time, now), uid, now - Micros(time))
  {
  }

  lemma {:induction false} SessionRoomy(w: World, uid: SessionUid, sessionType: nat, time: real, now: Instant)
    requires Roomy(w) && |w.process.caches.starts.vals.Keys + {uid}| <= ANCHORS
    ensures var w' := HandleSession(w, uid, sessionType, time, now);
            Roomy(w') && w'.process.caches.starts.vals.Keys == w.process.caches.starts.vals.Keys + {uid}
  {
    SessionShape(w, uid, sessionType, time, now);
    AdmittedRoomy(w, HandleSession(w, uid, sessionType, time, now), uid, now - Micros(time));
  }

  lemma {:induction false} DeliverAllSetting(w: World, ds: seq<Delivery<CarPacket>>, now: Instant)
    ensures SameSetting(w, DeliverAll(w, ds, now))
    decreases ds
  {
    if ds != [] {
      DeliverSetting(w, ds[0], now);
      DeliverAllSetting(Deliver(w, ds[0], now), ds[1..], now);
    }
  }

  lemma {:induction false} BufferedRoomy(w: World, o: Outcome<CarPacket>, now: Instant)
    requires Roomy(w) && BufferSound(o.buffer, AnyTime(w.process.caches.starts.vals.Keys))
    ensures Roomy(Buffered(w, o, now)) && Buffered(w, o, now).process.caches == w.process.caches
    ensures Buffered(w, o, now).process.lastFlush == w.process.lastFlush
    ensures Buffered(w, o, now).process.buffer == o.buffer
  {
    DeliverAllSetting(w.(process := w.process.(buffer := o.buffer)), o.delivered, now);
  }

  lemma {:induction false} SweepRoomy(w: World, now: Instant, clock: real)
    requires Roomy(w)
    ensures Roomy(PeriodicSweep(w, now, clock)) && PeriodicSweep(w, now, clock).process.caches == w.process.caches
  {
    if SweepDue(w.process, clock) {
      SweepSound(w.process.buffer, AnyTime(w.process.caches.starts.vals.Keys));
      BufferedRoomy(w.(process := w.process.(lastFlush := clock)), SweepStale(w.process.buffer), now);
    }
  }

  lemma {:induction false} EndRoomy(w: World, uid: SessionUid, now: Instant)
    requires Roomy(w)
    ensures var w' := Buffered(w, FlushSession(w.process.buffer, uid), now);
            Roomy(w') && w'.process.caches == w.process.caches
  {
    EndSound(w.process.buffer, uid, AnyTime(w.process.caches.starts.vals.Keys));
    BufferedRoomy(w, FlushSession(w.process.buffer, uid), now);
  }

  lemma {:induction false} CarDataRoomy(w: World, slot: Slot, data: CarPacket, now: Instant, clock: real)
    requires Roomy(w) && slot.uid in w.process.caches.known
    requires Lookup(w.process.userMaps.vals, slot.uid).GetOr(map[]) != map[]
    ensures var w' := HandleCarData(w, slot, data, now, clock);
            Roomy(w') && w'.process.caches == w.process.caches
  {
    var o := AddPacket(w.process.buffer, slot, data);
    assert slot.uid in Members(w.process.caches.known);
    AddSound(w.process.buffer, slot, data, AnyTime(w.process.caches.starts.vals.Keys));
    BufferedRoomy(w, o, now);
    SweepRoomy(Buffered(w, o, now), now, clock);
  }

  lemma {:induction false} QuietRoomy(w: World, input: Input)
    requires Roomy(w) && input.Receive?
    requires input.packet.Uid() !in w.process.excluded && input.packet.Uid() in w.process.caches.known
    requires !input.packet.SessionInfo? && !input.packet.SessionEnd? && !input.packet.CarData?
    ensures Roomy(Listen(w, input)) && Listen(w, input).process.caches == w.process.caches
  {
    if input.packet.Flashback? {
      DiscardSound(w.process.buffer, input.packet.uid, AnyTime(w.process.caches.starts.vals.Keys));
    }
  }

  lemma {:induction false} KnownRoomy(w: World, input: Input)
    requires Roomy(w) && input.Receive? && !input.packet.SessionInfo?
    requires input.packet.Uid() !in w.process.excluded && input.packet.Uid() in w.process.caches.known
    ensures Roomy(Listen(w, input)) && Listen(w, input).process.caches == w.process.caches
  {
    if input.packet.SessionEnd? {
      ListenEnd(w, input);
      EndRoomy(w, input.packet.uid, input.now);
    } else if !input.packet.CarData? {
      QuietRoomy(w, input);
    } else if Lookup(w.process.userMaps.vals, input.packet.slot.uid).GetOr(map[]) == map[] {
      ListenUnmapped(w, input);
    } else {
      ListenCarData(w, input);
      CarDataRoomy(w, input.packet.slot, input.packet.packet, input.now, input.clock);
    }
  }

  lemma {:induction false} ReceiveRoomy(w: World, input: Input)
    requires Roomy(w) && input.Receive?
    requires input.packet.SessionInfo? ==> |w.process.caches.starts.vals.Keys + {input.packet.uid}| <= ANCHORS
    ensures Roomy(Listen(w, input))
    ensures Listen(w, input).process.caches.starts.vals.Keys
         <= w.process.caches.starts.vals.Keys + if input.packet.SessionInfo? then {input.packet.uid} else {}
  {
    if input.packet.Uid() in w.process.excluded
        || (!input.packet.SessionInfo? && input.packet.Uid() !in w.process.caches.known) {
      ListenIgnored(w, input);
    } else if !input.packet.SessionInfo? {
      KnownRoomy(w, input);
    } else if input.packet.sessionType in EXCLUDED_SESSION_TYPES {
      ListenExcluded(w, input);
    } else {
      ListenSession(w, input);
      SessionRoomy(w, input.packet.uid, input.packet.sessionType, input.packet.time, input.now);
    }
  }

  lemma {:induction false} RestartRoomy(w: World, clock: real)
    ensures Roomy(Listen(w, Restart(clock))) && Listen(w, Restart(clock)).process.caches == EmptyCaches()
  {
  }

  lemma {:induction false} RunRoomy(inputs: seq<Input>)
    requires FewSessions(inputs)
    ensures Roomy(Run(inputs)) && Run(inputs).process.caches.starts.vals.Keys <= Announced(inputs)
  {
    if inputs != [] {
      var earlier, last := inputs[..|inputs| - 1], inputs[|inputs| - 1];
      RunRoomy(earlier);
      if last.Restart? {
        RestartRoomy(Run(earlier), last.clock);
      } else {
        if last.packet.SessionInfo? {
          SubsetCount(Run(earlier).process.caches.starts.vals.Keys + {last.packet.uid}, Announced(inputs));
        }
        ReceiveRoomy(Run(earlier), last);
      }
    }
  }

  lemma {:induction false} RoomyNeverFallsBack(w: World, input: Input)
    requires Roomy(w)
    ensures AllAnchored(w.process, Flushed(w, input))
  {
    var o := AnyTime(w.process.caches.starts.vals.Keys);
    if input.Receive? && input.packet.Uid() in w.process.caches.known {
      assert input.packet.Uid() in Members(w.process.caches.known);
    }
    FlushedGood(w, input, o);
    GoodAreAnchored(w.process, Flushed(w, input), o);
  }

  lemma {:induction false} GoodAreAnchored(p: Process, ds: seq<Delivery<CarPacket>>, o: Origin)
    requires o.sessions == p.caches.starts.vals.Keys && GoodDeliveries(ds, o)
    ensures AllAnchored(p, ds)
  {
    forall i | 0 <= i < |ds|
      ensures IsAnchored(p, ds[i])
    {
      if !Skipped(p, ds[i]) {
        assert GoodPacket(ds[i].uid, ds[i].frame, ds[i].packets.vals[ds[i].packets.order[0]], o);
      }
    }
  }

  /** While no process sees more sessions than its anchor cache holds, no frame falls back to the wall clock. */
  lemma {:induction false} FewSessionsNeverFallBack(inputs: seq<Input>)
    requires FewSessions(inputs)
    ensures NoFallback(inputs)
  {
    if inputs != [] {
      FewSessionsNeverFallBack(inputs[..|inputs| - 1]);
      RunRoomy(inputs[..|inputs| - 1]);
      RoomyNeverFallsBack(Run(inputs[..|inputs| - 1]), inputs[|inputs| - 1]);
    }
  }

  /** So the tables are as they should be over any run of at most 200 sessions per process, whatever the clocks do. */
  lemma {:induction false} StoredFramesOfFewSessions(inputs: seq<Input>, times: iset<real>)
    requires Exact(times) && TimesWithin(inputs, times) && FewSessions(inputs)
    ensures FirstSinceUndone(Run(inputs))
    ensures TableKeyed(Run(inputs).db.frames, Run(inputs).db.anchors, AnchoredLaw(times))
  {
    FewSessionsNeverFallBack(inputs);
    StoredFramesUnlessFallback(inputs, times);
  }
}
