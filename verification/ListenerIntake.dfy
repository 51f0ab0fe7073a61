/**
 What lets a session and its packets in, over any run: announcements, rosters, the signs that a race is under way,
 and what a car packet or a session's end does to the packets pending.
 */
module ListenerIntake {
  import opened Options
  import opened Recency
  import opened FrameBufferModel
  import opened FrameBufferRuns
  import opened FrameTables
  import opened AnchorCache
  import opened CarFrames
  import opened Listener
  import opened ListenerTables
  import opened ListenerRaces
  import opened ListenerStores
  import opened ListenerGates

  ghost predicate IsLetIn(p: Process, uid: SessionUid) {
    uid !in p.excluded && uid in p.caches.known
  }

  // ---------------------------------------------------------------------------------------------
  // Sessions
  // ---------------------------------------------------------------------------------------------

  /** A session of an unknown type, or a time trial. */
  predicate IsUncollected(sessionType: nat) {
    sessionType == 0 || sessionType == 18
  }

  predicate IsRace(sessionType: nat) {
    sessionType == 15 || sessionType == 16 || sessionType == 17 || sessionType == 100
  }

  ghost predicate IsAnnouncement(p: Process, input: Input) {
    && input.Receive? && input.packet.SessionInfo?
    && input.packet.uid !in p.excluded && !IsUncollected(input.packet.sessionType)
  }

  lemma {:induction false} SeenIsAnchored(w: World, before: map<SessionUid, set<SessionUid>>, uid: SessionUid)
    requires ListenerTables.Anchored(w, before) && uid in w.process.caches.seen
    ensures uid in w.db.anchors && Lookup(w.process.caches.starts.vals, uid) == Some(w.db.anchors[uid])
  {
    var starts := w.process.caches.starts;
    assert uid in starts.order;
    assert uid in Members(starts.order);
  }

  lemma {:induction false} SessionAnchor(w: World, uid: SessionUid, sessionType: nat, time: real, now: Instant)
    requires uid in w.process.caches.seen ==> uid in w.db.anchors
    ensures var w' := HandleSession(w, uid, sessionType, time, now);
            && w'.db == w.db.(anchors := if uid in w.db.anchors then w.db.anchors
                                         else w.db.anchors[uid := now - Micros(time)])
            && w'.process.excluded == w.process.excluded
  {
  }

  lemma {:induction false} SessionFlag(w: World, uid: SessionUid, sessionType: nat, time: real, now: Instant)
    ensures var w' := HandleSession(w, uid, sessionType, time, now);
            && uid in w'.process.caches.known && uid in w'.process.raceStarted.vals
            && w'.process.raceStarted.vals[uid] == if uid in w.process.raceStarted.vals
                                                   then w.process.raceStarted.vals[uid] else !IsRace(sessionType)
  {
    TouchHolds(w.process.caches.known, KNOWN_SESSIONS, uid);
  }

  /** What an announcement leaves behind, its anchor in the cache aside. */
  ghost predicate Announces(w: World, w': World, input: Input)
    requires input.Receive? && input.packet.SessionInfo?
  {
    var uid := input.packet.uid;
    && IsLetIn(w'.process, uid)
    && w'.db == w.db.(anchors := if uid in w.db.anchors then w.db.anchors
                                 else w.db.anchors[uid := input.now - Micros(input.packet.time)])
    && Lookup(w'.process.raceStarted.vals, uid)
         == Some(if uid in w.process.raceStarted.vals then w.process.raceStarted.vals[uid]
                 else !IsRace(input.packet.sessionType))
  }

  lemma {:induction false} AnnouncementAnnounces(w: World, input: Input)
    requires IsAnnouncement(w.process, input)
    requires input.packet.uid in w.process.caches.seen ==> input.packet.uid in w.db.anchors
    ensures Announces(w, Listen(w, input), input)
  {
    ListenSession(w, input);
    SessionAnchor(w, input.packet.uid, input.packet.sessionType, input.packet.time, input.now);
    SessionFlag(w, input.packet.uid, input.packet.sessionType, input.packet.time, input.now);
  }

  /**
   Over any run: a Session packet of a collected type lets its session in and leaves it anchored, at the instant the
   session began by this packet's clocks unless an anchor is stored already. A session without a race flag gets one,
   set unless it is a race.
   */
  lemma {:induction false} AnnouncementLetsIn(earlier: seq<Input>, last: Input)
    requires IsAnnouncement(Run(earlier).process, last)
    ensures var w' := Run(earlier + [last]);
            && Announces(Run(earlier), w', last)
            && Lookup(w'.process.caches.starts.vals, last.packet.uid) == Some(w'.db.anchors[last.packet.uid])
  {
    var w, uid := Run(earlier), last.packet.uid;
    var before := RunAnchored(earlier);
    if uid in w.process.caches.seen {
      SeenIsAnchored(w, before, uid);
    }
    assert (earlier + [last])[..|earlier|] == earlier;
    AnnouncementAnnounces(w, last);
    KnownSessionsUseStoredAnchor(earlier + [last], uid);
  }

  /** A session of an uncollected type is shut out, and nothing else changes. */
  lemma {:induction false} UncollectedIsShutOut(w: World, input: Input)
    requires input.Receive? && input.packet.SessionInfo? && IsUncollected(input.packet.sessionType)
    ensures input.packet.uid in Listen(w, input).process.excluded
    ensures Listen(w, input) == w.(process := w.process.(excluded := Listen(w, input).process.excluded))
  {
    TouchHolds(w.process.excluded, EXCLUDED_SESSIONS, input.packet.uid);
  }

  /** Nothing of a session shut out gets through, and of one never announced only its announcement. */
  lemma {:induction false} OutsidersChangeNothing(w: World, input: Input)
    requires input.Receive?
    requires input.packet.Uid() in w.process.excluded
        || (!input.packet.SessionInfo? && input.packet.Uid() !in w.process.caches.known)
    ensures Listen(w, input) == w
  {
    ListenIgnored(w, input);
  }

  /** The roster of a session let in is replaced unless it is empty; whom it withholds is replaced always. */
  lemma {:induction false} RosterIsTaken(w: World, input: Input, car: Car)
    requires input.Receive? && input.packet.Participants? && IsLetIn(w.process, input.packet.uid)
    ensures var p, p', uid := w.process, Listen(w, input).process, input.packet.uid;
            && RosterOf(p', uid) == (if input.packet.confirmed == map[] then RosterOf(p, uid)
                                     else input.packet.confirmed)
            && (Withholds(p', uid, car) <==> car in input.packet.withheld)
            && Listen(w, input) == w.(process := p.(userMaps := p'.userMaps, restricted := p'.restricted))
  {
  }

  /** Rosters and restrictions are of sessions announced to this process: there is room for all of them. */
  ghost predicate RostersWithin(p: Process, sessions: set<SessionUid>) {
    && WellFormed(p.userMaps) && p.userMaps.vals.Keys <= sessions
    && WellFormed(p.restricted) && p.restricted.vals.Keys <= sessions
  }

  ghost predicate IsRoster(p: Process, input: Input) {
    input.Receive? && input.packet.Participants? && IsLetIn(p, input.packet.uid)
  }

  lemma {:induction false} OthersKeepRosters(w: World, input: Input)
    requires input.Receive? && !IsRoster(w.process, input)
    ensures Listen(w, input).process.userMaps == w.process.userMaps
    ensures Listen(w, input).process.restricted == w.process.restricted
  {
    if input.packet.CarData? && IsBuffered(w.process, input) {
      var o := AddPacket(w.process.buffer, input.packet.slot, input.packet.packet);
      var w1 := Buffered(w, o, input.now);
      ListenCarData(w, input);
      BufferedGrows(w, o, input.now);
      SweepKeepsRosters(w1, input.now, input.clock);
    } else if input.packet.SessionEnd? && IsLetIn(w.process, input.packet.uid) {
      ListenEnd(w, input);
      BufferedGrows(w, FlushSession(w.process.buffer, input.packet.uid), input.now);
    }
  }

  lemma {:induction false} SweepKeepsRosters(w: World, now: Instant, clock: real)
    ensures StaysOpen(w.process, PeriodicSweep(w, now, clock).process)
  {
    if SweepDue(w.process, clock) {
      BufferedGrows(w.(process := w.process.(lastFlush := clock)), SweepStale(w.process.buffer), now);
    }
  }

  lemma {:induction false} RoomForOne<V>(d: Dict<SessionUid, V>, uid: SessionUid, v: V, sessions: set<SessionUid>)
    requires WellFormed(d) && d.vals.Keys <= sessions && uid in sessions && |sessions| <= 200
    ensures WellFormed(SetItem(d, USER_MAPS, uid, v)) && SetItem(d, USER_MAPS, uid, v).vals == d.vals[uid := v]
  {
    MembersCount(d.order);
    if uid !in d.vals {
      SubsetCount(d.vals.Keys + {uid}, sessions);
      assert |d.vals.Keys + {uid}| == |d.vals.Keys| + 1;
    } else {
      SubsetCount(d.vals.Keys, sessions);
    }
    SetItemValid(d, USER_MAPS, uid, v);
  }

  lemma {:induction false} RosterRemembered(p: Process, uid: SessionUid, confirmed: UserMap, withheld: set<nat>,
          sessions: set<SessionUid>)
    requires RostersWithin(p, sessions) && uid in sessions && |sessions| <= 200
    ensures var p' := HandleParticipants(p, uid, confirmed, withheld);
            && RostersWithin(p', sessions)
            && p'.restricted.vals == p.restricted.vals[uid := withheld]
            && p'.userMaps.vals == if confirmed == map[] then p.userMaps.vals else p.userMaps.vals[uid := confirmed]
  {
    RoomForOne(p.restricted, uid, withheld, sessions);
    RoomForOne(p.userMaps, uid, confirmed, sessions);
  }

  lemma {:induction false} KnownWereAnnounced(inputs: seq<Input>, uid: SessionUid)
    requires FewSessions(inputs) && uid in Run(inputs).process.caches.known
    ensures uid in Announced(inputs)
  {
    RunRoomy(inputs);
    assert uid in Members(Run(inputs).process.caches.known);
  }

  lemma {:induction false} RunKeepsRosters(inputs: seq<Input>)
    requires FewSessions(inputs)
    ensures RostersWithin(Run(inputs).process, Announced(inputs))
  {
    if inputs != [] {
      var earlier, last := inputs[..|inputs| - 1], inputs[|inputs| - 1];
      RunKeepsRosters(earlier);
      if last.Receive? && IsRoster(Run(earlier).process, last) {
        KnownWereAnnounced(earlier, last.packet.uid);
        RosterRemembered(Run(earlier).process, last.packet.uid, last.packet.confirmed, last.packet.withheld,
                         Announced(earlier));
        assert Listen(Run(earlier), last).process
            == HandleParticipants(Run(earlier).process, last.packet.uid, last.packet.confirmed, last.packet.withheld);
      } else if last.Receive? {
        OthersKeepRosters(Run(earlier), last);
      }
    }
  }

  /** The session's roster and whom it withholds, once a packet with these has been taken. */
  ghost predicate Takes(p: Process, p': Process, uid: SessionUid, confirmed: UserMap, withheld: set<nat>) {
    && RosterOf(p', uid) == (if confirmed == map[] then RosterOf(p, uid) else confirmed)
    && forall car :: Withholds(p', uid, car) <==> car in withheld
  }

  ghost predicate SameRosterOf(p: Process, p': Process, uid: SessionUid) {
    RosterOf(p', uid) == RosterOf(p, uid) && forall car :: Withholds(p', uid, car) <==> Withholds(p, uid, car)
  }

  lemma {:induction false} RosterTaken(w: World, input: Input, uid: SessionUid, sessions: set<SessionUid>)
    requires IsRoster(w.process, input) && RostersWithin(w.process, sessions)
    requires input.packet.uid in sessions && |sessions| <= 200
    ensures var p, p' := w.process, Listen(w, input).process;
            if input.packet.uid == uid then Takes(p, p', uid, input.packet.confirmed, input.packet.withheld)
            else SameRosterOf(p, p', uid)
  {
    RosterRemembered(w.process, input.packet.uid, input.packet.confirmed, input.packet.withheld, sessions);
  }

  ghost predicate NoRosterOf(p: Process, uid: SessionUid) {
    RosterOf(p, uid) == map[] && forall car :: !Withholds(p, uid, car)
  }

  /** What an input makes of the session's roster. */
  ghost predicate RosterAfter(p: Process, p': Process, input: Input, uid: SessionUid) {
    if input.Restart? then NoRosterOf(p', uid)
    else if IsRoster(p, input) && input.packet.uid == uid
    then Takes(p, p', uid, input.packet.confirmed, input.packet.withheld)
    else SameRosterOf(p, p', uid)
  }

  lemma {:induction false} RosterStep(w: World, input: Input, uid: SessionUid, sessions: set<SessionUid>)
    requires RostersWithin(w.process, sessions) && |sessions| <= 200
    requires IsRoster(w.process, input) ==> input.packet.uid in sessions
    ensures RosterAfter(w.process, Listen(w, input).process, input, uid)
  {
    if IsRoster(w.process, input) {
      RosterTaken(w, input, uid, sessions);
    } else if input.Receive? {
      OthersKeepRosters(w, input);
    }
  }

  /**
   Over any run of at most 200 sessions per process: a session's roster is the last one that was not empty, and whom
   it withholds what its last Participants packet says. Nothing else takes either away, but a restart.
   */
  lemma {:induction false} RosterIsTheLast(earlier: seq<Input>, last: Input, uid: SessionUid)
    requires FewSessions(earlier)
    ensures RosterAfter(Run(earlier).process, Run(earlier + [last]).process, last, uid)
  {
    var w := Run(earlier);
    RunSnoc(earlier, last);
    RunKeepsRosters(earlier);
    if IsRoster(w.process, last) {
      KnownWereAnnounced(earlier, last.packet.uid);
    }
    RosterStep(w, last, uid, Announced(earlier));
  }

  // ---------------------------------------------------------------------------------------------
  // Signs of a start
  // ---------------------------------------------------------------------------------------------

  /** One of the frames the input flushes is heeded and has a confirmed driver on the second lap. */
  ghost predicate FlushesRacing(w: World, input: Input, u: SessionUid) {
    exists i :: 0 <= i < |Flushed(w, input)| && Flushed(w, input)[i].uid == u
                && IsHeeded(w.process, Flushed(w, input)[i])
                && OnSecondLap(RosterOf(w.process, u), Flushed(w, input)[i].packets)
  }

  /** The input is a sign that session `u` is under way. */
  ghost predicate ShowsStart(w: World, input: Input, u: SessionUid) {
    && input.Receive? && input.packet.Uid() !in w.process.excluded
    && match input.packet
       case SessionInfo(uid, sessionType, _) =>
         u == uid && !IsUncollected(sessionType) && !IsRace(sessionType) && uid !in w.process.raceStarted.vals
       case LightsOut(uid) => u == uid && uid in w.process.caches.known
       case FormationLapOver(uid) => u == uid && uid in w.process.caches.known
       case SessionEnd(_) => FlushesRacing(w, input, u)
       case CarData(_, _) => FlushesRacing(w, input, u)
       case Lobby(_) => false
       case Participants(_, _, _) => false
       case Flashback(_, _) => false
       case Other(_) => false
  }

  lemma {:induction false} RacingExactlyWhen(w: World, input: Input, u: SessionUid)
    ensures u in Racing(w.process, Flushed(w, input)) <==> FlushesRacing(w, input, u)
  {
    var p, ds := w.process, Flushed(w, input);
    forall i | 0 <= i < |ds|
      ensures !Skipped(p, ds[i]) && OnRacingLap(p.userMaps.vals[ds[i].uid], ds[i].packets)
         <==> IsHeeded(p, ds[i]) && OnSecondLap(RosterOf(p, ds[i].uid), ds[i].packets)
    {
      HeededExactlyWhen(p, ds[i]);
      CarsOnSecondLap(RosterOf(p, ds[i].uid), ds[i].packets);
    }
  }

  lemma {:induction false} SignalsExactlyWhen(w: World, input: Input, u: SessionUid)
    ensures u in Signals(w, input) <==> ShowsStart(w, input, u)
  {
    RacingExactlyWhen(w, input, u);
  }

  /** A session is under way from its first sign within the process on: exactly these are the signs. */
  lemma {:induction false} UnderWayExactlyWhen(earlier: seq<Input>, last: Input, u: SessionUid)
    ensures u in UnderWay(earlier + [last])
       <==> last.Receive? && (u in UnderWay(earlier) || ShowsStart(Run(earlier), last, u))
  {
    assert (earlier + [last])[..|earlier|] == earlier;
    SignalsExactlyWhen(Run(earlier), last, u);
  }

  // ---------------------------------------------------------------------------------------------
  // Pending packets
  // ---------------------------------------------------------------------------------------------

  /** A car packet that gets to the buffer: its session let in, with a confirmed driver. */
  ghost predicate IsBuffered(p: Process, input: Input) {
    && input.Receive? && input.packet.CarData? && IsLetIn(p, input.packet.slot.uid)
    && RosterOf(p, input.packet.slot.uid) != map[]
  }

  /** A tenth of a second has passed since the last sweep. */
  predicate IsSweepDue(p: Process, input: Input) {
    input.clock - p.lastFlush >= 0.1
  }

  lemma {:induction false} CarDataBuffer(w: World, input: Input)
    requires IsBuffered(w.process, input)
    ensures var o := AddPacket(w.process.buffer, input.packet.slot, input.packet.packet);
            if IsSweepDue(w.process, input)
            then && Listen(w, input).process.buffer == SweepStale(o.buffer).buffer
                 && Listen(w, input).process.lastFlush == input.clock
                 && Flushed(w, input) == o.delivered + SweepStale(o.buffer).delivered
            else && Listen(w, input).process.buffer == o.buffer
                 && Listen(w, input).process.lastFlush == w.process.lastFlush
                 && Flushed(w, input) == o.delivered
  {
    var slot, data, now, clock := input.packet.slot, input.packet.packet, input.now, input.clock;
    var o := AddPacket(w.process.buffer, slot, data);
    var w1 := Buffered(w, o, now);
    ListenCarData(w, input);
    BufferedGrows(w, o, now);
    assert Listen(w, input) == PeriodicSweep(w1, now, clock);
    if IsSweepDue(w.process, input) {
      BufferedGrows(w1.(process := w1.process.(lastFlush := clock)), SweepStale(o.buffer), now);
    } else {
      assert o.delivered + [] == o.delivered;
    }
  }

  lemma {:induction false} EndBuffer(w: World, input: Input)
    requires input.Receive? && input.packet.SessionEnd? && IsLetIn(w.process, input.packet.uid)
    ensures Listen(w, input).process.buffer == FlushSession(w.process.buffer, input.packet.uid).buffer
    ensures Flushed(w, input) == FlushSession(w.process.buffer, input.packet.uid).delivered
  {
    ListenEnd(w, input);
    BufferedGrows(w, FlushSession(w.process.buffer, input.packet.uid), input.now);
  }

  lemma {:induction false} ListenKeepsBuffer(w: World, input: Input)
    requires Inv(w.process.buffer)
    ensures Inv(Listen(w, input).process.buffer)
  {
    var b := w.process.buffer;
    if input.Receive? && IsLetIn(w.process, input.packet.Uid()) {
      if IsBuffered(w.process, input) {
        CarDataBuffer(w, input);
        var o := AddPacket(b, input.packet.slot, input.packet.packet);
        StepInv(b, Add(input.packet.slot, input.packet.packet));
        StepInv(o.buffer, Op<CarPacket>.Sweep);
      } else if input.packet.SessionEnd? {
        EndBuffer(w, input);
        StepInv(b, Op<CarPacket>.End(input.packet.uid));
      } else if input.packet.Flashback? {
        StepInv(b, Op<CarPacket>.Discard(input.packet.uid));
      }
    } else if input.Receive? {
      OthersKeepBuffer(w, input);
    }
  }

  lemma {:induction false} OthersKeepBuffer(w: World, input: Input)
    requires input.Receive? && !IsLetIn(w.process, input.packet.Uid())
    ensures Listen(w, input).process.buffer == w.process.buffer
  {
  }

  lemma {:induction false} RunKeepsBuffer(inputs: seq<Input>)
    ensures Inv(Run(inputs).process.buffer)
  {
    if inputs != [] {
      RunKeepsBuffer(inputs[..|inputs| - 1]);
      ListenKeepsBuffer(Run(inputs[..|inputs| - 1]), inputs[|inputs| - 1]);
    }
  }

  /** The slot is of the session's current frame, and the packet of a later one completes it. */
  ghost predicate Completes(b: Buffer<CarPacket>, slot: Slot, s: Slot) {
    s.uid == slot.uid && IsCurrent(b, s.uid, s.frame) && s.frame < slot.frame
  }

  lemma {:induction false} CompletedAt(b: Buffer<CarPacket>, slot: Slot, s: Slot)
    requires Inv(b)
    ensures var o := Complete(b, slot.uid, slot.frame);
            PendingAt(o.buffer, s) == if Completes(b, slot, s) then None else PendingAt(b, s)
  {
    if slot.uid in b.current.vals && slot.frame > b.current.vals[slot.uid] {
      FlushFrameMoves(b, slot.uid, b.current.vals[slot.uid]);
    }
  }

  /** What is pending after a car packet, slot by slot, given what is current then. */
  ghost predicate AfterPacket(b: Buffer<CarPacket>, b': Buffer<CarPacket>, slot: Slot, packet: CarPacket, swept: bool,
          s: Slot) {
    PendingAt(b', s) == if s == slot then Some(packet)
                        else if Evicts(b, slot.uid, s.uid) || Completes(b, slot, s) then None
                        else if swept && !IsCurrent(b', s.uid, s.frame) then None
                        else PendingAt(b, s)
  }

  lemma {:induction false} AddedCurrent(b: Buffer<CarPacket>, slot: Slot, packet: CarPacket)
    ensures IsCurrent(AddPacket(b, slot, packet).buffer, slot.uid, slot.frame)
  {
  }

  lemma {:induction false} PacketAt(b: Buffer<CarPacket>, slot: Slot, packet: CarPacket, swept: bool, s: Slot)
    requires Inv(b)
    ensures var o := AddPacket(b, slot, packet);
            AfterPacket(b, if swept then SweepStale(o.buffer).buffer else o.buffer, slot, packet, swept, s)
  {
    var o := AddPacket(b, slot, packet);
    AddAt(b, slot, packet, s);
    CompletedAt(b, slot, s);
    AddedCurrent(b, slot, packet);
    StepInv(b, Add(slot, packet));
    if swept {
      SweepTakesAllButCurrent(o.buffer);
      assert PendingAt(SweepStale(o.buffer).buffer, s)
          == if IsCurrent(o.buffer, s.uid, s.frame) then PendingAt(o.buffer, s) else None;
    }
  }

  /** The packet of the slot is with one of the deliveries. */
  ghost predicate HandedOver(b: Buffer<CarPacket>, ds: seq<Delivery<CarPacket>>, s: Slot) {
    exists i: nat :: DeliveredAt(ds, i, s) == PendingAt(b, s)
  }

  lemma {:induction false} HandedOverLater(b: Buffer<CarPacket>, b1: Buffer<CarPacket>,
          before: seq<Delivery<CarPacket>>, ds: seq<Delivery<CarPacket>>, s: Slot)
    requires PendingAt(b1, s) == PendingAt(b, s) && HandedOver(b1, ds, s)
    ensures HandedOver(b, before + ds, s)
  {
    var i: nat :| DeliveredAt(ds, i, s) == PendingAt(b1, s);
    if i < |ds| {
      assert (before + ds)[|before| + i] == ds[i];
    }
    assert DeliveredAt(before + ds, |before| + i, s) == PendingAt(b, s);
  }

  lemma {:induction false} HandedOverFirst(b: Buffer<CarPacket>, ds: seq<Delivery<CarPacket>>,
          after: seq<Delivery<CarPacket>>, s: Slot)
    requires HandedOver(b, ds, s) && PendingAt(b, s).Some?
    ensures HandedOver(b, ds + after, s)
  {
    var i: nat :| DeliveredAt(ds, i, s) == PendingAt(b, s);
    assert (ds + after)[i] == ds[i];
    assert DeliveredAt(ds + after, i, s) == PendingAt(b, s);
  }

  lemma {:induction false} PacketHandsOver(b: Buffer<CarPacket>, slot: Slot, packet: CarPacket, s: Slot)
    requires Inv(b) && s != slot && !Evicts(b, slot.uid, s.uid) && PendingAt(b, s).Some?
    ensures var o := AddPacket(b, slot, packet);
            if PendingAt(o.buffer, s).Some? then PendingAt(o.buffer, s) == PendingAt(b, s)
            else HandedOver(b, o.delivered, s)
  {
    var o := Complete(b, slot.uid, slot.frame);
    AddAt(b, slot, packet, s);
    CompleteMoves(b, slot);
    assert PendingAt(o.buffer, s) == PendingAt(b, s)
        || (PendingAt(o.buffer, s) == None && exists i: nat :: DeliveredAt(o.delivered, i, s) == PendingAt(b, s));
  }

  lemma {:induction false} SweptHandsOver(b: Buffer<CarPacket>, slot: Slot, packet: CarPacket, s: Slot)
    requires Inv(b) && s != slot && !Evicts(b, slot.uid, s.uid) && PendingAt(b, s).Some?
    ensures var o := AddPacket(b, slot, packet);
            var o' := SweepStale(o.buffer);
            PendingAt(o'.buffer, s).Some? || HandedOver(b, o.delivered + o'.delivered, s)
  {
    var o := AddPacket(b, slot, packet);
    var o' := SweepStale(o.buffer);
    PacketHandsOver(b, slot, packet, s);
    StepInv(b, Add(slot, packet));
    SweepTakesAllButCurrent(o.buffer);
    if PendingAt(o.buffer, s).None? {
      HandedOverFirst(b, o.delivered, o'.delivered, s);
    } else if PendingAt(o'.buffer, s).None? {
      assert HandedOver(o.buffer, o'.delivered, s);
      HandedOverLater(b, o.buffer, o.delivered, o'.delivered, s);
    }
  }

  /**
   Over any run: a car packet let in is pending, its frame the session's current one. The frame it completes is not,
   nor are after a tenth of a second any but the current frames; a session it pushes out loses what was pending;
   everything else stays as it was. What is pending no longer, pushed out or overwritten aside, is flushed.
   */
  lemma {:induction false} CarPacketWaits(earlier: seq<Input>, last: Input, s: Slot)
    requires IsBuffered(Run(earlier).process, last)
    ensures var w, w', slot := Run(earlier), Run(earlier + [last]), last.packet.slot;
            var b, b' := w.process.buffer, w'.process.buffer;
            && w'.process.lastFlush == (if IsSweepDue(w.process, last) then last.clock else w.process.lastFlush)
            && IsCurrent(b', slot.uid, slot.frame)
            && AfterPacket(b, b', slot, last.packet.packet, IsSweepDue(w.process, last), s)
            && (s != slot && !Evicts(b, slot.uid, s.uid) && PendingAt(b, s).Some? && PendingAt(b', s).None?
                ==> HandedOver(b, Flushed(w, last), s))
  {
    var w, slot, packet := Run(earlier), last.packet.slot, last.packet.packet;
    var b := w.process.buffer;
    RunKeepsBuffer(earlier);
    assert (earlier + [last])[..|earlier|] == earlier;
    CarDataBuffer(w, last);
    PacketAt(b, slot, packet, IsSweepDue(w.process, last), s);
    AddedCurrent(b, slot, packet);
    StepInv(b, Add(slot, packet));
    SweepTakesAllButCurrent(AddPacket(b, slot, packet).buffer);
    if s != slot && !Evicts(b, slot.uid, s.uid) && PendingAt(b, s).Some? {
      PacketHandsOver(b, slot, packet, s);
      SweptHandsOver(b, slot, packet, s);
    }
  }

  lemma {:induction false} NotTagged(uid: SessionUid, frames: seq<FrameId>, u: SessionUid, f: FrameId)
    requires u != uid
    ensures (u, f) !in Tagged(uid, frames)
  {
  }

  lemma {:induction false} EndAt(b: Buffer<CarPacket>, uid: SessionUid, s: Slot)
    requires Inv(b)
    ensures PendingAt(FlushSession(b, uid).buffer, s) == if s.uid == uid then None else PendingAt(b, s)
    ensures s.uid == uid && PendingAt(b, s).Some? ==> HandedOver(b, FlushSession(b, uid).delivered, s)
  {
    FlushSessionMoves(b, uid);
    if s.uid != uid && uid in b.frames.vals {
      var which := Tagged(uid, Sorted(b.frames.vals[uid].order));
      FlushAllPending(b, which, s);
      NotTagged(uid, Sorted(b.frames.vals[uid].order), s.uid, s.frame);
    }
  }

  /**
   Over any run: at its end a session has nothing pending, and all that was is flushed, its frames in ascending order;
   other sessions' packets stay.
   */
  lemma {:induction false} EndLeavesNothing(earlier: seq<Input>, last: Input, s: Slot)
    requires last.Receive? && last.packet.SessionEnd? && IsLetIn(Run(earlier).process, last.packet.uid)
    ensures var w, w', uid := Run(earlier), Run(earlier + [last]), last.packet.uid;
            var b := w.process.buffer;
            && InAscendingOrder(Flushed(w, last), uid)
            && PendingAt(w'.process.buffer, s) == (if s.uid == uid then None else PendingAt(b, s))
            && (s.uid == uid && PendingAt(b, s).Some? ==> HandedOver(b, Flushed(w, last), s))
  {
    RunKeepsBuffer(earlier);
    assert (earlier + [last])[..|earlier|] == earlier;
    EndBuffer(Run(earlier), last);
    EndAt(Run(earlier).process.buffer, last.packet.uid, s);
    FlushSessionAscends(Run(earlier).process.buffer, last.packet.uid);
  }
}
