/**
 A run in which a frame does fall back to the wall clock: a session's frame is stored, arrives again and is left
 behind; two hundred other sessions push the anchor out of the cache; the next sweep stores the frame once more.
 */
module ListenerFallback {
  import opened Options
  import opened Recency
  import opened FrameBufferModel
  import FrameBufferInOrder
  import opened FrameTables
  import opened AnchorCache
  import opened CarFrames
  import opened Listener
  import opened ListenerTables
  import opened ListenerRaces
  import opened ListenerStores

  const PRACTICE: nat := 1

  function Sample(): CarPacket {
    ParsedPacket(1.0, seq(MAX_CARS, _ => 0), seq(MAX_CARS, _ => Lap(1, 1, 1, 0)))
  }

  const SECOND: Instant := 1000000

  // Both clocks read `at` seconds.

  function Announce(uid: SessionUid, at: nat): Input {
    Receive(SessionInfo(uid, PRACTICE, 0.0), at * SECOND, at as real)
  }

  function Roster(uid: SessionUid, at: nat): Input {
    Receive(Participants(uid, map[0 := 7], {}), at * SECOND, at as real)
  }

  function Data(uid: SessionUid, frame: FrameId, at: nat): Input {
    Receive(CarData(Slot(uid, frame, LAP_DATA), Sample()), at * SECOND, at as real)
  }

  function End(uid: SessionUid, at: nat): Input {
    Receive(SessionEnd(uid), at * SECOND, at as real)
  }

  /**
   Session 0 sends frame 5 and ends, which stores the frame. Then frame 5 arrives again and, late, frame 4:
   frame 5 stays pending and is no longer current.
   */
  function Opening(): seq<Input> {
    [Announce(0, 0), Roster(0, 0), Data(0, 5, 1), End(0, 1), Data(0, 5, 2), Data(0, 4, 2)]
  }

  /** ... and `k` more sessions are announced. */
  function Crowd(k: nat): seq<Input> {
    Opening() + seq(k, i requires 0 <= i => Announce(i + 1, 2))
  }

  /** A frame of the last session, a second into it, with the wall clock at `now`. */
  function Last(now: Instant): Input {
    Receive(CarData(Slot(ANCHORS, 1, LAP_DATA), Sample()), now, 3.0)
  }

  /** ... until the anchor cache holds only them, and the last one sends a frame a second later. */
  function FallbackRun(now: Instant): seq<Input> {
    Crowd(ANCHORS) + [Roster(ANCHORS, 2), Last(now)]
  }

  function OnePacket(): Packets<CarPacket> {
    Put(Empty(), LAP_DATA, Sample())
  }

  function Left(): Buffer<CarPacket> {
    Buffer(Dict([0], map[0 := Dict([5, 4], map[5 := OnePacket(), 4 := OnePacket()])]), Dict([0], map[0 := 4]))
  }

  function Users(): Dict<SessionUid, UserMap> {
    Dict([0], map[0 := map[0 := 7]])
  }

  /** The sessions anchored last, oldest first. */
  function Recent(k: nat): seq<SessionUid> {
    if k < ANCHORS then seq(k + 1, i requires 0 <= i => i) else seq(ANCHORS, i requires 0 <= i => k - ANCHORS + 1 + i)
  }

  /** What the crowd leaves alone, and what it does to the caches. */
  ghost predicate Crowded(p: Process, k: nat) {
    && p.excluded == [] && p.userMaps == Users() && p.buffer == Left() && p.lastFlush == 2.0
    && WellFormed(p.caches.starts) && p.caches.starts.order == Recent(k)
    && (forall u :: u in p.caches.seen ==> u <= k)
    && k in p.caches.known && AllOpen(p)
  }

  /** No race flag holds anything back. */
  ghost predicate AllOpen(p: Process) {
    FlagsOpen(p.raceStarted)
  }

  ghost predicate FlagsOpen(flags: Dict<SessionUid, bool>) {
    WellFormed(flags) && |flags.order| <= RACE_FLAGS && forall u :: u in flags.vals ==> flags.vals[u]
  }

  /** The keys of frame 5's row: under the anchor, a second into the session, and under the wall clock. */
  function FirstKey(): Key {
    Key(SECOND, 0, 7, 5)
  }

  function SecondKey(now: Instant): Key {
    Key(now, 0, 7, 5)
  }

  /** Every packet was sent a second into its session. */
  ghost predicate OneSecond(db: Database) {
    forall k :: k in db.frames ==> db.frames[k].time == 1.0
  }

  /** Frame 5 was stored under its anchor. */
  ghost predicate HasFirst(db: Database) {
    FirstKey() in db.frames && OneSecond(db)
  }

  ghost predicate Admitted(p: Process, users: Dict<SessionUid, UserMap>, flushed: real) {
    && p.excluded == [] && p.userMaps == users && p.buffer == EmptyBuffer() && p.lastFlush == flushed
    && p.caches == Caches([0], [0], Dict([0], map[0 := 0])) && AllOpen(p)
  }

  lemma {:induction false} AfterAnnouncement(w: World)
    requires w.process == NewProcess(0.0) && w.db.anchors == map[]
    ensures Admitted(Listen(w, Announce(0, 0)).process, Empty(), 0.0)
    ensures Listen(w, Announce(0, 0)).db.frames == w.db.frames
    ensures Lookup(Listen(w, Announce(0, 0)).db.anchors, 0) == Some(0)
  {
    ListenSession(w, Announce(0, 0));
    assert Micros(0.0) == 0;
  }

  lemma {:induction false} AfterRoster(w: World)
    requires Admitted(w.process, Empty(), 0.0)
    ensures Admitted(Listen(w, Roster(0, 0)).process, Users(), 0.0) && Listen(w, Roster(0, 0)).db == w.db
  {
    var users: UserMap := map[0 := 7];
    assert users != map[] by {
      assert 0 in users;
    }
    assert Listen(w, Roster(0, 0)) == w.(process := HandleParticipants(w.process, 0, users, {}));
  }

  function FrameFive(): Buffer<CarPacket> {
    Buffer(Dict([0], map[0 := Dict([5], map[5 := OnePacket()])]), Dict([0], map[0 := 5]))
  }

  lemma {:induction false} AddFive()
    ensures AddPacket(EmptyBuffer(), Slot(0, 5, LAP_DATA), Sample()) == Outcome(FrameFive(), [])
  {
    var b := Store(EmptyBuffer(), Slot(0, 5, LAP_DATA), Sample());
    var session: Frames<CarPacket> := Put(Empty(), 5, OnePacket());
    assert session == Dict([5], map[5 := OnePacket()]);
    assert b.frames.order == [0];
    assert b.frames.vals == map[0 := session];
    assert b.current == Dict([0], map[0 := 5]);
  }

  lemma {:induction false} AddFour()
    ensures AddPacket(FrameFive(), Slot(0, 4, LAP_DATA), Sample()) == Outcome(Left(), [])
  {
    var b := Store(FrameFive(), Slot(0, 4, LAP_DATA), Sample());
    var five: Frames<CarPacket> := Dict([5], map[5 := OnePacket()]);
    var session := Put(five, 4, OnePacket());
    assert session.order == [5, 4];
    assert session.vals == map[5 := OnePacket(), 4 := OnePacket()];
    assert b.frames.vals == map[0 := session];
    assert Without([0], 0) == [] by {
      assert [0][1..] == [];
    }
    assert b.current.order == [0] && b.current.vals == map[0 := 4];
  }

  /** A car packet that completes nothing, before a sweep is due, only enters the buffer. */
  lemma {:induction false} QuietData(w: World, uid: SessionUid, frame: FrameId, at: nat, b: Buffer<CarPacket>)
    requires w.process.excluded == [] && uid in w.process.caches.known && w.process.lastFlush == at as real
    requires Lookup(w.process.userMaps.vals, uid).GetOr(map[]) != map[]
    requires AddPacket(w.process.buffer, Slot(uid, frame, LAP_DATA), Sample()) == Outcome(b, [])
    ensures Listen(w, Data(uid, frame, at)) == w.(process := w.process.(buffer := b))
  {
  }

  /** ... and when one is due but finds nothing left behind, the time of the sweep is noted. */
  lemma {:induction false} SweptData(w: World, uid: SessionUid, frame: FrameId, at: nat, b: Buffer<CarPacket>)
    requires w.process.excluded == [] && uid in w.process.caches.known && w.process.lastFlush <= at as real - 1.0
    requires Lookup(w.process.userMaps.vals, uid).GetOr(map[]) != map[]
    requires AddPacket(w.process.buffer, Slot(uid, frame, LAP_DATA), Sample()) == Outcome(b, [])
    requires SweepStale(b) == Outcome(b, [])
    ensures Listen(w, Data(uid, frame, at)) == w.(process := w.process.(buffer := b, lastFlush := at as real))
  {
    ListenCarData(w, Data(uid, frame, at));
    assert Buffered(w, Outcome(b, []), at * SECOND) == w.(process := w.process.(buffer := b));
  }

  lemma {:induction false} NothingStale()
    ensures SweepStale(FrameFive()) == Outcome(FrameFive(), [])
  {
    assert [5][1..] == [] && [0][1..] == [];
    assert StaleOf(0, [5], Some(5)) == [];
    assert Stale(FrameFive(), [0]) == [];
  }

  /** Frame 5 delivered: its row is stored, under the anchor if there is one, and nothing is lost. */
  lemma {:induction false} FrameFiveStores(w: World, now: Instant, timestamp: Instant)
    requires Lookup(w.process.userMaps.vals, 0) == Some(map[0 := 7]) && AllOpen(w.process)
    requires var start := Lookup(w.process.caches.starts.vals, 0);
             timestamp == if start.Some? then start.value + SECOND else now
    requires OneSecond(w.db)
    ensures var w' := Deliver(w, Delivery(0, 5, OnePacket()), now);
            && Key(timestamp, 0, 7, 5) in w'.db.frames && w.db.frames.Keys <= w'.db.frames.Keys
            && w'.process == w.process.(laps := w'.process.laps) && OneSecond(w'.db)
  {
    var d := Delivery(0, 5, OnePacket());
    var users: UserMap := map[0 := 7];
    assert users != map[] by {
      assert 0 in users;
    }
    assert !OnRacingLap(users, d.packets);
    DeliverProcess(w, d, now);
    var t := TickOf(w.process, d, now);
    assert Micros(1.0) == SECOND;
    FiveIsRecorded(t);
    DeliveryIsStored(w, d, now);
    DeliverKeepsKeys(w, d, now);
    DeliverKeepsTimes(w, d, now);
  }

  lemma {:induction false} DeliverKeepsTimes(w: World, d: Delivery<CarPacket>, now: Instant)
    requires OneSecond(w.db) && Stores(w.process, d) && TickOf(w.process, d, now).time == 1.0
    ensures OneSecond(Deliver(w, d, now).db)
  {
    var t := TickOf(w.process, d, now);
    StoredDelivery(w, d, now);
    RowsOfTick(t, d.packets, Cars());
    BatchKeepsTimes(w.db.frames, WithGaps(RowsFor(t, d.packets, Cars())));
  }

  lemma {:induction false} BatchKeepsTimes(t: Table<Stored<FrameRow>>, rows: seq<(Key, Stored<FrameRow>)>)
    requires forall k :: k in t ==> t[k].time == 1.0
    requires forall i :: 0 <= i < |rows| ==> rows[i].1.time == 1.0
    ensures forall k :: k in InsertBatch(t, rows) ==> InsertBatch(t, rows)[k].time == 1.0
    decreases rows
  {
    if rows != [] {
      BatchKeepsTimes(Insert(t, rows[0].0, rows[0].1), rows[1..]);
    }
  }

  lemma {:induction false} FiveIsRecorded(t: Tick)
    requires t.users == map[0 := 7]
    ensures HasKey(RowsFor(t, OnePacket(), Cars()), Key(Timestamp(t), t.uid, 7, t.frame))
  {
    var r := (KeyOf(t, 0), Stored(t.time, RowOf(t, OnePacket(), 0)));
    assert Cars()[0] == 0;
    assert RowFrom(t, OnePacket(), 0, r);
    RowsAreThoseRecorded(t, OnePacket(), Cars(), r);
  }

  lemma {:induction false} DeliverKeepsKeys(w: World, d: Delivery<CarPacket>, now: Instant)
    ensures w.db.frames.Keys <= Deliver(w, d, now).db.frames.Keys
  {
    if Stores(w.process, d) {
      var rows := WithGaps(RowsFor(TickOf(w.process, d, now), d.packets, Cars()));
      StoredDelivery(w, d, now);
      forall k | k in w.db.frames
        ensures k in InsertBatch(w.db.frames, rows)
      {
        InsertBatchKeys(w.db.frames, rows, k);
      }
    } else {
      UnstoredDelivery(w, d, now);
    }
  }

  lemma {:induction false} EndFive()
    ensures FlushSession(FrameFive(), 0) == Outcome(EmptyBuffer(), [Delivery(0, 5, OnePacket())])
  {
    var five: Frames<CarPacket> := Dict([5], map[5 := OnePacket()]);
    assert Without([5], 5) == [] && Without([0], 0) == [] by {
      assert [5][1..] == [] && [0][1..] == [];
    }
    assert Remove(five, 5) == Empty();
    assert Remove(FrameFive().frames, 0) == Empty();
    assert Remove(FrameFive().current, 0) == Empty();
    assert FlushFrame(FrameFive(), 0, 5) == Outcome(FrameFive().(frames := Empty()), [Delivery(0, 5, OnePacket())]);
    FrameBufferInOrder.FlushOne(FrameFive(), 0, 5);
    assert Without([], 0) == [];
    assert Remove(Empty<SessionUid, Frames<CarPacket>>(), 0) == Empty();
  }

  lemma {:induction false} EndDelivers(w: World, b: Buffer<CarPacket>, d: Delivery<CarPacket>, at: nat)
    requires w.process.excluded == [] && 0 in w.process.caches.known
    requires FlushSession(w.process.buffer, 0) == Outcome(b, [d])
    ensures Listen(w, End(0, at)) == Deliver(w.(process := w.process.(buffer := b)), d, at * SECOND)
  {
    var w0 := w.(process := w.process.(buffer := b));
    ListenEnd(w, End(0, at));
    assert [d][1..] == [];
    assert DeliverAll(w0, [d], at * SECOND) == DeliverAll(Deliver(w0, d, at * SECOND), [], at * SECOND);
  }

  /** Frame 5 and the session's end: the row is stored and the buffer empty again. */
  lemma {:induction false} AfterEnd(w: World)
    requires Admitted(w.process, Users(), 0.0) && OneSecond(w.db)
    ensures var w' := Listen(Listen(w, Data(0, 5, 1)), End(0, 1));
            Admitted(w'.process, Users(), 1.0) && HasFirst(w'.db)
  {
    var users: UserMap := map[0 := 7];
    assert users != map[] by {
      assert 0 in users;
    }
    AddFive();
    NothingStale();
    SweptData(w, 0, 5, 1, FrameFive());
    EndFive();
    var w1 := w.(process := w.process.(buffer := FrameFive(), lastFlush := 1.0));
    EndDelivers(w1, EmptyBuffer(), Delivery(0, 5, OnePacket()), 1);
    FrameFiveStores(w1.(process := w1.process.(buffer := EmptyBuffer())), SECOND, SECOND);
  }

  lemma {:induction false} AfterFrames(w: World)
    requires Admitted(w.process, Users(), 1.0)
    ensures var w' := Listen(Listen(w, Data(0, 5, 2)), Data(0, 4, 2));
            Crowded(w'.process, 0) && w'.db == w.db
  {
    var users: UserMap := map[0 := 7];
    assert users != map[] by {
      assert 0 in users;
    }
    AddFive();
    AddFour();
    NothingStale();
    SweptData(w, 0, 5, 2, FrameFive());
    QuietData(w.(process := w.process.(buffer := FrameFive(), lastFlush := 2.0)), 0, 4, 2, Left());
    assert Recent(0) == [0];
  }

  ghost function Opened(w: World): World {
    Listen(Listen(Stored5(w), Data(0, 5, 2)), Data(0, 4, 2))
  }

  ghost function Stored5(w: World): World {
    Listen(Listen(Listen(Listen(w, Announce(0, 0)), Roster(0, 0)), Data(0, 5, 1)), End(0, 1))
  }

  lemma {:induction false} AfterOpening(w: World)
    requires w.process == NewProcess(0.0) && w.db.anchors == map[] && OneSecond(w.db)
    ensures Crowded(Opened(w).process, 0) && HasFirst(Opened(w).db)
  {
    AfterAnnouncement(w);
    AfterRoster(Listen(w, Announce(0, 0)));
    AfterEnd(Listen(Listen(w, Announce(0, 0)), Roster(0, 0)));
    AfterFrames(Stored5(w));
  }

  lemma {:induction false} RunTwice(inputs: seq<Input>, w: World, a: Input, b: Input)
    requires w == Run(inputs)
    ensures Run(inputs + [a, b]) == Listen(Listen(w, a), b)
  {
    RunSnoc(inputs, a);
    RunSnoc(inputs + [a], b);
    assert inputs + [a] + [b] == inputs + [a, b];
  }

  lemma {:induction false} RunOfSix(w: World, a: Input, b: Input, c: Input, d: Input, e: Input, f: Input)
    requires w == Run([])
    ensures Run([a, b, c, d, e, f]) == Listen(Listen(Listen(Listen(Listen(Listen(w, a), b), c), d), e), f)
  {
    var w2 := Listen(Listen(w, a), b);
    RunTwice([], w, a, b);
    assert [] + [a, b] == [a, b];
    var w4 := Listen(Listen(w2, c), d);
    RunTwice([a, b], w2, c, d);
    RunTwice([a, b] + [c, d], w4, e, f);
    assert [a, b] + [c, d] + [e, f] == [a, b, c, d, e, f];
  }

  lemma {:induction false} RunOfOpening()
    ensures Run(Opening()) == Opened(Run([]))
  {
    RunOfSix(Run([]), Announce(0, 0), Roster(0, 0), Data(0, 5, 1), End(0, 1), Data(0, 5, 2), Data(0, 4, 2));
  }

  lemma {:induction false} TouchRecent(k: nat)
    ensures k + 1 !in Recent(k) && Touch(Recent(k), ANCHORS, k + 1) == Recent(k + 1)
  {
    if |Recent(k)| >= ANCHORS {
      assert Recent(k)[1..] + [k + 1] == Recent(k + 1);
    } else {
      assert Recent(k) + [k + 1] == Recent(k + 1);
    }
  }

  lemma {:induction false} OneMoreCached(c: Caches, k: nat, anchor: Instant)
    requires WellFormed(c.starts) && c.starts.order == Recent(k) && forall u :: u in c.seen ==> u <= k
    ensures var c' := SessionPacket(c, k + 1, anchor);
            && WellFormed(c'.starts) && c'.starts.order == Recent(k + 1) && (forall u :: u in c'.seen ==> u <= k + 1)
            && k + 1 in c'.known
  {
    TouchRecent(k);
    TouchHolds(c.known, KNOWN_SESSIONS, k + 1);
    TouchWithin(c.seen, SEEN_SESSIONS, k + 1);
    SetItemValid(c.starts, ANCHORS, k + 1, anchor);
  }

  lemma {:induction false} OneMoreCrowds(w: World, k: nat)
    requires Crowded(w.process, k)
    ensures Crowded(HandleSession(w, k + 1, PRACTICE, 0.0, 2 * SECOND).process, k + 1)
  {
    var w' := HandleSession(w, k + 1, PRACTICE, 0.0, 2 * SECOND);
    SessionShape(w, k + 1, PRACTICE, 0.0, 2 * SECOND);
    SessionStaysOpen(w, k + 1);
    SessionLeaves(w, k + 1);
    CrowdedAfter(w.process, w'.process, k, ReadBack(w'.db.anchors, k + 1, 2 * SECOND - Micros(0.0)));
  }

  lemma {:induction false} CrowdedAfter(p: Process, p': Process, k: nat, anchor: Instant)
    requires Crowded(p, k) && p'.caches == SessionPacket(p.caches, k + 1, anchor) && AllOpen(p')
    requires p'.excluded == p.excluded && p'.userMaps == p.userMaps
    requires p'.buffer == p.buffer && p'.lastFlush == p.lastFlush
    ensures Crowded(p', k + 1)
  {
    OneMoreCached(p.caches, k, anchor);
  }

  lemma {:induction false} SessionLeaves(w: World, uid: SessionUid)
    ensures var p, p' := w.process, HandleSession(w, uid, PRACTICE, 0.0, 2 * SECOND).process;
            && p'.excluded == p.excluded && p'.userMaps == p.userMaps
            && p'.buffer == p.buffer && p'.lastFlush == p.lastFlush
  {
  }

  lemma {:induction false} SessionStaysOpen(w: World, uid: SessionUid)
    requires AllOpen(w.process)
    ensures AllOpen(HandleSession(w, uid, PRACTICE, 0.0, 2 * SECOND).process)
  {
    OneMoreOpen(w.process.raceStarted, uid);
  }

  /** Practice sessions are open from their first packet. */
  lemma {:induction false} OneMoreOpen(flags: Dict<SessionUid, bool>, uid: SessionUid)
    requires FlagsOpen(flags)
    ensures FlagsOpen(SetItem(flags, RACE_FLAGS, uid, true))
  {
    SetItemValid(flags, RACE_FLAGS, uid, true);
  }

  lemma {:induction false} TouchWithin(order: seq<SessionUid>, max: nat, k: SessionUid)
    requires max >= 1 && forall u :: u in order ==> u < k
    ensures forall u :: u in Touch(order, max, k) ==> u <= k
  {
    TouchMembers(order, max, k);
    forall u | u in Touch(order, max, k)
      ensures u <= k
    {
      assert u in Members(Touch(order, max, k));
    }
  }

  lemma {:induction false} CrowdStep(inputs: seq<Input>, w: World, k: nat) returns (w': World)
    requires w == Run(inputs) && Crowded(w.process, k)
    ensures w' == Run(inputs + [Announce(k + 1, 2)]) && Crowded(w'.process, k + 1)
    ensures w'.db.frames == w.db.frames
  {
    w' := HandleSession(w, k + 1, PRACTICE, 0.0, 2 * SECOND);
    RunSnoc(inputs, Announce(k + 1, 2));
    ListenSession(w, Announce(k + 1, 2));
    OneMoreCrowds(w, k);
  }

  lemma {:induction false} OpeningWorld() returns (w: World)
    ensures w == Run(Opening()) && Crowded(w.process, 0) && HasFirst(w.db)
  {
    w := Opened(Run([]));
    AfterOpening(Run([]));
    RunOfOpening();
  }

  lemma {:induction false} OneMore(k: nat)
    ensures Crowd(0) == Opening() && Crowd(k) + [Announce(k + 1, 2)] == Crowd(k + 1)
  {
  }

  /** One announcement after another. */
  lemma {:induction false} Announcing(k: nat) returns (inputs: seq<Input>, w: World)
    ensures inputs == Crowd(k) && w == Run(inputs) && Crowded(w.process, k) && HasFirst(w.db)
  {
    if k == 0 {
      OneMore(0);
      inputs := Opening();
      w := OpeningWorld();
    } else {
      var earlier, before := Announcing(k - 1);
      OneMore(k - 1);
      inputs := earlier + [Announce(k, 2)];
      w := CrowdStep(earlier, before, k - 1);
    }
  }

  /** The late packet's own addition hands nothing over, and leaves session 0's frame 5 behind. */
  lemma {:induction false} AddLast()
    ensures var o := AddPacket(Left(), Slot(ANCHORS, 1, LAP_DATA), Sample());
            && o.delivered == [] && o.buffer.frames.order == [0, ANCHORS]
            && Lookup(o.buffer.frames.vals, 0) == Some(Dict([5, 4], map[5 := OnePacket(), 4 := OnePacket()]))
            && Lookup(o.buffer.current.vals, 0) == Some(4)
            && Lookup(o.buffer.frames.vals, ANCHORS) == Some(Dict([1], map[1 := OnePacket()]))
            && Lookup(o.buffer.current.vals, ANCHORS) == Some(1)
  {
    var b := Store(Left(), Slot(ANCHORS, 1, LAP_DATA), Sample());
    var session: Frames<CarPacket> := Put(Empty(), 1, OnePacket());
    assert session == Dict([1], map[1 := OnePacket()]);
    assert b.frames.order == [0, ANCHORS];
    assert b.frames.vals[ANCHORS] == session;
  }

  lemma {:induction false} SweepHandsOver(b: Buffer<CarPacket>)
    requires b.frames.order == [0, ANCHORS]
    requires Lookup(b.frames.vals, 0) == Some(Dict([5, 4], map[5 := OnePacket(), 4 := OnePacket()]))
    requires Lookup(b.current.vals, 0) == Some(4)
    requires Lookup(b.frames.vals, ANCHORS) == Some(Dict([1], map[1 := OnePacket()]))
    requires Lookup(b.current.vals, ANCHORS) == Some(1)
    ensures SweepStale(b).delivered == [Delivery(0, 5, OnePacket())]
  {
    var frames, uids := [5, 4], [0, ANCHORS];
    assert frames[1..] == [4] && [4][1..] == [] && [1][1..] == [] && uids[1..] == [ANCHORS] && [ANCHORS][1..] == [];
    assert StaleOf(0, [4], Some(4)) == [];
    assert StaleOf(0, frames, Some(4)) == [(0, 5)];
    assert StaleOf(ANCHORS, [1], Some(1)) == [];
    assert Stale(b, [ANCHORS]) == [];
    assert Stale(b, uids) == [(0, 5)];
    assert [(0, 5)][1..] == [];
  }

  lemma {:induction false} FlushesSwept(w: World, slot: Slot, data: CarPacket, o: Outcome<CarPacket>, now: Instant,
          clock: real)
    requires w.process.excluded == [] && slot.uid in w.process.caches.known
    requires Lookup(w.process.userMaps.vals, slot.uid).GetOr(map[]) != map[]
    requires o == AddPacket(w.process.buffer, slot, data) && o.delivered == []
    requires !((clock - w.process.lastFlush) * 1000.0 < FLUSH_INTERVAL_MS)
    ensures Flushed(w, Receive(CarData(slot, data), now, clock)) == SweepStale(o.buffer).delivered
  {
    assert [] + SweepStale(o.buffer).delivered == SweepStale(o.buffer).delivered;
  }

  lemma {:induction false} LastPacketFlushes(w: World, now: Instant)
    requires w.process.excluded == [] && w.process.buffer == Left() && w.process.lastFlush == 2.0
    requires ANCHORS in w.process.caches.known
    requires Lookup(w.process.userMaps.vals, ANCHORS).GetOr(map[]) != map[]
    ensures Flushed(w, Last(now)) == [Delivery(0, 5, OnePacket())]
  {
    AddLast();
    var o := AddPacket(Left(), Slot(ANCHORS, 1, LAP_DATA), Sample());
    FlushesSwept(w, Slot(ANCHORS, 1, LAP_DATA), Sample(), o, now, 3.0);
    SweepHandsOver(o.buffer);
  }

  /** A world so crowded, with the last session's roster in: session 0's anchor is gone, its roster is not. */
  ghost predicate Ready(p: Process) {
    && p.excluded == [] && p.buffer == Left() && p.lastFlush == 2.0
    && ANCHORS in p.caches.known && 0 !in p.caches.starts.vals && AllOpen(p)
    && Lookup(p.userMaps.vals, 0) == Some(map[0 := 7]) && Lookup(p.userMaps.vals, ANCHORS) == Some(map[0 := 7])
  }

  lemma {:induction false} RosterOfLast(w: World)
    requires Crowded(w.process, ANCHORS)
    ensures Ready(Listen(w, Roster(ANCHORS, 2)).process) && Listen(w, Roster(ANCHORS, 2)).db == w.db
  {
    var users: UserMap := map[0 := 7];
    assert users != map[] by {
      assert 0 in users;
    }
    assert Listen(w, Roster(ANCHORS, 2)) == w.(process := HandleParticipants(w.process, ANCHORS, users, {}));
    assert SetItem(Users(), USER_MAPS, ANCHORS, users).vals == Users().vals[ANCHORS := users];
    assert 0 !in Members(Recent(ANCHORS));
  }

  /** The last session's first car packet flushes a frame of session 0. */
  lemma {:induction false} LastPacketFallsBack(w: World, now: Instant)
    requires Ready(w.process)
    ensures !AllAnchored(w.process, Flushed(w, Last(now)))
  {
    var d := Delivery(0, 5, OnePacket());
    var users: UserMap := map[0 := 7];
    assert users != map[] by {
      assert 0 in users;
    }
    LastPacketFlushes(w, now);
    assert !Skipped(w.process, d);
    assert !IsAnchored(w.process, [d][0]);
  }

  lemma {:induction false} SweepDelivers(w: World, slot: Slot, data: CarPacket, o: Outcome<CarPacket>,
          swept: Outcome<CarPacket>, d: Delivery<CarPacket>, now: Instant, clock: real)
    requires w.process.excluded == [] && slot.uid in w.process.caches.known
    requires Lookup(w.process.userMaps.vals, slot.uid).GetOr(map[]) != map[]
    requires o == AddPacket(w.process.buffer, slot, data) && o.delivered == []
    requires !((clock - w.process.lastFlush) * 1000.0 < FLUSH_INTERVAL_MS)
    requires swept == SweepStale(o.buffer) && swept.delivered == [d]
    ensures Listen(w, Receive(CarData(slot, data), now, clock))
         == Deliver(w.(process := w.process.(buffer := swept.buffer, lastFlush := clock)), d, now)
  {
    var w0 := w.(process := w.process.(buffer := swept.buffer, lastFlush := clock));
    ListenCarData(w, Receive(CarData(slot, data), now, clock));
    assert Buffered(w, o, now) == w.(process := w.process.(buffer := o.buffer));
    assert [d][1..] == [];
    assert DeliverAll(w0, [d], now) == DeliverAll(Deliver(w0, d, now), [], now);
  }

  /** ... and stores it a second time. */
  lemma {:induction false} LastPacketStoresAgain(w: World, now: Instant)
    requires Ready(w.process) && HasFirst(w.db)
    ensures var w' := Listen(w, Last(now));
            HasFirst(w'.db) && SecondKey(now) in w'.db.frames && w'.process.excluded == []
  {
    var slot, d := Slot(ANCHORS, 1, LAP_DATA), Delivery(0, 5, OnePacket());
    var users: UserMap := map[0 := 7];
    assert users != map[] by {
      assert 0 in users;
    }
    AddLast();
    var o := AddPacket(Left(), slot, Sample());
    SweepHandsOver(o.buffer);
    var swept := SweepStale(o.buffer);
    SweepDelivers(w, slot, Sample(), o, swept, d, now, 3.0);
    FrameFiveStores(w.(process := w.process.(buffer := swept.buffer, lastFlush := 3.0)), now, now);
  }

  lemma {:induction false} LastFallsBack(inputs: seq<Input>, last: Input)
    requires !AllAnchored(Run(inputs).process, Flushed(Run(inputs), last))
    ensures !NoFallback(inputs + [last])
  {
    assert (inputs + [last])[..|inputs|] == inputs;
  }

  /** The run up to its last packet. */
  lemma {:induction false} BeforeTheLast(now: Instant) returns (inputs: seq<Input>, w: World)
    ensures FallbackRun(now) == inputs + [Last(now)]
    ensures w == Run(inputs) && Ready(w.process) && HasFirst(w.db)
  {
    var crowd, w0 := Announcing(ANCHORS);
    inputs, w := crowd + [Roster(ANCHORS, 2)], Listen(w0, Roster(ANCHORS, 2));
    RunSnoc(crowd, Roster(ANCHORS, 2));
    RosterOfLast(w0);
    assert FallbackRun(now) == inputs + [Last(now)];
  }

  /** The run ends by flushing a frame, not skipped, of a session whose anchor is forgotten. */
  lemma {:induction false} FallbackHappens(now: Instant)
    ensures !NoFallback(FallbackRun(now))
  {
    var inputs, w := BeforeTheLast(now);
    LastPacketFallsBack(w, now);
    LastFallsBack(inputs, Last(now));
  }

  lemma {:induction false} EndOfRun(now: Instant) returns (w: World)
    ensures w == Run(FallbackRun(now)) && HasFirst(w.db) && SecondKey(now) in w.db.frames && w.process.excluded == []
  {
    var inputs, before := BeforeTheLast(now);
    w := Listen(before, Last(now));
    LastPacketStoresAgain(before, now);
    RunSnoc(inputs, Last(now));
  }

  /**
   At its end one frame of one driver is stored under two timestamps: wherever the wall clock stands, but for the
   frame's own instant, two seconds before.
   */
  lemma {:induction false} FrameStoredTwice(now: Instant)
    requires now != SECOND
    ensures FirstKey() in Run(FallbackRun(now)).db.frames && SecondKey(now) in Run(FallbackRun(now)).db.frames
    ensures FirstKey() != SecondKey(now) && FirstKey() == SecondKey(now).(timestamp := FirstKey().timestamp)
  {
    var w := EndOfRun(now);
  }

  // ---------------------------------------------------------------------------------------------
  // A wall clock that is behind
  // ---------------------------------------------------------------------------------------------

  /** Session 0 comes back, and a flashback takes it to half a second from its start. */
  function RewoundRun(now: Instant): seq<Input> {
    FallbackRun(now) + [Announce(0, 4)] + [Rewind()]
  }

  function Rewind(): Input {
    Receive(Flashback(0, 0.5), 4 * SECOND, 4.0)
  }

  lemma {:induction false} AnchorOfFirst(now: Instant)
    ensures Lookup(Run(FallbackRun(now) + [Announce(0, 4)]).db.anchors, 0) == Some(0)
  {
    var all := FallbackRun(now) + [Announce(0, 4)];
    assert all[..1] == [] + [Announce(0, 0)];
    RunSnoc([], Announce(0, 0));
    AfterAnnouncement(Run([]));
    AnchorsNeverMove(all, 1, 0);
  }

  lemma {:induction false} Readmitted(w: World)
    requires w.process.excluded == []
    ensures var w' := Listen(w, Announce(0, 4));
            w'.db.frames == w.db.frames && 0 in w'.process.caches.known && w'.process.excluded == []
  {
    ListenSession(w, Announce(0, 4));
    TouchHolds(w.process.caches.known, KNOWN_SESSIONS, 0);
  }

  lemma {:induction false} StartKnown(inputs: seq<Input>, back: World)
    requires back == Run(inputs) && 0 in back.process.caches.known && Lookup(back.db.anchors, 0) == Some(0)
    ensures Lookup(back.process.caches.starts.vals, 0) == Some(0)
  {
    KnownSessionsUseStoredAnchor(inputs, 0);
  }

  lemma {:induction false} RewindSpares(back: World, now: Instant)
    requires back.process.excluded == [] && 0 in back.process.caches.known
    requires Lookup(back.process.caches.starts.vals, 0) == Some(0)
    requires SecondKey(now) in back.db.frames && back.db.frames[SecondKey(now)].time == 1.0
    ensures SecondKey(now) in Listen(back, Rewind()).db.frames <==> now <= 500000
  {
    assert Micros(0.5) == 500000;
    LateRowSurvivesExactlyWhen(back, 0, 0.5, SecondKey(now));
    ListenFlashback(back, Rewind());
  }

  /**
   The row the wall clock stamped is past the rewind point, and the flashback leaves it exactly when the wall clock
   was not.
   */
  lemma {:induction false} UndoneRowSurvivesExactlyWhen(now: Instant)
    ensures var frames := Run(FallbackRun(now)).db.frames;
            SecondKey(now) in frames && frames[SecondKey(now)].time > 0.5
    ensures SecondKey(now) in Run(RewoundRun(now)).db.frames <==> now <= 500000
  {
    var w := EndOfRun(now);
    var back := Listen(w, Announce(0, 4));
    RunSnoc(FallbackRun(now), Announce(0, 4));
    Readmitted(w);
    AnchorOfFirst(now);
    StartKnown(FallbackRun(now) + [Announce(0, 4)], back);
    RewindSpares(back, now);
    RunSnoc(FallbackRun(now) + [Announce(0, 4)], Rewind());
  }
}
