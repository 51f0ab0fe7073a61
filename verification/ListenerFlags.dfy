/**
 The race flags over runs with any number of sessions: a flag is kept, and a started race stays started,
 while fewer than two hundred other flags are written; a forgotten flag reads as started; and what is stored is
 of sessions under way or without a flag.
 */
module ListenerFlags {
  import opened Options
  import opened Recency
  import opened FrameBufferModel
  import opened FrameTables
  import opened AnchorCache
  import opened CarFrames
  import opened Listener
  import opened ListenerTables
  import opened ListenerRaces

  type Flags = Dict<SessionUid, bool>

  ghost predicate Holds(d: Flags, u: SessionUid) {
    WellFormed(d) && |d.order| <= RACE_FLAGS && u in d.vals
  }

  /** Writing flags of the sessions in `s` leaves `u`'s in place, and true if it was, unless too many are newer. */
  ghost predicate Keeps(d: Flags, d': Flags, u: SessionUid, s: set<SessionUid>) {
    Holds(d, u) && |After(d.order, u) + s| < RACE_FLAGS ==>
      Holds(d', u) && After(d'.order, u) <= After(d.order, u) + s && (d.vals[u] ==> d'.vals[u])
  }

  lemma {:induction false} KeepsSame(d: Flags, u: SessionUid, s: set<SessionUid>)
    ensures Keeps(d, d, u, s)
  {
  }

  lemma {:induction false} KeepsThen(d: Flags, e: Flags, f: Flags, u: SessionUid, s: set<SessionUid>,
          t: set<SessionUid>)
    requires Keeps(d, e, u, s) && Keeps(e, f, u, t)
    ensures Keeps(d, f, u, s + t)
  {
    if Holds(d, u) && |After(d.order, u) + (s + t)| < RACE_FLAGS {
      SubsetCount(After(d.order, u) + s, After(d.order, u) + (s + t));
      SubsetCount(After(e.order, u) + t, After(d.order, u) + (s + t));
    }
  }

  lemma {:induction false} WriteKeeps(d: Flags, k: SessionUid, value: bool, u: SessionUid)
    requires k == u ==> value
    ensures Keeps(d, SetItem(d, RACE_FLAGS, k, value), u, {k})
  {
    if Holds(d, u) && |After(d.order, u) + {k}| < RACE_FLAGS {
      SetItemValid(d, RACE_FLAGS, k, value);
      assert u in Members(d.order);
      if k == u {
        AfterTouchSelf(d.order, RACE_FLAGS, u);
      } else {
        OtherWriteKeeps(d, k, value, u);
      }
    }
  }

  lemma {:induction false} OtherWriteKeeps(d: Flags, k: SessionUid, value: bool, u: SessionUid)
    requires k != u && Holds(d, u) && |After(d.order, u) + {k}| < RACE_FLAGS
    ensures u in SetItem(d, RACE_FLAGS, k, value).vals
    ensures After(SetItem(d, RACE_FLAGS, k, value).order, u) <= After(d.order, u) + {k}
  {
    var d' := SetItem(d, RACE_FLAGS, k, value);
    SetItemValid(d, RACE_FLAGS, k, value);
    assert u in Members(d.order);
    assert k in d.vals <==> k in Members(d.order);
    if k !in d.order {
      AfterWithin(d.order, u);
      assert k !in Members(d.order);
      assert |After(d.order, u) + {k}| == |After(d.order, u)| + 1;
    }
    AfterTouch(d.order, RACE_FLAGS, u, k);
    assert u in Members(d'.order);
  }

  // ---------------------------------------------------------------------------------------------
  // A step
  // ---------------------------------------------------------------------------------------------

  lemma {:induction false} MarkKeeps(p: Process, uid: SessionUid, u: SessionUid)
    ensures Keeps(p.raceStarted, MarkStarted(p, uid).raceStarted, u, {uid})
  {
    WriteKeeps(p.raceStarted, uid, true, u);
  }

  lemma {:induction false} DeliverKeeps(w: World, d: Delivery<CarPacket>, now: Instant, u: SessionUid)
    ensures Keeps(w.process.raceStarted, Deliver(w, d, now).process.raceStarted, u, Racing(w.process, [d]))
    ensures Deliver(w, d, now).process.userMaps == w.process.userMaps
  {
    DeliverProcess(w, d, now);
    RacingOne(w.process, d);
    if Racing(w.process, [d]) != {} {
      MarkKeeps(w.process, d.uid, u);
    }
  }

  lemma {:induction false} DeliverAllKeeps(w: World, ds: seq<Delivery<CarPacket>>, now: Instant, u: SessionUid)
    ensures Keeps(w.process.raceStarted, DeliverAll(w, ds, now).process.raceStarted, u, Racing(w.process, ds))
    ensures DeliverAll(w, ds, now).process.userMaps == w.process.userMaps
    decreases ds
  {
    if ds != [] {
      var w1 := Deliver(w, ds[0], now);
      DeliverKeeps(w, ds[0], now, u);
      DeliverAllKeeps(w1, ds[1..], now, u);
      RacingSplit(w.process, w1.process, ds);
      KeepsThen(w.process.raceStarted, w1.process.raceStarted, DeliverAll(w, ds, now).process.raceStarted, u,
                Racing(w.process, [ds[0]]), Racing(w1.process, ds[1..]));
    }
  }

  lemma {:induction false} BufferedKeeps(w: World, o: Outcome<CarPacket>, now: Instant, u: SessionUid)
    ensures Keeps(w.process.raceStarted, Buffered(w, o, now).process.raceStarted, u, Racing(w.process, o.delivered))
    ensures Buffered(w, o, now).process.userMaps == w.process.userMaps
  {
    var w0 := w.(process := w.process.(buffer := o.buffer));
    DeliverAllKeeps(w0, o.delivered, now, u);
    SameRacing(w0.process, w.process, o.delivered);
  }

  lemma {:induction false} AddKeeps(w: World, slot: Slot, data: CarPacket, now: Instant, u: SessionUid)
      returns (w1: World)
    ensures var o := AddPacket(w.process.buffer, slot, data);
            && w1 == Buffered(w, o, now) && w1.process.userMaps == w.process.userMaps
            && w1.process.buffer == o.buffer && w1.process.lastFlush == w.process.lastFlush
            && Keeps(w.process.raceStarted, w1.process.raceStarted, u, Racing(w.process, o.delivered))
  {
    var o := AddPacket(w.process.buffer, slot, data);
    w1 := Buffered(w, o, now);
    BufferedKeeps(w, o, now, u);
    DeliverAllKeepsBuffer(w.(process := w.process.(buffer := o.buffer)), o.delivered, now);
  }

  lemma {:induction false} SweepKeeps(w: World, now: Instant, clock: real, u: SessionUid)
    requires !((clock - w.process.lastFlush) * 1000.0 < FLUSH_INTERVAL_MS)
    ensures Keeps(w.process.raceStarted, PeriodicSweep(w, now, clock).process.raceStarted, u,
                  Racing(w.process, SweepStale(w.process.buffer).delivered))
  {
    var w0 := w.(process := w.process.(lastFlush := clock));
    BufferedKeeps(w0, SweepStale(w.process.buffer), now, u);
    SameRacing(w0.process, w.process, SweepStale(w.process.buffer).delivered);
  }

  lemma {:induction false} CarDataKeeps(w: World, slot: Slot, data: CarPacket, now: Instant, clock: real, u: SessionUid)
    requires Lookup(w.process.userMaps.vals, slot.uid).GetOr(map[]) != map[]
    ensures var o := AddPacket(w.process.buffer, slot, data);
            var swept := if (clock - w.process.lastFlush) * 1000.0 < FLUSH_INTERVAL_MS then []
                else SweepStale(o.buffer).delivered;
            Keeps(w.process.raceStarted, HandleCarData(w, slot, data, now, clock).process.raceStarted, u,
                  Racing(w.process, o.delivered + swept))
  {
    var o := AddPacket(w.process.buffer, slot, data);
    var w1 := AddKeeps(w, slot, data, now, u);
    if (clock - w.process.lastFlush) * 1000.0 < FLUSH_INTERVAL_MS {
      assert o.delivered + [] == o.delivered;
    } else {
      var swept := SweepStale(o.buffer).delivered;
      SweepKeeps(w1, now, clock, u);
      SameRacing(w1.process, w.process, swept);
      RacingConcat(w.process, o.delivered, swept);
      KeepsThen(w.process.raceStarted, w1.process.raceStarted, PeriodicSweep(w1, now, clock).process.raceStarted, u,
                Racing(w.process, o.delivered), Racing(w.process, swept));
    }
  }

  lemma {:induction false} DeliverAllKeepsBuffer(w: World, ds: seq<Delivery<CarPacket>>, now: Instant)
    ensures DeliverAll(w, ds, now).process.buffer == w.process.buffer
    ensures DeliverAll(w, ds, now).process.lastFlush == w.process.lastFlush
  {
    ListenerRaces.DeliverAllKeeps(w, ds, now);
  }

  /** The sessions an input may write the flag of: the one it announces, and those it shows to be under way. */
  ghost function Written(w: World, input: Input): set<SessionUid> {
    Signals(w, input) + if input.Receive? && input.packet.SessionInfo? then {input.packet.uid} else {}
  }

  lemma {:induction false} SessionKeeps(w: World, uid: SessionUid, sessionType: nat, time: real, now: Instant,
          u: SessionUid)
    ensures Keeps(w.process.raceStarted, HandleSession(w, uid, sessionType, time, now).process.raceStarted, u, {uid})
  {
    if uid !in w.process.raceStarted.vals && u != uid {
      WriteKeeps(w.process.raceStarted, uid, sessionType !in RACE_SESSION_TYPES, u);
    } else {
      KeepsSame(w.process.raceStarted, u, {uid});
    }
  }

  lemma {:induction false} KeepsMore(d: Flags, d': Flags, u: SessionUid, s: set<SessionUid>, t: set<SessionUid>)
    requires Keeps(d, d', u, s) && s <= t
    ensures Keeps(d, d', u, t)
  {
    if Holds(d, u) && |After(d.order, u) + t| < RACE_FLAGS {
      SubsetCount(After(d.order, u) + s, After(d.order, u) + t);
    }
  }

  lemma {:induction false} ListenKeeps(w: World, input: Input, u: SessionUid)
    requires input.Receive?
    ensures Keeps(w.process.raceStarted, Listen(w, input).process.raceStarted, u, Written(w, input))
  {
    var flags := w.process.raceStarted;
    if input.packet.Uid() in w.process.excluded
        || (!input.packet.SessionInfo? && input.packet.Uid() !in w.process.caches.known) {
      ListenIgnored(w, input);
      KeepsSame(flags, u, Written(w, input));
    } else if input.packet.SessionInfo? {
      if input.packet.sessionType in EXCLUDED_SESSION_TYPES {
        ListenExcluded(w, input);
        KeepsSame(flags, u, Written(w, input));
      } else {
        ListenSession(w, input);
        SessionKeeps(w, input.packet.uid, input.packet.sessionType, input.packet.time, input.now, u);
        KeepsMore(flags, Listen(w, input).process.raceStarted, u, {input.packet.uid}, Written(w, input));
      }
    } else {
      KnownKeeps(w, input, u);
    }
  }

  lemma {:induction false} KnownKeeps(w: World, input: Input, u: SessionUid)
    requires input.Receive? && !input.packet.SessionInfo?
    requires input.packet.Uid() !in w.process.excluded && input.packet.Uid() in w.process.caches.known
    ensures Keeps(w.process.raceStarted, Listen(w, input).process.raceStarted, u, Written(w, input))
  {
    match input.packet
    case LightsOut(uid) => MarkKeeps(w.process, uid, u);
    case FormationLapOver(uid) => MarkKeeps(w.process, uid, u);
    case SessionEnd(uid) =>
      ListenEnd(w, input);
      BufferedKeeps(w, FlushSession(w.process.buffer, uid), input.now, u);
    case CarData(slot, data) =>
      if Lookup(w.process.userMaps.vals, slot.uid).GetOr(map[]) == map[] {
        ListenUnmapped(w, input);
        KeepsSame(w.process.raceStarted, u, Written(w, input));
      } else {
        ListenCarData(w, input);
        CarDataKeeps(w, slot, data, input.now, input.clock, u);
      }
    case Participants(_, _, _) | Flashback(_, _) | Lobby(_) | Other(_) =>
      KeepsSame(w.process.raceStarted, u, Written(w, input));
  }

  // ---------------------------------------------------------------------------------------------
  // Whole runs
  // ---------------------------------------------------------------------------------------------

  /** The sessions whose flags the inputs from number `n` on may have written. */
  ghost function WrittenSince(inputs: seq<Input>, n: nat): set<SessionUid>
    requires n <= |inputs|
  {
    if n == |inputs| then {}
    else WrittenSince(inputs[..|inputs| - 1], n) + Written(Run(inputs[..|inputs| - 1]), inputs[|inputs| - 1])
  }

  lemma {:induction false} RunKeeps(inputs: seq<Input>, d: Flags, n: nat, u: SessionUid)
    requires n <= |inputs| && forall i :: n <= i < |inputs| ==> inputs[i].Receive?
    requires d == Run(inputs[..n]).process.raceStarted
    ensures Keeps(d, Run(inputs).process.raceStarted, u, WrittenSince(inputs, n))
  {
    if n == |inputs| {
      assert inputs[..n] == inputs;
      KeepsSame(d, u, {});
    } else {
      assert inputs[..|inputs| - 1][..n] == inputs[..n];
      RunKeeps(inputs[..|inputs| - 1], d, n, u);
      LastKeeps(inputs, d, n, u);
    }
  }

  lemma {:induction false} LastKeeps(inputs: seq<Input>, d: Flags, n: nat, u: SessionUid)
    requires n < |inputs| && inputs[|inputs| - 1].Receive?
    requires Keeps(d, Run(inputs[..|inputs| - 1]).process.raceStarted, u, WrittenSince(inputs[..|inputs| - 1], n))
    ensures Keeps(d, Run(inputs).process.raceStarted, u, WrittenSince(inputs, n))
  {
    var w, last := Run(inputs[..|inputs| - 1]), inputs[|inputs| - 1];
    ListenKeeps(w, last, u);
    KeepsThen(d, w.process.raceStarted, Listen(w, last).process.raceStarted, u, WrittenSince(inputs[..|inputs| - 1], n),
        Written(w, last));
  }

  /**
   Within a process, with any number of sessions: a started session stays started, its flag in the cache, as
   long as the flags newer than its own and those written since are of fewer than two hundred sessions.
   */
  lemma {:induction false} StartedStaysStarted(inputs: seq<Input>, n: nat, u: SessionUid)
    requires n <= |inputs| && forall i :: n <= i < |inputs| ==> inputs[i].Receive?
    requires Holds(Run(inputs[..n]).process.raceStarted, u) && Run(inputs[..n]).process.raceStarted.vals[u]
    requires |After(Run(inputs[..n]).process.raceStarted.order, u) + WrittenSince(inputs, n)| < 200
    ensures Lookup(Run(inputs).process.raceStarted.vals, u) == Some(true)
  {
    RunKeeps(inputs, Run(inputs[..n]).process.raceStarted, n, u);
  }

  /** A race whose flag is forgotten stores frames as if it had started. */
  lemma {:induction false} ForgottenFlagReadsAsStarted(w: World, d: Delivery<CarPacket>, now: Instant)
    requires !Skipped(w.process, d) && Combined(d.packets) && d.uid !in w.process.raceStarted.vals
    ensures Deliver(w, d, now).db == WriteTick(w, TickOf(w.process, d, now), d.packets).db
  {
    StoredDelivery(w, d, now);
  }

  // ---------------------------------------------------------------------------------------------
  // What is stored
  // ---------------------------------------------------------------------------------------------

  /** The frame is not skipped, and its session's flag is not in the cache. */
  ghost predicate IsUnflagged(p: Process, d: Delivery<CarPacket>) {
    !Skipped(p, d) && d.uid !in FlagsAfter(p, d).raceStarted.vals
  }

  /** The sessions with such a frame, each seen after the frames before it. */
  ghost function Unflagged(p: Process, ds: seq<Delivery<CarPacket>>): set<SessionUid>
    decreases ds
  {
    if ds == [] then {}
    else (if IsUnflagged(p, ds[0]) then {ds[0].uid} else {}) + Unflagged(FlagsAfter(p, ds[0]), ds[1..])
  }

  /** The sessions of which a frame was ever flushed with their flag missing. */
  ghost function EverUnflagged(inputs: seq<Input>): set<SessionUid> {
    if inputs == [] then {}
    else
      var earlier, last := inputs[..|inputs| - 1], inputs[|inputs| - 1];
      EverUnflagged(earlier) + Unflagged(Run(earlier).process, Flushed(Run(earlier), last))
  }

  /** A flag is true only for a session under way; rows are of such sessions, or of those flushed with no flag. */
  ghost predicate StoredSound(w: World, ever: set<SessionUid>, missing: set<SessionUid>) {
    && (forall u :: u in w.process.raceStarted.vals && w.process.raceStarted.vals[u] ==> u in ever)
    && RowsWithin(w.db, ever + missing)
  }

  lemma {:induction false} WiderSound(w: World, ever: set<SessionUid>, missing: set<SessionUid>, ever': set<SessionUid>,
          missing': set<SessionUid>)
    requires StoredSound(w, ever, missing) && ever <= ever' && missing <= missing'
    ensures StoredSound(w, ever', missing')
  {
  }

  lemma {:induction false} MarkStored(p: Process, uid: SessionUid)
    ensures forall u :: u in MarkStarted(p, uid).raceStarted.vals && MarkStarted(p, uid).raceStarted.vals[u]
              ==> u == uid || (u in p.raceStarted.vals && p.raceStarted.vals[u])
  {
  }

  lemma {:induction false} DeliverStored(w: World, d: Delivery<CarPacket>, now: Instant, ever: set<SessionUid>,
          missing: set<SessionUid>)
    requires StoredSound(w, ever, missing)
    ensures var p := w.process;
            StoredSound(Deliver(w, d, now), ever + Racing(p, [d]), missing + if IsUnflagged(p, d) then {d.uid} else {})
  {
    var p := w.process;
    var ever', missing' := ever + Racing(p, [d]), missing + if IsUnflagged(p, d) then {d.uid} else {};
    RacingOne(p, d);
    MarkStored(p, d.uid);
    DeliverView(w, d, now);
    WiderSound(w, ever, missing, ever', missing');
    DeliverRows(w, d, now, ever' + missing');
  }

  lemma {:induction false} SameUnflagged(p: Process, q: Process, ds: seq<Delivery<CarPacket>>)
    requires SameView(p, q)
    ensures Unflagged(p, ds) == Unflagged(q, ds) && SameView(FlagsAfterAll(p, ds), FlagsAfterAll(q, ds))
    decreases ds
  {
    if ds != [] {
      SameUnflagged(FlagsAfter(p, ds[0]), FlagsAfter(q, ds[0]), ds[1..]);
    }
  }

  lemma {:induction false} UnflaggedInBoth(p: Process, a: seq<Delivery<CarPacket>>, b: seq<Delivery<CarPacket>>)
    ensures Unflagged(p, a + b) == Unflagged(p, a) + Unflagged(FlagsAfterAll(p, a), b)
    decreases a
  {
    if a == [] {
      assert a + b == b;
    } else {
      assert (a + b)[0] == a[0] && (a + b)[1..] == a[1..] + b;
      UnflaggedInBoth(FlagsAfter(p, a[0]), a[1..], b);
    }
  }

  lemma {:induction false} DeliverAllStored(w: World, ds: seq<Delivery<CarPacket>>, now: Instant, ever: set<SessionUid>,
          missing: set<SessionUid>)
    requires StoredSound(w, ever, missing)
    ensures StoredSound(DeliverAll(w, ds, now), ever + Racing(w.process, ds), missing + Unflagged(w.process, ds))
    ensures SameView(DeliverAll(w, ds, now).process, FlagsAfterAll(w.process, ds))
    decreases ds
  {
    if ds == [] {
      assert ever + Racing(w.process, ds) == ever && missing + Unflagged(w.process, ds) == missing;
    } else {
      var p, w1 := w.process, Deliver(w, ds[0], now);
      var lost := if IsUnflagged(p, ds[0]) then {ds[0].uid} else {};
      DeliverStored(w, ds[0], now, ever, missing);
      DeliverView(w, ds[0], now);
      SameUnflagged(w1.process, FlagsAfter(p, ds[0]), ds[1..]);
      DeliverAllStored(w1, ds[1..], now, ever + Racing(p, [ds[0]]), missing + lost);
      RacingSplit(p, w1.process, ds);
      assert ever + Racing(p, ds) == ever + Racing(p, [ds[0]]) + Racing(w1.process, ds[1..]);
      assert missing + Unflagged(p, ds) == missing + lost + Unflagged(w1.process, ds[1..]);
    }
  }

  lemma {:induction false} BufferedStored(w: World, o: Outcome<CarPacket>, now: Instant, ever: set<SessionUid>,
          missing: set<SessionUid>)
    requires StoredSound(w, ever, missing)
    ensures StoredSound(Buffered(w, o, now), ever + Racing(w.process, o.delivered),
                        missing + Unflagged(w.process, o.delivered))
    ensures SameView(Buffered(w, o, now).process, FlagsAfterAll(w.process, o.delivered))
  {
    var w0 := w.(process := w.process.(buffer := o.buffer));
    DeliverAllStored(w0, o.delivered, now, ever, missing);
    SameRacing(w0.process, w.process, o.delivered);
    SameUnflagged(w0.process, w.process, o.delivered);
  }

  lemma {:induction false} SweepStored(w: World, now: Instant, clock: real, ever: set<SessionUid>,
          missing: set<SessionUid>)
    requires StoredSound(w, ever, missing) && !((clock - w.process.lastFlush) * 1000.0 < FLUSH_INTERVAL_MS)
    ensures var ds := SweepStale(w.process.buffer).delivered;
            StoredSound(PeriodicSweep(w, now, clock), ever + Racing(w.process, ds), missing + Unflagged(w.process, ds))
  {
    var w0 := w.(process := w.process.(lastFlush := clock));
    BufferedStored(w0, SweepStale(w.process.buffer), now, ever, missing);
    SameRacing(w0.process, w.process, SweepStale(w.process.buffer).delivered);
    SameUnflagged(w0.process, w.process, SweepStale(w.process.buffer).delivered);
  }

  lemma {:induction false} AddStored(w: World, slot: Slot, data: CarPacket, now: Instant, ever: set<SessionUid>,
          missing: set<SessionUid>)
    returns (w1: World)
    requires StoredSound(w, ever, missing)
    ensures var o := AddPacket(w.process.buffer, slot, data);
            && w1 == Buffered(w, o, now) && w1.process.userMaps == w.process.userMaps
            && w1.process.buffer == o.buffer && w1.process.lastFlush == w.process.lastFlush
            && SameView(w1.process, FlagsAfterAll(w.process, o.delivered))
            && StoredSound(w1, ever + Racing(w.process, o.delivered), missing + Unflagged(w.process, o.delivered))
  {
    var o := AddPacket(w.process.buffer, slot, data);
    w1 := AddKeeps(w, slot, data, now, slot.uid);
    BufferedStored(w, o, now, ever, missing);
  }

  lemma {:induction false} UnflaggedInTwo(p: Process, q: Process, a: seq<Delivery<CarPacket>>,
          b: seq<Delivery<CarPacket>>, missing: set<SessionUid>)
    requires SameView(q, FlagsAfterAll(p, a))
    ensures missing + Unflagged(p, a) + Unflagged(q, b) == missing + Unflagged(p, a + b)
  {
    SameUnflagged(q, FlagsAfterAll(p, a), b);
    UnflaggedInBoth(p, a, b);
  }

  lemma {:induction false} CarDataStored(w: World, slot: Slot, data: CarPacket, now: Instant, clock: real,
          ever: set<SessionUid>, missing: set<SessionUid>)
    requires StoredSound(w, ever, missing) && Lookup(w.process.userMaps.vals, slot.uid).GetOr(map[]) != map[]
    ensures var o := AddPacket(w.process.buffer, slot, data);
            var swept := if (clock - w.process.lastFlush) * 1000.0 < FLUSH_INTERVAL_MS then []
                         else SweepStale(o.buffer).delivered;
            StoredSound(HandleCarData(w, slot, data, now, clock), ever + Racing(w.process, o.delivered + swept),
                        missing + Unflagged(w.process, o.delivered + swept))
  {
    var o := AddPacket(w.process.buffer, slot, data);
    var w1 := AddStored(w, slot, data, now, ever, missing);
    if (clock - w.process.lastFlush) * 1000.0 < FLUSH_INTERVAL_MS {
      assert o.delivered + [] == o.delivered;
    } else {
      var swept := SweepStale(o.buffer).delivered;
      SweepStored(w1, now, clock, ever + Racing(w.process, o.delivered), missing + Unflagged(w.process, o.delivered));
      RacingInTwo(w.process, w1.process, o.delivered, swept, ever);
      UnflaggedInTwo(w.process, w1.process, o.delivered, swept, missing);
    }
  }

  lemma {:induction false} SessionStored(w: World, input: Input, ever: set<SessionUid>, missing: set<SessionUid>)
    requires StoredSound(w, ever, missing) && input.Receive? && input.packet.SessionInfo?
    requires input.packet.Uid() !in w.process.excluded && input.packet.sessionType !in EXCLUDED_SESSION_TYPES
    ensures StoredSound(Listen(w, input), ever + Signals(w, input), missing)
  {
    ListenSession(w, input);
  }

  lemma {:induction false} QuietStored(w: World, input: Input, ever: set<SessionUid>, missing: set<SessionUid>)
    requires StoredSound(w, ever, missing) && input.Receive?
    requires input.packet.Uid() !in w.process.excluded && input.packet.Uid() in w.process.caches.known
    requires !input.packet.SessionInfo? && !input.packet.SessionEnd? && !input.packet.CarData?
    ensures StoredSound(Listen(w, input), ever + Signals(w, input), missing)
  {
    MarkStored(w.process, input.packet.uid);
  }

  lemma {:induction false} KnownStored(w: World, input: Input, ever: set<SessionUid>, missing: set<SessionUid>)
    requires StoredSound(w, ever, missing) && input.Receive? && !input.packet.SessionInfo?
    requires input.packet.Uid() !in w.process.excluded && input.packet.Uid() in w.process.caches.known
    ensures StoredSound(Listen(w, input), ever + Signals(w, input), missing + Unflagged(w.process, Flushed(w, input)))
  {
    assert missing + {} == missing && ever + {} == ever;
    if input.packet.SessionEnd? {
      ListenEnd(w, input);
      BufferedStored(w, FlushSession(w.process.buffer, input.packet.uid), input.now, ever, missing);
    } else if !input.packet.CarData? {
      QuietStored(w, input, ever, missing);
    } else if Lookup(w.process.userMaps.vals, input.packet.slot.uid).GetOr(map[]) == map[] {
      ListenUnmapped(w, input);
    } else {
      ListenCarData(w, input);
      CarDataStored(w, input.packet.slot, input.packet.packet, input.now, input.clock, ever, missing);
    }
  }

  lemma {:induction false} ListenStored(w: World, input: Input, ever: set<SessionUid>, missing: set<SessionUid>)
    requires StoredSound(w, ever, missing)
    ensures StoredSound(Listen(w, input), ever + Signals(w, input), missing + Unflagged(w.process, Flushed(w, input)))
  {
    assert missing + {} == missing && ever + {} == ever;
    if input.Receive? {
      if input.packet.Uid() in w.process.excluded
          || (!input.packet.SessionInfo? && input.packet.Uid() !in w.process.caches.known) {
        ListenIgnored(w, input);
      } else if !input.packet.SessionInfo? {
        KnownStored(w, input, ever, missing);
      } else if input.packet.sessionType in EXCLUDED_SESSION_TYPES {
        ListenExcluded(w, input);
      } else {
        SessionStored(w, input, ever, missing);
      }
    }
  }

  lemma {:induction false} RunStored(inputs: seq<Input>)
    ensures StoredSound(Run(inputs), EverUnderWay(inputs), EverUnflagged(inputs))
  {
    if inputs != [] {
      var earlier, last := inputs[..|inputs| - 1], inputs[|inputs| - 1];
      RunStored(earlier);
      ListenStored(Run(earlier), last, EverUnderWay(earlier), EverUnflagged(earlier));
    }
  }

  /**
   Over any run, with any number of sessions and restarts: every frame and damage row is of a session shown to be
   under way, or of one a frame of which was flushed while its flag was missing.
   */
  lemma {:induction false} StoredOnlyUnderWayOrUnflagged(inputs: seq<Input>)
    ensures forall k :: k in Run(inputs).db.frames ==> k.uid in EverUnderWay(inputs) + EverUnflagged(inputs)
    ensures forall k :: k in Run(inputs).db.damage ==> k.uid in EverUnderWay(inputs) + EverUnflagged(inputs)
  {
    RunStored(inputs);
  }
}
