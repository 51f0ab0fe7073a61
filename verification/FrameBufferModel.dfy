/**
 The frame buffer as a state machine: which packets are pending, what each operation hands to the
 flush callback, and what is left.
 */
module FrameBufferModel {
  import opened Options
  import opened Recency

  type SessionUid = nat
  type FrameId = nat
  type PacketId = nat

  const MAX_SESSIONS: nat := 20
  const FLUSH_INTERVAL_MS: real := 100.0

  /** The place of one packet: its session, frame and packet type. */
  datatype Slot = Slot(uid: SessionUid, frame: FrameId, id: PacketId)

  type Packets<P> = Dict<PacketId, P>
  type Frames<P> = Dict<FrameId, Packets<P>>

  /** One call of the flush callback. */
  datatype Delivery<P> = Delivery(uid: SessionUid, frame: FrameId, packets: Packets<P>)

  datatype Buffer<P> = Buffer(frames: Dict<SessionUid, Frames<P>>, current: Dict<SessionUid, FrameId>)

  datatype Outcome<P> = Outcome(buffer: Buffer<P>, delivered: seq<Delivery<P>>)

  datatype Op<P> =
    | Add(slot: Slot, packet: P)
    | Sweep
    | End(uid: SessionUid)
    | Discard(uid: SessionUid)

  function EmptyBuffer<P>(): Buffer<P> {
    Buffer(Empty(), Empty())
  }

  // ---------------------------------------------------------------------------------------------
  // Operations
  // ---------------------------------------------------------------------------------------------

  function FlushFrame<P>(b: Buffer<P>, uid: SessionUid, frame: FrameId): Outcome<P> {
    if uid !in b.frames.vals then Outcome(b, [])
    else
      var session := b.frames.vals[uid];
      var rest := Remove(session, frame);
      if frame !in session.vals || session.vals[frame].vals == map[]
      then Outcome(b.(frames := Put(b.frames, uid, rest)), [])
      else
        var left := if rest.vals == map[] then Remove(b.frames, uid) else Put(b.frames, uid, rest);
        Outcome(b.(frames := left), [Delivery(uid, frame, session.vals[frame])])
  }

  /** Flush the listed (session, frame) pairs in turn. */
  function FlushAll<P>(b: Buffer<P>, which: seq<(SessionUid, FrameId)>): Outcome<P>
    decreases which
  {
    if which == [] then Outcome(b, [])
    else
      var first := FlushFrame(b, which[0].0, which[0].1);
      var rest := FlushAll(first.buffer, which[1..]);
      Outcome(rest.buffer, first.delivered + rest.delivered)
  }

  /** The part of `add` that flushes the frame a higher one completes. */
  function Complete<P>(b: Buffer<P>, uid: SessionUid, frame: FrameId): Outcome<P> {
    if uid in b.current.vals && frame > b.current.vals[uid]
    then FlushFrame(b, uid, b.current.vals[uid])
    else Outcome(b, [])
  }

  function AddPacket<P>(b: Buffer<P>, slot: Slot, packet: P): Outcome<P> {
    var flushed := Complete(b, slot.uid, slot.frame);
    Outcome(Store(flushed.buffer, slot, packet), flushed.delivered)
  }

  /** The part of `add` after the flush of the completed frame. */
  function Store<P>(b: Buffer<P>, slot: Slot, packet: P): Buffer<P> {
    var frames := if slot.uid in b.frames.vals then b.frames else SetItem(b.frames, MAX_SESSIONS, slot.uid, Empty());
    var session := frames.vals[slot.uid];
    var packets := if slot.frame in session.vals then session.vals[slot.frame] else Empty();
    Buffer(Put(frames, slot.uid, Put(session, slot.frame, Put(packets, slot.id, packet))),
           SetItem(b.current, MAX_SESSIONS, slot.uid, slot.frame))
  }

  function StaleOf(uid: SessionUid, frames: seq<FrameId>, current: Option<FrameId>): seq<(SessionUid, FrameId)> {
    if frames == [] then []
    else (if Some(frames[0]) != current then [(uid, frames[0])] else []) + StaleOf(uid, frames[1..], current)
  }

  /** Every pending frame that is not its session's current one, in the order the sweep meets them. */
  function Stale<P>(b: Buffer<P>, uids: seq<SessionUid>): seq<(SessionUid, FrameId)> {
    if uids == [] then []
    else
      (if uids[0] in b.frames.vals
       then StaleOf(uids[0], b.frames.vals[uids[0]].order, Lookup(b.current.vals, uids[0]))
       else [])
      + Stale(b, uids[1..])
  }

  function SweepStale<P>(b: Buffer<P>): Outcome<P> {
    FlushAll(b, Stale(b, b.frames.order))
  }

  function InsertSorted(s: seq<nat>, x: nat): seq<nat> {
    if s == [] || x <= s[0] then [x] + s else [s[0]] + InsertSorted(s[1..], x)
  }

  function Sorted(s: seq<nat>): seq<nat> {
    if s == [] then [] else InsertSorted(Sorted(s[1..]), s[0])
  }

  function Tagged(uid: SessionUid, frames: seq<FrameId>): seq<(SessionUid, FrameId)> {
    seq(|frames|, i requires 0 <= i < |frames| => (uid, frames[i]))
  }

  function DiscardSession<P>(b: Buffer<P>, uid: SessionUid): Buffer<P> {
    Buffer(Remove(b.frames, uid), Remove(b.current, uid))
  }

  function FlushSession<P>(b: Buffer<P>, uid: SessionUid): Outcome<P> {
    if uid !in b.frames.vals then Outcome(b, [])
    else
      var flushed := FlushAll(b, Tagged(uid, Sorted(b.frames.vals[uid].order)));
      Outcome(DiscardSession(flushed.buffer, uid), flushed.delivered)
  }

  function Step<P>(b: Buffer<P>, op: Op<P>): Outcome<P> {
    match op
    case Add(slot, packet) => AddPacket(b, slot, packet)
    case Sweep => SweepStale(b)
    case End(uid) => FlushSession(b, uid)
    case Discard(uid) => Outcome(DiscardSession(b, uid), [])
  }

  // ---------------------------------------------------------------------------------------------
  // Structure kept by every operation
  // ---------------------------------------------------------------------------------------------

  ghost predicate SessionWellFormed<P>(session: Frames<P>) {
    && WellFormed(session)
    && forall f :: f in session.vals ==> WellFormed(session.vals[f]) && session.vals[f].vals != map[]
  }

  ghost predicate FramesWellFormed<P>(frames: Dict<SessionUid, Frames<P>>) {
    && WellFormed(frames) && |frames.order| <= MAX_SESSIONS
    && forall u :: u in frames.vals ==> SessionWellFormed(frames.vals[u]) && frames.vals[u].vals != map[]
  }

  /** At most MAX_SESSIONS sessions, no empty session entry and no empty frame entry. */
  ghost predicate Inv<P>(b: Buffer<P>) {
    FramesWellFormed(b.frames) && WellFormed(b.current) && |b.current.order| <= MAX_SESSIONS
  }

  lemma {:induction false} FlushFrameInv<P>(b: Buffer<P>, uid: SessionUid, frame: FrameId)
    requires Inv(b)
    ensures Inv(FlushFrame(b, uid, frame).buffer)
  {
    if uid in b.frames.vals {
      var session := b.frames.vals[uid];
      RemoveValid(session, frame);
      RemoveValid(b.frames, uid);
      PutValid(b.frames, uid, Remove(session, frame));
      if frame !in session.vals {
        assert Remove(session, frame).vals == session.vals;
      }
    }
  }

  lemma {:induction false} FlushAllInv<P>(b: Buffer<P>, which: seq<(SessionUid, FrameId)>)
    requires Inv(b)
    ensures Inv(FlushAll(b, which).buffer)
    decreases which
  {
    if which != [] {
      FlushFrameInv(b, which[0].0, which[0].1);
      FlushAllInv(FlushFrame(b, which[0].0, which[0].1).buffer, which[1..]);
    }
  }

  lemma {:induction false} DiscardInv<P>(b: Buffer<P>, uid: SessionUid)
    requires Inv(b)
    ensures Inv(DiscardSession(b, uid))
  {
    RemoveValid(b.frames, uid);
    RemoveValid(b.current, uid);
  }

  lemma {:induction false} PacketsPut<P>(session: Frames<P>, slot: Slot, packet: P) returns (session': Frames<P>)
    requires SessionWellFormed(session)
    ensures var packets := if slot.frame in session.vals then session.vals[slot.frame] else Empty();
            session' == Put(session, slot.frame, Put(packets, slot.id, packet))
    ensures SessionWellFormed(session') && session'.vals != map[]
  {
    var packets := if slot.frame in session.vals then session.vals[slot.frame] else Empty();
    PutValid(packets, slot.id, packet);
    assert slot.id in Put(packets, slot.id, packet).vals;
    PutValid(session, slot.frame, Put(packets, slot.id, packet));
    session' := Put(session, slot.frame, Put(packets, slot.id, packet));
    assert slot.frame in session'.vals;
  }

  lemma {:induction false} SessionPut<P>(frames: Dict<SessionUid, Frames<P>>, uid: SessionUid, session: Frames<P>)
    requires FramesWellFormed(frames) && SessionWellFormed(session) && session.vals != map[]
    ensures uid in frames.vals ==> FramesWellFormed(Put(frames, uid, session))
    ensures uid !in frames.vals ==> FramesWellFormed(Put(SetItem(frames, MAX_SESSIONS, uid, Empty()), uid, session))
  {
    if uid in frames.vals {
      PutValid(frames, uid, session);
    } else {
      SetItemValid(frames, MAX_SESSIONS, uid, session);
      SetItemThenPut(frames, MAX_SESSIONS, uid, Empty(), session);
    }
  }

  lemma {:induction false} SetItemThenPut<K, V>(d: Dict<K, V>, max: nat, k: K, v0: V, v: V)
    requires max >= 1
    ensures Put(SetItem(d, max, k, v0), k, v) == SetItem(d, max, k, v)
  {
  }

  lemma {:induction false} StoreInv<P>(b: Buffer<P>, slot: Slot, packet: P)
    requires Inv(b)
    ensures Inv(Store(b, slot, packet))
  {
    SetItemValid(b.current, MAX_SESSIONS, slot.uid, slot.frame);
    var session := if slot.uid in b.frames.vals then b.frames.vals[slot.uid] else Empty();
    var session' := PacketsPut(session, slot, packet);
    SessionPut(b.frames, slot.uid, session');
  }

  /** Every operation keeps the buffer bounded and free of empty entries. */
  lemma {:induction false} StepInv<P>(b: Buffer<P>, op: Op<P>)
    requires Inv(b)
    ensures Inv(Step(b, op).buffer)
  {
    match op
    case Add(slot, packet) =>
      if slot.uid in b.current.vals && slot.frame > b.current.vals[slot.uid] {
        FlushFrameInv(b, slot.uid, b.current.vals[slot.uid]);
        StoreInv(FlushFrame(b, slot.uid, b.current.vals[slot.uid]).buffer, slot, packet);
      } else {
        StoreInv(b, slot, packet);
      }
    case Sweep =>
      FlushAllInv(b, Stale(b, b.frames.order));
    case End(uid) =>
      if uid in b.frames.vals {
        var which := Tagged(uid, Sorted(b.frames.vals[uid].order));
        FlushAllInv(b, which);
        DiscardInv(FlushAll(b, which).buffer, uid);
      }
    case Discard(uid) =>
      DiscardInv(b, uid);
  }

  // ---------------------------------------------------------------------------------------------
  // What moves where
  // ---------------------------------------------------------------------------------------------

  /** The packet pending in a slot. */
  ghost function PendingAt<P>(b: Buffer<P>, s: Slot): Option<P> {
    if s.uid in b.frames.vals && s.frame in b.frames.vals[s.uid].vals
    then Lookup(b.frames.vals[s.uid].vals[s.frame].vals, s.id)
    else None
  }

  /** The packet of a slot handed over by the `i`-th delivery. */
  ghost function DeliveredAt<P>(log: seq<Delivery<P>>, i: nat, s: Slot): Option<P> {
    if i < |log| && log[i].uid == s.uid && log[i].frame == s.frame then Lookup(log[i].packets.vals, s.id) else None
  }

  /**
   From `b` to `b'` every slot either keeps its packet or gives it up to exactly one of the
   deliveries `ds`, and the deliveries carry nothing else.
   */
  ghost predicate Moved<P>(b: Buffer<P>, b': Buffer<P>, ds: seq<Delivery<P>>) {
    && (forall s: Slot :: PendingAt(b', s) == PendingAt(b, s)
                 || (PendingAt(b', s) == None && exists i: nat :: DeliveredAt(ds, i, s) == PendingAt(b, s)))
    && (forall i: nat, s: Slot ::
           DeliveredAt(ds, i, s).Some? ==> PendingAt(b, s) == DeliveredAt(ds, i, s) && PendingAt(b', s) == None)
    && (forall i: nat, j: nat, s: Slot :: i < j && DeliveredAt(ds, i, s).Some? ==> DeliveredAt(ds, j, s) == None)
  }

  /** One frame taken out of the buffer and delivered at once. */
  ghost predicate FrameTaken<P>(b: Buffer<P>, b': Buffer<P>, ds: seq<Delivery<P>>, uid: SessionUid, frame: FrameId,
          s: Slot) {
    if s.uid == uid && s.frame == frame
    then PendingAt(b', s) == None && DeliveredAt(ds, 0, s) == PendingAt(b, s)
    else PendingAt(b', s) == PendingAt(b, s) && DeliveredAt(ds, 0, s) == None
  }

  lemma {:induction false} FlushFrameAt<P>(b: Buffer<P>, uid: SessionUid, frame: FrameId, s: Slot)
    requires uid in b.frames.vals && frame in b.frames.vals[uid].vals ==> b.frames.vals[uid].vals[frame].vals != map[]
    ensures FrameTaken(b, FlushFrame(b, uid, frame).buffer, FlushFrame(b, uid, frame).delivered, uid, frame, s)
  {
    if uid in b.frames.vals {
      var session := b.frames.vals[uid];
      var frames' := FlushFrame(b, uid, frame).buffer.frames.vals;
      var rest := session.vals - {frame};
      if s.uid != uid {
        assert Lookup(frames', s.uid) == Lookup(b.frames.vals, s.uid);
      } else if frame in session.vals && rest == map[] {
        assert s.uid !in frames';
        assert s.frame in session.vals ==> s.frame == frame || s.frame in rest;
      } else {
        assert frames'[s.uid].vals == rest;
        assert s.frame != frame ==> Lookup(rest, s.frame) == Lookup(session.vals, s.frame);
      }
    }
  }

  lemma {:induction false} FrameTakenMoves<P>(b: Buffer<P>, b': Buffer<P>, ds: seq<Delivery<P>>, uid: SessionUid,
          frame: FrameId)
    requires |ds| <= 1 && forall s: Slot :: FrameTaken(b, b', ds, uid, frame, s)
    ensures Moved(b, b', ds)
    ensures forall s: Slot :: PendingAt(b', s) == if s.uid == uid && s.frame == frame then None else PendingAt(b, s)
  {
    forall s: Slot
      ensures PendingAt(b', s) == if s.uid == uid && s.frame == frame then None else PendingAt(b, s)
      ensures DeliveredAt(ds, 0, s) == if s.uid == uid && s.frame == frame then PendingAt(b, s) else None
    {
      assert FrameTaken(b, b', ds, uid, frame, s);
    }
    forall i: nat, s: Slot
      ensures i > 0 ==> DeliveredAt(ds, i, s) == None
    {
    }
  }

  lemma {:induction false} FlushFrameMoves<P>(b: Buffer<P>, uid: SessionUid, frame: FrameId)
    requires Inv(b)
    ensures Moved(b, FlushFrame(b, uid, frame).buffer, FlushFrame(b, uid, frame).delivered)
    ensures forall s: Slot :: PendingAt(FlushFrame(b, uid, frame).buffer, s)
                           == if s.uid == uid && s.frame == frame then None else PendingAt(b, s)
  {
    var o := FlushFrame(b, uid, frame);
    forall s: Slot
      ensures FrameTaken(b, o.buffer, o.delivered, uid, frame, s)
    {
      FlushFrameAt(b, uid, frame, s);
    }
    FrameTakenMoves(b, o.buffer, o.delivered, uid, frame);
  }

  lemma {:induction false} MovedTrans<P>(b0: Buffer<P>, b1: Buffer<P>, b2: Buffer<P>, d1: seq<Delivery<P>>,
          d2: seq<Delivery<P>>)
    requires Moved(b0, b1, d1) && Moved(b1, b2, d2)
    ensures Moved(b0, b2, d1 + d2)
  {
    forall i: nat, s: Slot
      ensures DeliveredAt(d1 + d2, i, s) == if i < |d1| then DeliveredAt(d1, i, s) else DeliveredAt(d2, i - |d1|, s)
    {
    }
    forall s: Slot
      ensures PendingAt(b2, s) == PendingAt(b0, s)
           || (PendingAt(b2, s) == None && exists i: nat :: DeliveredAt(d1 + d2, i, s) == PendingAt(b0, s))
    {
      if PendingAt(b1, s) != PendingAt(b0, s) {
        var i: nat :| DeliveredAt(d1, i, s) == PendingAt(b0, s);
        assert DeliveredAt(d1 + d2, i, s) == PendingAt(b0, s);
      } else if PendingAt(b2, s) != PendingAt(b1, s) {
        var i: nat :| DeliveredAt(d2, i, s) == PendingAt(b1, s);
        assert DeliveredAt(d1 + d2, |d1| + i, s) == PendingAt(b0, s);
      }
    }
  }

  lemma {:induction false} FlushAllMoves<P>(b: Buffer<P>, which: seq<(SessionUid, FrameId)>)
    requires Inv(b)
    ensures Moved(b, FlushAll(b, which).buffer, FlushAll(b, which).delivered)
    decreases which
  {
    if which != [] {
      var (u, f) := which[0];
      var first := FlushFrame(b, u, f);
      FlushFrameInv(b, u, f);
      FlushFrameMoves(b, u, f);
      FlushAllMoves(first.buffer, which[1..]);
      MovedTrans(b, first.buffer, FlushAll(b, which).buffer, first.delivered,
          FlushAll(first.buffer, which[1..]).delivered);
    }
  }

  lemma {:induction false} FlushAllPending<P>(b: Buffer<P>, which: seq<(SessionUid, FrameId)>, s: Slot)
    requires Inv(b)
    ensures PendingAt(FlushAll(b, which).buffer, s) == if (s.uid, s.frame) in which then None else PendingAt(b, s)
    decreases which
  {
    if which != [] {
      var (u, f) := which[0];
      FlushFrameInv(b, u, f);
      FlushFrameMoves(b, u, f);
      FlushAllPending(FlushFrame(b, u, f).buffer, which[1..], s);
      assert which == [which[0]] + which[1..];
      assert (s.uid, s.frame) in which <==> (s.uid, s.frame) == (u, f) || (s.uid, s.frame) in which[1..];
    }
  }

  // ---------------------------------------------------------------------------------------------
  // The sweep
  // ---------------------------------------------------------------------------------------------

  /** The session's last packet was of this frame. */
  ghost predicate IsCurrent<P>(b: Buffer<P>, uid: SessionUid, frame: FrameId) {
    uid in b.current.vals && b.current.vals[uid] == frame
  }

  /** Of every session what was pending for its current frame, and nothing else, is still pending. */
  ghost predicate OnlyCurrentLeft<P>(b: Buffer<P>, b': Buffer<P>) {
    forall s: Slot :: PendingAt(b', s) == if IsCurrent(b, s.uid, s.frame) then PendingAt(b, s) else None
  }

  lemma {:induction false} StaleOfMembers(uid: SessionUid, frames: seq<FrameId>, current: Option<FrameId>,
          u: SessionUid, f: FrameId)
    ensures (u, f) in StaleOf(uid, frames, current) <==> u == uid && f in frames && current != Some(f)
    decreases frames
  {
    if frames != [] {
      StaleOfMembers(uid, frames[1..], current, u, f);
      assert frames == [frames[0]] + frames[1..];
      assert f in frames <==> f == frames[0] || f in frames[1..];
    }
  }

  lemma {:induction false} StaleMembers<P>(b: Buffer<P>, uids: seq<SessionUid>, u: SessionUid, f: FrameId)
    ensures (u, f) in Stale(b, uids)
       <==> u in uids && u in b.frames.vals && f in b.frames.vals[u].order && Lookup(b.current.vals, u) != Some(f)
    decreases uids
  {
    if uids != [] {
      var uid := uids[0];
      StaleMembers(b, uids[1..], u, f);
      if uid in b.frames.vals {
        StaleOfMembers(uid, b.frames.vals[uid].order, Lookup(b.current.vals, uid), u, f);
      }
      assert uids == [uid] + uids[1..];
      assert u in uids <==> u == uid || u in uids[1..];
    }
  }

  /**
   A sweep takes the frames of every session: what is pending afterwards is what was pending for each session's
   current frame, and all else has been handed over.
   */
  lemma {:induction false} SweepTakesAllButCurrent<P>(b: Buffer<P>)
    requires Inv(b)
    ensures OnlyCurrentLeft(b, SweepStale(b).buffer)
    ensures Moved(b, SweepStale(b).buffer, SweepStale(b).delivered)
    ensures SweepStale(b).buffer.current == b.current
  {
    FlushAllMoves(b, Stale(b, b.frames.order));
    FlushAllKeepsCurrent(b, Stale(b, b.frames.order));
    forall s: Slot
      ensures PendingAt(SweepStale(b).buffer, s) == if IsCurrent(b, s.uid, s.frame) then PendingAt(b, s) else None
    {
      FlushAllPending(b, Stale(b, b.frames.order), s);
      StaleMembers(b, b.frames.order, s.uid, s.frame);
      if PendingAt(b, s).Some? {
        assert s.uid in Members(b.frames.order);
        assert s.frame in Members(b.frames.vals[s.uid].order);
      }
    }
  }

  /** Of every session only its current frame is left, and all else has been handed over. */
  ghost predicate IsSwept<P>(b: Buffer<P>, b': Buffer<P>, ds: seq<Delivery<P>>) {
    OnlyCurrentLeft(b, b') && Moved(b, b', ds)
  }

  lemma {:induction false} SweepSweeps<P>(b: Buffer<P>, b': Buffer<P>, ds: seq<Delivery<P>>)
    requires Inv(b) && Outcome(b', ds) == SweepStale(b)
    ensures IsSwept(b, b', ds)
  {
    SweepTakesAllButCurrent(b);
  }

  lemma {:induction false} FlushAllKeepsCurrent<P>(b: Buffer<P>, which: seq<(SessionUid, FrameId)>)
    ensures FlushAll(b, which).buffer.current == b.current
    decreases which
  {
    if which != [] {
      FlushAllKeepsCurrent(FlushFrame(b, which[0].0, which[0].1).buffer, which[1..]);
    }
  }

  // ---------------------------------------------------------------------------------------------
  // Sorting the frames of a session
  // ---------------------------------------------------------------------------------------------

  ghost predicate Ascending(s: seq<nat>) {
    forall i, j :: 0 <= i < j < |s| ==> s[i] <= s[j]
  }

  lemma {:induction false} InsertMembers(s: seq<nat>, x: nat)
    ensures multiset(InsertSorted(s, x)) == multiset(s) + multiset{x}
  {
    if s != [] && x > s[0] {
      InsertMembers(s[1..], x);
      assert s == [s[0]] + s[1..];
    }
  }

  lemma {:induction false} InsertSorts(s: seq<nat>, x: nat)
    requires Ascending(s)
    ensures Ascending(InsertSorted(s, x))
  {
    if s != [] && x > s[0] {
      var t := InsertSorted(s[1..], x);
      InsertSorts(s[1..], x);
      InsertMembers(s[1..], x);
      forall i | 0 <= i < |t|
        ensures s[0] <= t[i]
      {
        assert t[i] in multiset(t);
        assert t[i] == x || t[i] in s[1..];
      }
      LeastFirst(s[0], t);
    } else {
      LeastFirst(x, s);
    }
  }

  lemma {:induction false} LeastFirst(x: nat, s: seq<nat>)
    requires Ascending(s) && forall i :: 0 <= i < |s| ==> x <= s[i]
    ensures Ascending([x] + s)
  {
  }

  /** `flush_session` delivers a session's frames in ascending order, each once. */
  lemma {:induction false} SortedSorts(s: seq<nat>)
    ensures Ascending(Sorted(s)) && multiset(Sorted(s)) == multiset(s)
  {
    if s != [] {
      SortedSorts(s[1..]);
      InsertSorts(Sorted(s[1..]), s[0]);
      InsertMembers(Sorted(s[1..]), s[0]);
      assert s == [s[0]] + s[1..];
    }
  }

  lemma {:induction false} SortedMembers(s: seq<nat>, x: nat)
    ensures x in Sorted(s) <==> x in s
  {
    SortedSorts(s);
    assert x in Sorted(s) <==> x in multiset(Sorted(s));
  }

  lemma {:induction false} TaggedMembers(uid: SessionUid, frames: seq<FrameId>, f: FrameId)
    requires f in frames
    ensures (uid, f) in Tagged(uid, frames)
  {
    var i :| 0 <= i < |frames| && frames[i] == f;
    assert Tagged(uid, frames)[i] == (uid, f);
  }

  /** A session-end flush hands over everything pending for the session: the final pops lose nothing. */
  lemma {:induction false} FlushSessionMoves<P>(b: Buffer<P>, uid: SessionUid)
    requires Inv(b)
    ensures Moved(b, FlushSession(b, uid).buffer, FlushSession(b, uid).delivered)
    ensures uid !in FlushSession(b, uid).buffer.frames.vals
  {
    if uid in b.frames.vals {
      var which := Tagged(uid, Sorted(b.frames.vals[uid].order));
      var o := FlushAll(b, which);
      FlushAllMoves(b, which);
      forall s: Slot
        ensures PendingAt(DiscardSession(o.buffer, uid), s) == PendingAt(o.buffer, s)
      {
        DiscardedAfterFlush(b, uid, s);
      }
    }
  }

  /** The deliveries are of the session's frames, each but once and in ascending order. */
  ghost predicate InAscendingOrder<P>(ds: seq<Delivery<P>>, uid: SessionUid) {
    && (forall i :: 0 <= i < |ds| ==> ds[i].uid == uid)
    && (forall i, j :: 0 <= i < j < |ds| ==> ds[i].frame < ds[j].frame)
  }

  lemma {:induction false} OneBefore<P>(first: seq<Delivery<P>>, rest: seq<Delivery<P>>, uid: SessionUid,
          frame: FrameId)
    requires |first| <= 1 && forall d :: d in first ==> d.uid == uid && d.frame == frame
    requires InAscendingOrder(rest, uid) && forall d :: d in rest ==> frame < d.frame
    ensures InAscendingOrder(first + rest, uid)
  {
    forall i | 0 <= i < |first|
      ensures first[i].uid == uid && first[i].frame == frame
    {
      assert first[i] in first;
    }
    forall i | 0 <= i < |rest|
      ensures frame < rest[i].frame
    {
      assert rest[i] in rest;
    }
  }

  lemma {:induction false} FlushedOne<P>(b: Buffer<P>, uid: SessionUid, frame: FrameId)
    ensures |FlushFrame(b, uid, frame).delivered| <= 1
    ensures forall d :: d in FlushFrame(b, uid, frame).delivered ==> d.uid == uid && d.frame == frame
  {
  }

  /** Flushed one by one, frames are handed over in the order they are listed in. */
  lemma {:induction false} FlushAllInOrder<P>(b: Buffer<P>, uid: SessionUid, frames: seq<FrameId>)
    requires forall i, j :: 0 <= i < j < |frames| ==> frames[i] < frames[j]
    ensures InAscendingOrder(FlushAll(b, Tagged(uid, frames)).delivered, uid)
    ensures forall d :: d in FlushAll(b, Tagged(uid, frames)).delivered ==> d.frame in frames
    decreases frames
  {
    if frames != [] {
      assert Tagged(uid, frames)[1..] == Tagged(uid, frames[1..]);
      var first := FlushFrame(b, uid, frames[0]);
      FlushedOne(b, uid, frames[0]);
      FlushAllInOrder(first.buffer, uid, frames[1..]);
      OneBefore(first.delivered, FlushAll(first.buffer, Tagged(uid, frames[1..])).delivered, uid, frames[0]);
    }
  }

  lemma {:induction false} SortedStrictly(s: seq<nat>)
    requires NoDup(s)
    ensures forall i, j :: 0 <= i < j < |Sorted(s)| ==> Sorted(s)[i] < Sorted(s)[j]
  {
    SortedSorts(s);
    forall i, j | 0 <= i < j < |Sorted(s)|
      ensures Sorted(s)[i] < Sorted(s)[j]
    {
      if Sorted(s)[i] == Sorted(s)[j] {
        OccursTwice(Sorted(s), i, j);
        OccursOnce(s, Sorted(s)[i]);
      }
    }
  }

  lemma {:induction false} OccursTwice(s: seq<nat>, i: nat, j: nat)
    requires i < j < |s| && s[i] == s[j]
    ensures multiset(s)[s[i]] >= 2
  {
    assert s == s[..j] + [s[j]] + s[j + 1..];
    assert s[i] in s[..j] by {
      assert s[..j][i] == s[i];
    }
  }

  lemma {:induction false} OccursOnce(s: seq<nat>, x: nat)
    requires NoDup(s)
    ensures multiset(s)[x] <= 1
  {
    if s != [] {
      assert s == [s[0]] + s[1..];
      OccursOnce(s[1..], x);
      assert s[0] !in s[1..];
    }
  }

  /** At a session's end its frames are handed over in ascending order. */
  lemma {:induction false} FlushSessionAscends<P>(b: Buffer<P>, uid: SessionUid)
    requires Inv(b)
    ensures InAscendingOrder(FlushSession(b, uid).delivered, uid)
  {
    if uid in b.frames.vals {
      SortedStrictly(b.frames.vals[uid].order);
      FlushAllInOrder(b, uid, Sorted(b.frames.vals[uid].order));
    }
  }

  lemma {:induction false} DiscardedAfterFlush<P>(b: Buffer<P>, uid: SessionUid, s: Slot)
    requires Inv(b) && uid in b.frames.vals
    ensures var flushed := FlushAll(b, Tagged(uid, Sorted(b.frames.vals[uid].order))).buffer;
            PendingAt(DiscardSession(flushed, uid), s) == PendingAt(flushed, s)
  {
    FlushAllPending(b, Tagged(uid, Sorted(b.frames.vals[uid].order)), s);
    if s.uid == uid && PendingAt(b, s).Some? {
      assert s.frame in Members(b.frames.vals[uid].order);
      SortedMembers(b.frames.vals[uid].order, s.frame);
      TaggedMembers(uid, Sorted(b.frames.vals[uid].order), s.frame);
    }
  }
}
