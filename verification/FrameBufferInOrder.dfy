/**
 The frame buffer under the stream the game sends: frame identifiers that never fall within a
 session, and no more than 20 sessions. It then behaves like one slot per session.
 */
module FrameBufferInOrder {
  import opened Options
  import opened Recency
  import opened FrameBufferModel

  ghost function Run<P>(hist: seq<Op<P>>): Buffer<P> {
    if hist == [] then EmptyBuffer() else Step(Run(hist[..|hist| - 1]), hist[|hist| - 1]).buffer
  }

  /** What the `i`-th operation of a history hands to the flush callback. */
  ghost function DeliveredBy<P>(hist: seq<Op<P>>, i: nat): seq<Delivery<P>>
    requires i < |hist|
  {
    Step(Run(hist[..i]), hist[i]).delivered
  }

  ghost function SessionsOf<P>(hist: seq<Op<P>>): set<SessionUid> {
    set i | 0 <= i < |hist| && hist[i].Add? :: hist[i].slot.uid
  }

  /** Frame identifiers never fall within a session. */
  ghost predicate InOrder<P>(hist: seq<Op<P>>) {
    forall i, j :: 0 <= i < j < |hist| && hist[i].Add? && hist[j].Add? && hist[i].slot.uid == hist[j].slot.uid
      ==> hist[i].slot.frame <= hist[j].slot.frame
  }

  ghost predicate Closes<P>(op: Op<P>, uid: SessionUid) {
    (op.End? || op.Discard?) && op.uid == uid
  }

  /** The frame last added to for a session, unless the session was closed since. */
  ghost function Open<P>(hist: seq<Op<P>>, uid: SessionUid): Option<FrameId> {
    if hist == [] then None
    else
      var last := hist[|hist| - 1];
      if last.Add? && last.slot.uid == uid then Some(last.slot.frame)
      else if Closes(last, uid) then None
      else Open(hist[..|hist| - 1], uid)
  }

  /** The last packet that arrived for a slot since its session was last closed. */
  ghost function Arrived<P>(hist: seq<Op<P>>, s: Slot): Option<P> {
    if hist == [] then None
    else
      var last := hist[|hist| - 1];
      if last.Add? && last.slot == s then Some(last.packet)
      else if Closes(last, s.uid) then None
      else Arrived(hist[..|hist| - 1], s)
  }

  ghost predicate Carries<P>(packets: Packets<P>, hist: seq<Op<P>>, uid: SessionUid, frame: FrameId) {
    forall id :: Lookup(packets.vals, id) == Arrived(hist, Slot(uid, frame, id))
  }

  /** The buffer holds, for each open session, its last frame with the packets that arrived for it. */
  ghost predicate OneSlot<P>(hist: seq<Op<P>>, b: Buffer<P>, uid: SessionUid) {
    match Open(hist, uid)
    case None =>
      uid !in b.frames.vals && uid !in b.current.vals
    case Some(f) =>
      && uid in b.current.vals && b.current.vals[uid] == f
      && uid in b.frames.vals && b.frames.vals[uid].order == [f] && f in b.frames.vals[uid].vals
      && Carries(b.frames.vals[uid].vals[f], hist, uid, f)
  }

  ghost predicate OneSlotEach<P>(hist: seq<Op<P>>, b: Buffer<P>) {
    && Inv(b)
    && (forall u :: OneSlot(hist, b, u))
    && b.frames.vals.Keys <= SessionsOf(hist)
    && b.current.vals.Keys <= SessionsOf(hist)
  }

  lemma {:induction false} OpenWasAdded<P>(hist: seq<Op<P>>, uid: SessionUid) returns (i: nat)
    requires Open(hist, uid).Some?
    ensures i < |hist| && hist[i].Add? && hist[i].slot.uid == uid && hist[i].slot.frame == Open(hist, uid).value
  {
    var n := |hist| - 1;
    if hist[n].Add? && hist[n].slot.uid == uid {
      i := n;
    } else {
      i := OpenWasAdded(hist[..n], uid);
    }
  }

  lemma {:induction false} SessionsGrow<P>(hist: seq<Op<P>>, op: Op<P>)
    ensures SessionsOf(hist + [op]) == SessionsOf(hist) + if op.Add? then {op.slot.uid} else {}
  {
    forall u | u in SessionsOf(hist) + if op.Add? then {op.slot.uid} else {}
      ensures u in SessionsOf(hist + [op])
    {
      if u in SessionsOf(hist) {
        var i :| 0 <= i < |hist| && hist[i].Add? && hist[i].slot.uid == u;
        assert (hist + [op])[i] == hist[i];
      } else {
        assert (hist + [op])[|hist|] == op;
      }
    }
  }

  /** With few enough sessions, a write of a session never evicts another one. */
  lemma {:induction false} RoomFor<K, V>(d: Dict<K, V>, sessions: set<K>, k: K)
    requires WellFormed(d) && d.vals.Keys <= sessions && k in sessions && |sessions| <= MAX_SESSIONS && k !in d.vals
    ensures |d.order| < MAX_SESSIONS
  {
    MembersCount(d.order);
    assert Members(d.order) <= sessions - {k};
    SubsetCount(Members(d.order), sessions - {k});
  }

  // ---------------------------------------------------------------------------------------------
  // One operation
  // ---------------------------------------------------------------------------------------------

  /** What an operation hands over: the open frame, if the operation completes or ends it. */
  ghost predicate Hands<P>(hist: seq<Op<P>>, op: Op<P>, ds: seq<Delivery<P>>) {
    if (op.Add? && Open(hist, op.slot.uid).Some? && Open(hist, op.slot.uid).value < op.slot.frame)
       || (op.End? && Open(hist, op.uid).Some?)
    then
      var uid := if op.Add? then op.slot.uid else op.uid;
      && |ds| == 1 && ds[0].uid == uid && ds[0].frame == Open(hist, uid).value
      && Carries(ds[0].packets, hist, uid, ds[0].frame)
    else
      ds == []
  }

  ghost predicate About<P>(op: Op<P>, uid: SessionUid) {
    match op
    case Add(slot, _) => slot.uid == uid
    case Sweep => false
    case End(u) => u == uid
    case Discard(u) => u == uid
  }

  lemma {:induction false} OtherSession<P>(hist: seq<Op<P>>, op: Op<P>, b: Buffer<P>, b': Buffer<P>, v: SessionUid)
    requires OneSlot(hist, b, v) && !About(op, v)
    requires Lookup(b'.frames.vals, v) == Lookup(b.frames.vals, v)
    requires Lookup(b'.current.vals, v) == Lookup(b.current.vals, v)
    ensures OneSlot(hist + [op], b', v)
  {
  }

  lemma {:induction false} NothingStale<P>(hist: seq<Op<P>>, b: Buffer<P>, uids: seq<SessionUid>)
    requires forall u :: OneSlot(hist, b, u)
    ensures Stale(b, uids) == []
  {
    if uids != [] {
      NothingStale(hist, b, uids[1..]);
      var u := uids[0];
      assert OneSlot(hist, b, u);
      if u in b.frames.vals {
        assert b.frames.vals[u].order[1..] == [];
        assert StaleOf(u, b.frames.vals[u].order, Lookup(b.current.vals, u)) == [];
      }
    }
  }

  lemma {:induction false} FlushOpen<P>(hist: seq<Op<P>>, b: Buffer<P>, uid: SessionUid)
    requires Inv(b) && OneSlot(hist, b, uid) && Open(hist, uid).Some?
    ensures var o := FlushFrame(b, uid, Open(hist, uid).value);
            && o.buffer == b.(frames := Remove(b.frames, uid))
            && |o.delivered| == 1
            && o.delivered[0] == Delivery(uid, Open(hist, uid).value, b.frames.vals[uid].vals[Open(hist, uid).value])
  {
  }

  lemma {:induction false} RemoveTwice<K, V>(d: Dict<K, V>, k: K)
    ensures Remove(Remove(d, k), k) == Remove(d, k)
  {
    WithoutMembers(d.order, k);
    assert k !in Members(Without(d.order, k));
    WithoutMembers(Without(d.order, k), k);
    assert (d.vals - {k}) - {k} == d.vals - {k};
  }

  lemma {:induction false} RemoveAbsent<K, V>(d: Dict<K, V>, k: K)
    requires WellFormed(d) && k !in d.vals
    ensures Remove(d, k) == d
  {
    WithoutMembers(d.order, k);
    assert k !in Members(d.order);
    assert d.vals - {k} == d.vals;
  }

  lemma {:induction false} FlushOne<P>(b: Buffer<P>, uid: SessionUid, f: FrameId)
    ensures FlushAll(b, Tagged(uid, Sorted([f]))) == FlushFrame(b, uid, f)
  {
  }

  lemma {:induction false} EndStep<P>(hist: seq<Op<P>>, b: Buffer<P>, uid: SessionUid)
    requires OneSlotEach(hist, b)
    ensures Hands(hist, Op.End(uid), FlushSession(b, uid).delivered)
    ensures FlushSession(b, uid).buffer == DiscardSession(b, uid)
  {
    assert OneSlot(hist, b, uid);
    if uid in b.frames.vals {
      FlushOpen(hist, b, uid);
      FlushOne(b, uid, Open(hist, uid).value);
      RemoveTwice(b.frames, uid);
    } else {
      RemoveAbsent(b.frames, uid);
      RemoveAbsent(b.current, uid);
    }
  }

  lemma {:induction false} CloseStep<P>(hist: seq<Op<P>>, op: Op<P>, b: Buffer<P>, uid: SessionUid)
    requires OneSlotEach(hist, b) && Closes(op, uid)
    ensures OneSlotEach(hist + [op], DiscardSession(b, uid))
  {
    var b' := DiscardSession(b, uid);
    DiscardInv(b, uid);
    SessionsGrow(hist, op);
    forall v
      ensures OneSlot(hist + [op], b', v)
    {
      if v == uid {
        assert Open(hist + [op], v) == None;
      } else {
        assert OneSlot(hist, b, v);
        OtherSession(hist, op, b, b', v);
      }
    }
  }

  /** The session's open frame is the slot's and holds `kept`, or nothing is pending for it. */
  ghost predicate Storable<P>(hist: seq<Op<P>>, b: Buffer<P>, slot: Slot, kept: Packets<P>) {
    && Inv(b) && (forall v :: v != slot.uid ==> OneSlot(hist, b, v))
    && b.frames.vals.Keys <= SessionsOf(hist) && b.current.vals.Keys <= SessionsOf(hist)
    && (if slot.uid in b.frames.vals
        then b.frames.vals[slot.uid].order == [slot.frame] && slot.frame in b.frames.vals[slot.uid].vals
             && kept == b.frames.vals[slot.uid].vals[slot.frame]
        else kept == Empty())
    && Carries(kept, hist, slot.uid, slot.frame)
  }

  /** A packet for the open frame, or for a session with nothing pending. */
  lemma {:induction false} StoreStep<P>(hist: seq<Op<P>>, b: Buffer<P>, slot: Slot, packet: P, kept: Packets<P>)
    requires Storable(hist, b, slot, kept) && InOrder(hist + [Add(slot, packet)])
    requires |SessionsOf(hist + [Add(slot, packet)])| <= MAX_SESSIONS
    ensures OneSlotEach(hist + [Add(slot, packet)], Store(b, slot, packet))
  {
    var op := Add(slot, packet);
    var b' := Store(b, slot, packet);
    var hist' := hist + [op];
    assert hist'[..|hist|] == hist;
    SessionsGrow(hist, op);
    StoreInv(b, slot, packet);
    if slot.uid !in b.frames.vals {
      RoomFor(b.frames, SessionsOf(hist'), slot.uid);
    }
    if slot.uid !in b.current.vals {
      RoomFor(b.current, SessionsOf(hist'), slot.uid);
    }
    forall v
      ensures OneSlot(hist', b', v)
    {
      if v != slot.uid {
        assert OneSlot(hist, b, v);
        OtherSession(hist, op, b, b', v);
      } else {
        StoredPackets(hist, b, slot, packet, kept);
      }
    }
  }

  lemma {:induction false} StoredPackets<P>(hist: seq<Op<P>>, b: Buffer<P>, slot: Slot, packet: P, kept: Packets<P>)
    requires if slot.uid in b.frames.vals
             then b.frames.vals[slot.uid].order == [slot.frame] && slot.frame in b.frames.vals[slot.uid].vals
                  && kept == b.frames.vals[slot.uid].vals[slot.frame]
             else kept == Empty()
    requires Carries(kept, hist, slot.uid, slot.frame)
    ensures OneSlot(hist + [Add(slot, packet)], Store(b, slot, packet), slot.uid)
  {
  }

  lemma {:induction false} EmptyCarries<P>(hist: seq<Op<P>>, slot: Slot, packet: P)
    requires InOrder(hist + [Add(slot, packet)])
    requires Open(hist, slot.uid) == None || Open(hist, slot.uid).value < slot.frame
    ensures Carries(Empty(), hist, slot.uid, slot.frame)
  {
    var hist' := hist + [Add(slot, packet)];
    assert forall i :: 0 <= i < |hist| ==> hist'[i] == hist[i];
    forall id
      ensures Arrived(hist, Slot(slot.uid, slot.frame, id)) == None
    {
      NothingNew(hist, Slot(slot.uid, slot.frame, id));
    }
  }

  lemma {:induction false} NothingNew<P>(hist: seq<Op<P>>, s: Slot)
    requires InOrder(hist)
    requires Open(hist, s.uid) == None || Open(hist, s.uid).value < s.frame
    ensures Arrived(hist, s) == None
  {
    if hist != [] {
      var n := |hist| - 1;
      if !Closes(hist[n], s.uid) {
        if hist[n].Add? && hist[n].slot.uid == s.uid {
          if Open(hist[..n], s.uid).Some? {
            var i := OpenWasAdded(hist[..n], s.uid);
            assert hist[i] == hist[..n][i];
          }
        }
        NothingNew(hist[..n], s);
      }
    }
  }

  /** A packet of a higher frame completes the open one. */
  lemma {:induction false} CompletesOpen<P>(hist: seq<Op<P>>, b: Buffer<P>, slot: Slot, packet: P)
    requires OneSlotEach(hist, b) && InOrder(hist + [Add(slot, packet)])
    requires Open(hist, slot.uid).Some? && Open(hist, slot.uid).value < slot.frame
    ensures var o := Complete(b, slot.uid, slot.frame);
            Storable(hist, o.buffer, slot, Empty()) && Hands(hist, Add(slot, packet), o.delivered)
  {
    var u, c := slot.uid, Open(hist, slot.uid).value;
    assert OneSlot(hist, b, u);
    FlushOpen(hist, b, u);
    FlushFrameInv(b, u, c);
    var b1 := FlushFrame(b, u, c).buffer;
    forall v | v != u
      ensures OneSlot(hist, b1, v)
    {
      assert OneSlot(hist, b, v);
      assert Lookup(b1.frames.vals, v) == Lookup(b.frames.vals, v);
    }
    EmptyCarries(hist, slot, packet);
  }

  lemma {:induction false} NeverOlder<P>(hist: seq<Op<P>>, slot: Slot, packet: P)
    requires InOrder(hist + [Add(slot, packet)]) && Open(hist, slot.uid).Some?
    ensures Open(hist, slot.uid).value <= slot.frame
  {
    var i := OpenWasAdded(hist, slot.uid);
    assert (hist + [Add(slot, packet)])[i] == hist[i];
    assert (hist + [Add(slot, packet)])[|hist|] == Add(slot, packet);
  }

  lemma {:induction false} ContinuesOpen<P>(hist: seq<Op<P>>, b: Buffer<P>, slot: Slot, packet: P)
    returns (kept: Packets<P>)
    requires OneSlotEach(hist, b) && InOrder(hist + [Add(slot, packet)])
    requires Open(hist, slot.uid).Some? && Open(hist, slot.uid).value >= slot.frame
    ensures Complete(b, slot.uid, slot.frame) == Outcome(b, []) && Storable(hist, b, slot, kept)
  {
    assert OneSlot(hist, b, slot.uid);
    NeverOlder(hist, slot, packet);
    kept := b.frames.vals[slot.uid].vals[slot.frame];
  }

  lemma {:induction false} OpensFirst<P>(hist: seq<Op<P>>, b: Buffer<P>, slot: Slot, packet: P)
    requires OneSlotEach(hist, b) && InOrder(hist + [Add(slot, packet)]) && Open(hist, slot.uid).None?
    ensures Complete(b, slot.uid, slot.frame) == Outcome(b, []) && Storable(hist, b, slot, Empty())
  {
    assert OneSlot(hist, b, slot.uid);
    EmptyCarries(hist, slot, packet);
  }

  lemma {:induction false} AddStep<P>(hist: seq<Op<P>>, b: Buffer<P>, slot: Slot, packet: P)
    requires OneSlotEach(hist, b) && InOrder(hist + [Add(slot, packet)])
    requires |SessionsOf(hist + [Add(slot, packet)])| <= MAX_SESSIONS
    ensures OneSlotEach(hist + [Add(slot, packet)], AddPacket(b, slot, packet).buffer)
    ensures Hands(hist, Add(slot, packet), AddPacket(b, slot, packet).delivered)
  {
    var o, kept := Complete(b, slot.uid, slot.frame), Empty();
    if Open(hist, slot.uid).None? {
      OpensFirst(hist, b, slot, packet);
    } else if Open(hist, slot.uid).value < slot.frame {
      CompletesOpen(hist, b, slot, packet);
    } else {
      kept := ContinuesOpen(hist, b, slot, packet);
    }
    StoreStep(hist, o.buffer, slot, packet, kept);
  }

  lemma {:induction false} OneSlotStep<P>(hist: seq<Op<P>>, op: Op<P>, b: Buffer<P>)
    requires OneSlotEach(hist, b) && InOrder(hist + [op])
    requires |SessionsOf(hist + [op])| <= MAX_SESSIONS
    ensures OneSlotEach(hist + [op], Step(b, op).buffer)
    ensures Hands(hist, op, Step(b, op).delivered)
  {
    match op
    case Add(slot, packet) =>
      AddStep(hist, b, slot, packet);
    case Sweep =>
      NothingStale(hist, b, b.frames.order);
      SessionsGrow(hist, op);
      forall v
        ensures OneSlot(hist + [op], b, v)
      {
        assert OneSlot(hist, b, v);
        OtherSession(hist, op, b, b, v);
      }
    case End(uid) =>
      EndStep(hist, b, uid);
      CloseStep(hist, op, b, uid);
    case Discard(uid) =>
      CloseStep(hist, op, b, uid);
  }

  // ---------------------------------------------------------------------------------------------
  // Whole runs
  // ---------------------------------------------------------------------------------------------

  /**
   Refinement: over any in-order history of at most 20 sessions the buffer holds, per
   open session, exactly its last frame with the last packet of each type that arrived for it.
   */
  lemma {:induction false} OnlyCurrentFramePending<P>(hist: seq<Op<P>>)
    requires InOrder(hist) && |SessionsOf(hist)| <= 20
    ensures OneSlotEach(hist, Run(hist))
  {
    if hist == [] {
    } else {
      var n := |hist| - 1;
      assert hist == hist[..n] + [hist[n]];
      SessionsGrow(hist[..n], hist[n]);
      SubsetCount(SessionsOf(hist[..n]), SessionsOf(hist));
      OnlyCurrentFramePending(hist[..n]);
      OneSlotStep(hist[..n], hist[n], Run(hist[..n]));
    }
  }

  /**
   Each operation delivers at most one frame: the open frame of its session, when a higher frame
   or the session's end completes it, carrying the last packet of each type that arrived for it.
   The periodic sweep and a discard deliver nothing.
   */
  lemma {:induction false} DeliversTheCompletedFrame<P>(hist: seq<Op<P>>, i: nat)
    requires i < |hist| && InOrder(hist) && |SessionsOf(hist)| <= 20
    ensures Hands(hist[..i], hist[i], DeliveredBy(hist, i))
  {
    assert hist[..i + 1] == hist[..i] + [hist[i]];
    PrefixSessions(hist, i);
    PrefixSessions(hist, i + 1);
    OnlyCurrentFramePending(hist[..i]);
    OneSlotStep(hist[..i], hist[i], Run(hist[..i]));
  }

  lemma {:induction false} PrefixSessions<P>(hist: seq<Op<P>>, n: nat)
    requires n <= |hist|
    ensures |SessionsOf(hist[..n])| <= |SessionsOf(hist)|
  {
    forall u | u in SessionsOf(hist[..n])
      ensures u in SessionsOf(hist)
    {
      var i :| 0 <= i < n && hist[..n][i].Add? && hist[..n][i].slot.uid == u;
      assert hist[i].slot.uid == u;
    }
    SubsetCount(SessionsOf(hist[..n]), SessionsOf(hist));
  }

  /** Between session-end flushes a session's frames are delivered in strictly increasing order, so none twice. */
  lemma {:induction false} DeliveriesIncrease<P>(hist: seq<Op<P>>, i: nat, j: nat)
    requires i < j < |hist| && InOrder(hist) && |SessionsOf(hist)| <= 20
    requires |DeliveredBy(hist, i)| == 1 && |DeliveredBy(hist, j)| == 1
    requires DeliveredBy(hist, i)[0].uid == DeliveredBy(hist, j)[0].uid
    requires hist[i] != End(DeliveredBy(hist, i)[0].uid)
    ensures DeliveredBy(hist, i)[0].frame < DeliveredBy(hist, j)[0].frame
  {
    var uid := DeliveredBy(hist, i)[0].uid;
    CompletedByHigher(hist, i);
    CompletedIsOpen(hist, j);
    assert hist[..j][i] == hist[i];
    OpenIsLatest(hist[..j], uid, i);
  }

  /** Outside session ends, it is a higher frame of the same session that completes a frame. */
  lemma {:induction false} CompletedByHigher<P>(hist: seq<Op<P>>, i: nat)
    requires i < |hist| && InOrder(hist) && |SessionsOf(hist)| <= 20
    requires |DeliveredBy(hist, i)| == 1 && hist[i] != End(DeliveredBy(hist, i)[0].uid)
    ensures hist[i].Add? && hist[i].slot.uid == DeliveredBy(hist, i)[0].uid
    ensures DeliveredBy(hist, i)[0].frame < hist[i].slot.frame
  {
    DeliversTheCompletedFrame(hist, i);
  }

  lemma {:induction false} CompletedIsOpen<P>(hist: seq<Op<P>>, j: nat)
    requires j < |hist| && InOrder(hist) && |SessionsOf(hist)| <= 20
    requires |DeliveredBy(hist, j)| == 1
    ensures Open(hist[..j], DeliveredBy(hist, j)[0].uid) == Some(DeliveredBy(hist, j)[0].frame)
  {
    DeliversTheCompletedFrame(hist, j);
  }

  lemma {:induction false} OpenIsLatest<P>(hist: seq<Op<P>>, uid: SessionUid, i: nat)
    requires Open(hist, uid).Some? && i < |hist| && hist[i].Add? && hist[i].slot.uid == uid && InOrder(hist)
    ensures hist[i].slot.frame <= Open(hist, uid).value
  {
    var n := |hist| - 1;
    if hist[n].Add? && hist[n].slot.uid == uid {
    } else {
      OpenIsLatest(hist[..n], uid, i);
    }
  }
}
