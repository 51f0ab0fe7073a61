/**
 Whole runs of the frame buffer: every packet added has exactly one fate, and under an in-order
 stream the buffer is a one-frame-per-session slot.
 */
module FrameBufferRuns {
  import opened Options
  import opened Recency
  import opened FrameBufferModel

  /** A new session entering a full buffer pushes out the session whose entry is oldest. */
  ghost predicate Evicts<P>(b: Buffer<P>, incoming: SessionUid, victim: SessionUid) {
    incoming !in b.frames.vals && |b.frames.order| >= 20 && victim == b.frames.order[0]
  }

  lemma {:induction false} StoreAt<P>(b: Buffer<P>, slot: Slot, packet: P, s: Slot)
    requires Inv(b)
    ensures PendingAt(Store(b, slot, packet), s)
         == if s == slot then Some(packet)
            else if Evicts(b, slot.uid, s.uid) then None
            else PendingAt(b, s)
  {
  }

  /** The flush inside `add` never turns an addition into one that evicts, or the other way round. */
  lemma {:induction false} CompleteKeepsEviction<P>(b: Buffer<P>, uid: SessionUid, frame: FrameId, victim: SessionUid)
    requires Inv(b)
    ensures Evicts(Complete(b, uid, frame).buffer, uid, victim) == Evicts(b, uid, victim)
  {
    var frames := Complete(b, uid, frame).buffer.frames;
    if uid in b.frames.vals && uid !in frames.vals {
      RemoveValid(b.frames, uid);
      assert frames == Remove(b.frames, uid);
    }
  }

  lemma {:induction false} CompleteMoves<P>(b: Buffer<P>, slot: Slot)
    requires Inv(b)
    ensures Inv(Complete(b, slot.uid, slot.frame).buffer)
    ensures Moved(b, Complete(b, slot.uid, slot.frame).buffer, Complete(b, slot.uid, slot.frame).delivered)
    ensures PendingAt(Complete(b, slot.uid, slot.frame).buffer, slot) == PendingAt(b, slot)
  {
    if slot.uid in b.current.vals && slot.frame > b.current.vals[slot.uid] {
      FlushFrameInv(b, slot.uid, b.current.vals[slot.uid]);
      FlushFrameMoves(b, slot.uid, b.current.vals[slot.uid]);
    }
  }

  lemma {:induction false} AddAt<P>(b: Buffer<P>, slot: Slot, packet: P, s: Slot)
    requires Inv(b)
    ensures PendingAt(AddPacket(b, slot, packet).buffer, s)
         == if s == slot then Some(packet)
            else if Evicts(b, slot.uid, s.uid) then None
            else PendingAt(Complete(b, slot.uid, slot.frame).buffer, s)
  {
    CompleteMoves(b, slot);
    StoreAt(Complete(b, slot.uid, slot.frame).buffer, slot, packet, s);
    CompleteKeepsEviction(b, slot.uid, slot.frame, s.uid);
  }

  // ---------------------------------------------------------------------------------------------
  // Conservation
  // ---------------------------------------------------------------------------------------------

  datatype Fate = Pending | Delivered(at: nat) | Overwritten | Discarded | LostWithSession

  /** What happens from outside; each added packet is told apart by its number in the run. */
  datatype Event = AddTo(slot: Slot) | Tick | EndOf(uid: SessionUid) | DiscardOf(uid: SessionUid)

  datatype Trace = Trace(buffer: Buffer<nat>, added: seq<Slot>, log: seq<Delivery<nat>>, fates: seq<Fate>)

  function ToOp(e: Event, packet: nat): Op<nat> {
    match e
    case AddTo(slot) => Add(slot, packet)
    case Tick => Sweep
    case EndOf(uid) => End(uid)
    case DiscardOf(uid) => Discard(uid)
  }

  /** What becomes of packet `i`, pending in slot `s` so far, when `e` hands over `ds`, the first as delivery `at`. */
  ghost function NextFate(b: Buffer<nat>, e: Event, ds: seq<Delivery<nat>>, at: nat, s: Slot, i: nat): Fate {
    if exists j: nat :: DeliveredAt(ds, j, s) == Some(i) then
      var j: nat :| DeliveredAt(ds, j, s) == Some(i);
      Delivered(at + j)
    else if e == AddTo(s) then Overwritten
    else if e == DiscardOf(s.uid) then Discarded
    else if e.AddTo? && Evicts(b, e.slot.uid, s.uid) then LostWithSession
    else Pending
  }

  ghost function StepTrace(t: Trace, e: Event): Trace
    requires |t.fates| == |t.added|
  {
    var o := Step(t.buffer, ToOp(e, |t.added|));
    var fates := seq(|t.added|, i requires 0 <= i < |t.added| => 
      if t.fates[i] == Pending then NextFate(t.buffer, e, o.delivered, |t.log|, t.added[i], i) else t.fates[i]);
    Trace(o.buffer,
          if e.AddTo? then t.added + [e.slot] else t.added,
          t.log + o.delivered,
          if e.AddTo? then fates + [Pending] else fates)
  }

  ghost function RunTrace(es: seq<Event>): (t: Trace)
    ensures |t.fates| == |t.added|
  {
    if es == [] then Trace(EmptyBuffer(), [], [], [])
    else StepTrace(RunTrace(es[..|es| - 1]), es[|es| - 1])
  }

  /**
   The recorded fates are exactly what buffer and delivery log show: a packet is `Pending` when it
   sits in its own slot, `Delivered(j)` when the `j`-th delivery carried it and no other did, and
   neither buffer nor log holds a packet anywhere but under its own session, frame and type.
   */
  ghost predicate Accounted(t: Trace) {
    && |t.fates| == |t.added|
    && (forall s: Slot :: PendingAt(t.buffer, s).Some? ==>
          PendingAt(t.buffer, s).value < |t.added| && t.added[PendingAt(t.buffer, s).value] == s)
    && (forall j: nat, s: Slot :: DeliveredAt(t.log, j, s).Some? ==>
          DeliveredAt(t.log, j, s).value < |t.added| && t.added[DeliveredAt(t.log, j, s).value] == s)
    && (forall i :: 0 <= i < |t.added| ==> (t.fates[i] == Pending <==> PendingAt(t.buffer, t.added[i]) == Some(i)))
    && (forall i, j: nat ::
           0 <= i < |t.added| ==> (t.fates[i] == Delivered(j) <==> DeliveredAt(t.log, j, t.added[i]) == Some(i)))
  }

  lemma {:induction false} LogConcat<P>(log: seq<Delivery<P>>, ds: seq<Delivery<P>>, j: nat, s: Slot)
    ensures DeliveredAt(log + ds, j, s) == if j < |log| then DeliveredAt(log, j, s) else DeliveredAt(ds, j - |log|, s)
  {
  }

  /** What one event does to the packet of a slot, in the terms of `NextFate`. */
  ghost predicate Effect(b: Buffer<nat>, b': Buffer<nat>, ds: seq<Delivery<nat>>, e: Event, packet: nat, s: Slot) {
    PendingAt(b', s) ==
      if e == AddTo(s) then Some(packet)
      else if (exists j: nat :: DeliveredAt(ds, j, s).Some?)
           || e == DiscardOf(s.uid)
           || (e.AddTo? && Evicts(b, e.slot.uid, s.uid))
      then None
      else PendingAt(b, s)
  }

  ghost predicate OnlyOnce<P>(b: Buffer<P>, ds: seq<Delivery<P>>) {
    && (forall j: nat, s: Slot :: DeliveredAt(ds, j, s).Some? ==> PendingAt(b, s) == DeliveredAt(ds, j, s))
    && (forall j: nat, k: nat, s: Slot :: j < k && DeliveredAt(ds, j, s).Some? ==> DeliveredAt(ds, k, s) == None)
  }

  lemma {:induction false} StepEffect(b: Buffer<nat>, e: Event, packet: nat, s: Slot)
    requires Inv(b)
    ensures Effect(b, Step(b, ToOp(e, packet)).buffer, Step(b, ToOp(e, packet)).delivered, e, packet, s)
    ensures OnlyOnce(b, Step(b, ToOp(e, packet)).delivered)
    ensures e == AddTo(s) ==> forall j: nat :: DeliveredAt(Step(b, ToOp(e, packet)).delivered, j, s) == None
  {
    var o := Step(b, ToOp(e, packet));
    match e
    case AddTo(slot) =>
      CompleteMoves(b, slot);
      AddAt(b, slot, packet, s);
      MovedSlot(b, Complete(b, slot.uid, slot.frame).buffer, o.delivered, s);
    case Tick =>
      FlushAllMoves(b, Stale(b, b.frames.order));
      MovedSlot(b, o.buffer, o.delivered, s);
    case EndOf(uid) =>
      FlushSessionMoves(b, uid);
      MovedSlot(b, o.buffer, o.delivered, s);
    case DiscardOf(uid) =>
      if s.uid != uid {
        assert Lookup(o.buffer.frames.vals, s.uid) == Lookup(b.frames.vals, s.uid);
      }
  }

  lemma {:induction false} MovedSlot<P>(b: Buffer<P>, b': Buffer<P>, ds: seq<Delivery<P>>, s: Slot)
    requires Moved(b, b', ds)
    ensures OnlyOnce(b, ds)
    ensures PendingAt(b', s) == if exists j: nat :: DeliveredAt(ds, j, s).Some? then None else PendingAt(b, s)
  {
  }

  /** `NextFate` says where a pending packet is found afterwards. */
  lemma {:induction false} PendingFate(b: Buffer<nat>, b': Buffer<nat>, ds: seq<Delivery<nat>>, at: nat, e: Event,
          packet: nat, s: Slot, i: nat, j: nat)
    requires PendingAt(b, s) == Some(i) && i != packet
    requires Effect(b, b', ds, e, packet, s) && OnlyOnce(b, ds)
    ensures NextFate(b, e, ds, at, s, i) == Pending <==> PendingAt(b', s) == Some(i)
    ensures NextFate(b, e, ds, at, s, i) == Delivered(at + j) <==> DeliveredAt(ds, j, s) == Some(i)
    ensures NextFate(b, e, ds, at, s, i).Delivered? ==> NextFate(b, e, ds, at, s, i).at >= at
  {
  }

  lemma {:induction false} StepFate(t: Trace, e: Event, i: nat, j: nat)
    requires Inv(t.buffer) && Accounted(t) && i < |t.added|
    ensures var t' := StepTrace(t, e);
            && (t'.fates[i] == Pending <==> PendingAt(t'.buffer, t.added[i]) == Some(i))
            && (t'.fates[i] == Delivered(j) <==> DeliveredAt(t'.log, j, t.added[i]) == Some(i))
  {
    var s := t.added[i];
    var ds := Step(t.buffer, ToOp(e, |t.added|)).delivered;
    StepEffect(t.buffer, e, |t.added|, s);
    LogConcat(t.log, ds, j, s);
    assert t.fates[i] == Delivered(j) <==> DeliveredAt(t.log, j, s) == Some(i);
    if t.fates[i] == Pending {
      PendingFate(t.buffer, StepTrace(t, e).buffer, ds, |t.log|, e, |t.added|, s, i,
                  if j < |t.log| then 0 else j - |t.log|);
    } else {
      assert PendingAt(t.buffer, s) != Some(i);
    }
  }

  /** Whatever buffer and log hold afterwards is under its own slot. */
  lemma {:induction false} StepPlaces(t: Trace, e: Event, j: nat, s: Slot)
    requires Inv(t.buffer) && Accounted(t)
    ensures var t' := StepTrace(t, e);
            && (PendingAt(t'.buffer, s).Some?
                ==> PendingAt(t'.buffer, s).value < |t'.added| && t'.added[PendingAt(t'.buffer, s).value] == s)
            && (DeliveredAt(t'.log, j, s).Some?
                ==> DeliveredAt(t'.log, j, s).value < |t'.added| && t'.added[DeliveredAt(t'.log, j, s).value] == s)
  {
    StepEffect(t.buffer, e, |t.added|, s);
    LogConcat(t.log, Step(t.buffer, ToOp(e, |t.added|)).delivered, j, s);
  }

  /** A packet just added is pending. */
  lemma {:induction false} NewFate(t: Trace, e: Event, j: nat)
    requires Inv(t.buffer) && Accounted(t) && e.AddTo?
    ensures PendingAt(StepTrace(t, e).buffer, e.slot) == Some(|t.added|)
    ensures DeliveredAt(StepTrace(t, e).log, j, e.slot) != Some(|t.added|)
  {
    StepEffect(t.buffer, e, |t.added|, e.slot);
    LogConcat(t.log, Step(t.buffer, ToOp(e, |t.added|)).delivered, j, e.slot);
  }

  lemma {:induction false} FateShown(t: Trace, e: Event, i: nat, j: nat)
    requires Inv(t.buffer) && Accounted(t) && i < |StepTrace(t, e).added|
    ensures var t' := StepTrace(t, e);
            && (t'.fates[i] == Pending <==> PendingAt(t'.buffer, t'.added[i]) == Some(i))
            && (t'.fates[i] == Delivered(j) <==> DeliveredAt(t'.log, j, t'.added[i]) == Some(i))
  {
    if i < |t.added| {
      StepFate(t, e, i, j);
    } else {
      NewFate(t, e, j);
    }
  }

  lemma {:induction false} StepAccounted(t: Trace, e: Event)
    requires Inv(t.buffer) && Accounted(t)
    ensures Accounted(StepTrace(t, e))
  {
    var t' := StepTrace(t, e);
    forall s: Slot | PendingAt(t'.buffer, s).Some?
      ensures PendingAt(t'.buffer, s).value < |t'.added| && t'.added[PendingAt(t'.buffer, s).value] == s
    {
      StepPlaces(t, e, 0, s);
    }
    forall j: nat, s: Slot | DeliveredAt(t'.log, j, s).Some?
      ensures DeliveredAt(t'.log, j, s).value < |t'.added| && t'.added[DeliveredAt(t'.log, j, s).value] == s
    {
      StepPlaces(t, e, j, s);
    }
    forall i | 0 <= i < |t'.added|
      ensures t'.fates[i] == Pending <==> PendingAt(t'.buffer, t'.added[i]) == Some(i)
    {
      FateShown(t, e, i, 0);
    }
    forall i, j: nat | 0 <= i < |t'.added|
      ensures t'.fates[i] == Delivered(j) <==> DeliveredAt(t'.log, j, t'.added[i]) == Some(i)
    {
      FateShown(t, e, i, j);
    }
  }

  /**
   Conservation: after any sequence of additions, sweeps, session flushes and discards, in any
   frame order and over any number of sessions, every packet added has exactly one fate, and the
   buffer stays within its 20 sessions with no empty entry.
   */
  lemma {:induction false} EveryPacketHasOneFate(es: seq<Event>)
    ensures Inv(RunTrace(es).buffer)
    ensures Accounted(RunTrace(es))
  {
    if es != [] {
      var t := RunTrace(es[..|es| - 1]);
      EveryPacketHasOneFate(es[..|es| - 1]);
      StepInv(t.buffer, ToOp(es[|es| - 1], |t.added|));
      StepAccounted(t, es[|es| - 1]);
    }
  }
}
