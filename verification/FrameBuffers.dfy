/** The frame buffer itself: two bounded dictionaries and, per session, a dictionary of frames shared by reference. */
module FrameBuffers {
  import opened Options
  import opened Recency
  import opened BoundedCollections
  import Model = FrameBufferModel
  import opened FrameBufferModel

  /** The inner dict `{frame_id: {packet_id: packet}}` of one session, mutated through references to it. */
  class SessionFrames<P> {
    ghost const uid: SessionUid
    var data: Frames<P>

    constructor (uid: SessionUid)
      ensures data == Empty() && this.uid == uid
    {
      this.uid := uid;
      data := Empty();
    }
  }

  /** The outcome of flushing the rest of a list after what has been delivered so far. */
  ghost function Onward<P>(o: Outcome<P>, which: seq<(SessionUid, FrameId)>): Outcome<P> {
    var rest := FlushAll(o.buffer, which);
    Outcome(rest.buffer, o.delivered + rest.delivered)
  }

  lemma {:induction false} OnwardStep<P>(b: Buffer<P>, which: seq<(SessionUid, FrameId)>, i: nat,
          delivered: seq<Delivery<P>>, o: Outcome<P>)
    requires i < |which| && o == Model.FlushFrame(b, which[i].0, which[i].1)
    ensures Onward(Outcome(b, delivered), which[i..])
        == Onward(Outcome(o.buffer, delivered + o.delivered), which[i + 1..])
  {
  }

  lemma {:induction false} StaleOfStep(uid: SessionUid, ids: seq<FrameId>, now: Option<FrameId>, j: nat,
          stale: seq<(SessionUid, FrameId)>)
    requires j < |ids|
    ensures stale + StaleOf(uid, ids[j..], now)
         == (if now != Some(ids[j]) then stale + [(uid, ids[j])] else stale) + StaleOf(uid, ids[j + 1..], now)
  {
  }

  class FrameBuffer<P> {
    const frames: BoundedDict<SessionUid, SessionFrames<P>>
    const current: BoundedDict<SessionUid, FrameId>
    var lastFlushTime: real

    /** The inner dicts currently referred to. */
    ghost function Cells(): set<object>
      reads frames
    {
      frames.data.Values
    }

    ghost predicate Valid()
      reads frames, current, frames.data.Values
    {
      && frames.Valid() && frames.maxSize == MAX_SESSIONS
      && current.Valid() && current.maxSize == MAX_SESSIONS
      && (frames as object) != (current as object)
      && forall u :: u in frames.data ==> frames.data[u].uid == u  // no two sessions share an inner dict
    }

    ghost function Contents(): Buffer<P>
      reads frames, current, frames.data.Values
    {
      Buffer(Dict(frames.order, map u | u in frames.data :: frames.data[u].data), current.Model())
    }

    constructor (now: real)
      ensures Valid() && fresh(frames) && fresh(current) && Cells() == {}
      ensures Contents() == EmptyBuffer() && lastFlushTime == now
    {
      frames := new BoundedDict(MAX_SESSIONS);
      current := new BoundedDict(MAX_SESSIONS);
      lastFlushTime := now;
      new;
      assert Contents().frames.vals == map[];
    }

    /** `frames.pop(frame_id)` through the reference held for the session. */
    method TakeOut(uid: SessionUid, frame: FrameId)
      requires Valid() && uid in frames.data
      modifies frames.data[uid]
      ensures Valid()
      ensures Contents() == old(Contents()).(frames := Put(old(Contents()).frames, uid,
          Remove(old(Contents()).frames.vals[uid], frame)))
    {
      var session := frames.data[uid];
      session.data := Remove(session.data, frame);
      assert Contents().frames.vals == old(Contents()).frames.vals[uid := session.data];
    }

    method PopSession(uid: SessionUid)
      requires Valid()
      modifies frames
      ensures Valid() && Cells() <= old(Cells())
      ensures Contents() == old(Contents()).(frames := Remove(old(Contents()).frames, uid))
    {
      ghost var data := frames.data;
      var _ := frames.Pop(uid);
      assert frames.data == data - {uid};
      assert Contents().frames.vals == old(Contents()).frames.vals - {uid};
    }

    method PopCurrent(uid: SessionUid)
      requires Valid()
      modifies current
      ensures Valid()
      ensures Contents() == old(Contents()).(current := Remove(old(Contents()).current, uid))
    {
      ghost var before := Contents();
      var _ := current.Pop(uid);
      assert Contents().frames == before.frames;
    }

    /** One frame leaves the buffer, an emptied session with it; what is handed over is returned. */
    method FlushFrame(uid: SessionUid, frame: FrameId) returns (delivered: seq<Delivery<P>>)
      requires Valid()
      modifies frames, Cells()
      ensures Valid() && Cells() <= old(Cells())
      ensures Outcome(Contents(), delivered) == Model.FlushFrame(old(Contents()), uid, frame)
    {
      if !frames.Contains(uid) {
        return [];
      }
      ghost var before := Contents();
      var packets := Lookup(frames.data[uid].data.vals, frame);
      assert packets == Lookup(before.frames.vals[uid].vals, frame);
      TakeOut(uid, frame);
      assert frames.data[uid].data == Contents().frames.vals[uid];
      delivered := [];
      if packets.Some? && packets.value.vals != map[] {
        delivered := [Delivery(uid, frame, packets.value)];
        if frames.data[uid].data.vals == map[] {
          PopSession(uid);
          RemoveOfPut(before.frames, uid, Remove(before.frames.vals[uid], frame));
        }
      }
    }

    /** Flush the listed frames in turn. */
    method FlushListed(which: seq<(SessionUid, FrameId)>) returns (delivered: seq<Delivery<P>>)
      requires Valid()
      modifies frames, Cells()
      ensures Valid() && Cells() <= old(Cells())
      ensures Outcome(Contents(), delivered) == FlushAll(old(Contents()), which)
    {
      delivered := [];
      ghost var all := FlushAll(Contents(), which);
      assert which[0..] == which;
      for i := 0 to |which|
        invariant Valid() && Cells() <= old(Cells())
        invariant Onward(Outcome(Contents(), delivered), which[i..]) == all
      {
        ghost var before := Contents();
        var ds := FlushFrame(which[i].0, which[i].1);
        OnwardStep(before, which, i, delivered, Outcome(Contents(), ds));
        delivered := delivered + ds;
      }
      assert which[|which|..] == [];
    }

    method PutSession(uid: SessionUid, session: SessionFrames<P>)
      requires Valid() && uid !in frames.data && session.uid == uid && session.data == Empty()
      modifies frames
      ensures Valid() && uid in frames.data && frames.data[uid] == session
      ensures Cells() <= old(Cells()) + {session}
      ensures Contents()
          == old(Contents()).(frames := Recency.SetItem(old(Contents()).frames, MAX_SESSIONS, uid, Empty()))
    {
      ghost var before, cells := Contents(), frames.data;
      frames.SetItem(uid, session);
      assert Contents().current == before.current;
      SetItemMaps(Dict(before.frames.order, cells), before.frames, MAX_SESSIONS, uid, session, Empty(), frames.data,
          Contents().frames.vals);
    }

    /** `self._frames[session_uid] = {}`. */
    method OpenSession(uid: SessionUid)
      requires Valid() && uid !in frames.data
      modifies frames
      ensures Valid() && uid in frames.data
      ensures fresh(frames.data[uid]) && Cells() <= old(Cells()) + {frames.data[uid]}
      ensures Contents()
          == old(Contents()).(frames := Recency.SetItem(old(Contents()).frames, MAX_SESSIONS, uid, Empty()))
    {
      ghost var before := Contents();
      var session := new SessionFrames<P>(uid);
      assert Contents() == before;
      PutSession(uid, session);
    }

    /** Evicting and inserting commute with looking through the references. */
    static lemma {:induction false} SetItemMaps<V, W>(d: Dict<SessionUid, V>, e: Dict<SessionUid, W>, max: nat,
            uid: SessionUid, v: V, w: W,
                                   m: map<SessionUid, V>, n: map<SessionUid, W>)
      requires max >= 1 && d.order == e.order && d.vals.Keys == e.vals.Keys && uid !in d.vals
      requires m == Recency.SetItem(d, max, uid, v).vals && n.Keys == m.Keys && n[uid] == w
      requires forall u :: u in n && u != uid && u in e.vals ==> n[u] == e.vals[u]
      ensures n == Recency.SetItem(e, max, uid, w).vals
      ensures m.Values <= d.vals.Values + {v}
    {
    }

    method SetCurrent(uid: SessionUid, frame: FrameId)
      requires Valid()
      modifies current
      ensures Valid()
      ensures Contents()
          == old(Contents()).(current := Recency.SetItem(old(Contents()).current, MAX_SESSIONS, uid, frame))
    {
      ghost var before := Contents();
      current.SetItem(uid, frame);
      assert Contents().frames == before.frames;
    }

    /** `session_frames.setdefault(frame_identifier, {})[packet_id] = packet`. */
    method PutPacket(slot: Slot, packet: P)
      requires Valid() && slot.uid in frames.data
      modifies frames.data[slot.uid]
      ensures Valid()
      ensures var session := old(Contents()).frames.vals[slot.uid];
              var packets := if slot.frame in session.vals then session.vals[slot.frame] else Empty();
              Contents() == old(Contents()).(frames := Put(old(Contents()).frames, slot.uid,
                  Put(session, slot.frame, Put(packets, slot.id, packet))))
    {
      var session := frames.data[slot.uid];
      var packets := if slot.frame in session.data.vals then session.data.vals[slot.frame] else Empty();
      session.data := Put(session.data, slot.frame, Put(packets, slot.id, packet));
      assert Contents().frames.vals == old(Contents()).frames.vals[slot.uid := session.data];
    }

    /** The part of `add` after the flush of the completed frame. */
    method StorePacket(slot: Slot, packet: P)
      requires Valid()
      modifies frames, current, Cells()
      ensures Valid() && fresh(Cells() - old(Cells()))
      ensures Contents() == Store(old(Contents()), slot, packet)
    {
      SetCurrent(slot.uid, slot.frame);
      if !frames.Contains(slot.uid) {
        OpenSession(slot.uid);
      }
      PutPacket(slot, packet);
    }

    /** The part of `add` that flushes the frame a higher one completes. */
    method CompletePrevious(uid: SessionUid, frame: FrameId) returns (delivered: seq<Delivery<P>>)
      requires Valid()
      modifies frames, Cells()
      ensures Valid() && Cells() <= old(Cells())
      ensures Outcome(Contents(), delivered) == Complete(old(Contents()), uid, frame)
    {
      var previous := current.Get(uid);
      if previous.Some? && frame > previous.value {
        delivered := FlushFrame(uid, previous.value);
      } else {
        delivered := [];
      }
    }

    /** Add a packet; a higher frame of the same session completes and flushes the previous one. */
    method Add(slot: Slot, packet: P) returns (delivered: seq<Delivery<P>>)
      requires Valid()
      modifies frames, current, Cells()
      ensures Valid() && fresh(Cells() - old(Cells()))
      ensures Outcome(Contents(), delivered) == AddPacket(old(Contents()), slot, packet)
    {
      delivered := CompletePrevious(slot.uid, slot.frame);
      StorePacket(slot, packet);
    }

    static method StaleOfSession(uid: SessionUid, ids: seq<FrameId>,
            now: Option<FrameId>) returns (stale: seq<(SessionUid, FrameId)>)
      ensures stale == StaleOf(uid, ids, now)
    {
      stale := [];
      ghost var all := StaleOf(uid, ids, now);
      assert ids[0..] == ids;
      for j := 0 to |ids|
        invariant stale + StaleOf(uid, ids[j..], now) == all
      {
        StaleOfStep(uid, ids, now, j, stale);
        if now != Some(ids[j]) {
          stale := stale + [(uid, ids[j])];
        }
      }
      assert ids[|ids|..] == [];
    }

    method StaleFrames() returns (stale: seq<(SessionUid, FrameId)>)
      requires Valid()
      ensures stale == Stale(Contents(), frames.order)
    {
      stale := [];
      ghost var b := Contents();
      var uids := frames.Keys();
      for i := 0 to |uids|
        invariant stale + Stale(b, uids[i..]) == Stale(b, uids)
      {
        assert uids[i..][1..] == uids[i + 1..];
        assert uids[i] in Members(frames.order);
        assert b.frames.vals[uids[i]] == frames.data[uids[i]].data;
        var found := StaleOfSession(uids[i], frames.data[uids[i]].data.order, current.Get(uids[i]));
        stale := stale + found;
      }
      assert uids[|uids|..] == [];
    }

    method FlushStale() returns (delivered: seq<Delivery<P>>)
      requires Valid()
      modifies frames, Cells()
      ensures Valid() && Cells() <= old(Cells())
      ensures Outcome(Contents(), delivered) == SweepStale(old(Contents()))
      ensures Inv(old(Contents())) ==> IsSwept(old(Contents()), Contents(), delivered)
    {
      ghost var b := Contents();
      var stale := StaleFrames();
      delivered := FlushListed(stale);
      if Inv(b) {
        SweepSweeps(b, Contents(), delivered);
      }
    }

    /** The sweep: every frame but each session's current one, unless the last sweep is too recent. */
    method CheckPeriodicFlush(now: real) returns (delivered: seq<Delivery<P>>)
      requires Valid()
      modifies this, frames, Cells()
      ensures Valid() && Cells() <= old(Cells())
      ensures if (now - old(lastFlushTime)) * 1000.0 < FLUSH_INTERVAL_MS
              then lastFlushTime == old(lastFlushTime) && Outcome(Contents(), delivered) == Outcome(old(Contents()), [])
              else lastFlushTime == now && Outcome(Contents(), delivered) == SweepStale(old(Contents()))
      ensures (Inv(old(Contents())) && now - old(lastFlushTime) >= 0.1
               ==> IsSwept(old(Contents()), Contents(), delivered))
    {
      if (now - lastFlushTime) * 1000.0 < FLUSH_INTERVAL_MS {
        return [];
      }
      ghost var b := Contents();
      lastFlushTime := now;
      assert Contents() == b;
      delivered := FlushStale();
    }

    /** The session leaves the buffer and nothing is handed over. */
    method DiscardSession(uid: SessionUid)
      requires Valid()
      modifies frames, current
      ensures Valid() && Cells() <= old(Cells())
      ensures Contents() == Model.DiscardSession(old(Contents()), uid)
    {
      PopSession(uid);
      PopCurrent(uid);
    }

    /** All that is pending for the session, lowest frame first; then the session leaves the buffer. */
    method FlushSession(uid: SessionUid) returns (delivered: seq<Delivery<P>>)
      requires Valid()
      modifies frames, current, Cells()
      ensures Valid() && Cells() <= old(Cells())
      ensures Outcome(Contents(), delivered) == Model.FlushSession(old(Contents()), uid)
    {
      if !frames.Contains(uid) {
        return [];
      }
      delivered := FlushListed(Tagged(uid, Sorted(frames.data[uid].data.order)));
      DiscardSession(uid);
    }
  }
}
