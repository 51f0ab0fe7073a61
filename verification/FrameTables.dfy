/**
 The frame tables: rows keyed by timestamp, session, driver and frame, inserted with "do nothing on
 conflict" and deleted above a flashback's rewind point.
 */
module FrameTables {
  import opened Options
  import opened FrameBufferModel

  type UserId = nat

  /** Wall-clock instants, in microseconds. */
  type Instant = int

  datatype Key = Key(timestamp: Instant, uid: SessionUid, user: UserId, frame: FrameId)

  // ---------------------------------------------------------------------------------------------
  // Seconds to microseconds
  // ---------------------------------------------------------------------------------------------

  /** Rounding to the nearest integer, ties to even. */
  function RoundHalfEven(x: real): int {
    var f := x.Floor;
    var d := x - f as real;
    if d < 0.5 then f
    else if d > 0.5 then f + 1
    else if f % 2 == 0 then f
    else f + 1
  }

  /** `timedelta(seconds=t)`, a whole number of microseconds. */
  function Micros(t: real): int {
    RoundHalfEven(t * 1000000.0)
  }

  /** Rounding goes to an integer at most half away, and halfway between two to the even one. */
  lemma {:induction false} RoundedIsNearest(x: real)
    ensures var r := RoundHalfEven(x);
            && r as real - 0.5 <= x <= r as real + 0.5
            && (x == r as real - 0.5 || x == r as real + 0.5 ==> r % 2 == 0)
  {
    var f := x.Floor;
    assert x == f as real + 0.5 ==> RoundHalfEven(x) == if f % 2 == 0 then f else f + 1;
  }

  /** So a time is converted to within half a microsecond, and there is no nearer number of microseconds. */
  lemma {:induction false} MicrosAreNearest(t: real, n: int)
    ensures -0.5 <= Micros(t) as real - t * 1000000.0 <= 0.5
    ensures Distance(Micros(t), t * 1000000.0) <= Distance(n, t * 1000000.0)
  {
    RoundedIsNearest(t * 1000000.0);
    NoneIsNearer(Micros(t), t * 1000000.0, n);
  }

  function Distance(n: int, x: real): real {
    if n as real >= x then n as real - x else x - n as real
  }

  lemma {:induction false} NoneIsNearer(r: int, x: real, n: int)
    requires Distance(r, x) <= 0.5
    ensures Distance(r, x) <= Distance(n, x)
  {
    if n < r {
      assert n as real <= r as real - 1.0;
    } else if n > r {
      assert n as real >= r as real + 1.0;
    }
  }

  /** The conversion is monotone, and strict on times more than a microsecond apart. */
  lemma {:induction false} MicrosMonotone(a: real, b: real)
    requires a <= b
    ensures Micros(a) <= Micros(b)
    ensures a + 0.000001 < b ==> Micros(a) < Micros(b)
  {
  }

  // ---------------------------------------------------------------------------------------------
  // Tables
  // ---------------------------------------------------------------------------------------------

  type Table<R> = map<Key, R>

  /** A stored row: the session time its key was derived from, and everything else. */
  datatype Stored<R> = Stored(time: real, row: R)

  function Insert<R>(t: Table<R>, k: Key, r: R): Table<R> {
    if k in t then t else t[k := r]
  }

  /** `executemany` of the insert. */
  function InsertBatch<R>(t: Table<R>, rows: seq<(Key, R)>): Table<R>
    decreases rows
  {
    if rows == [] then t else InsertBatch(Insert(t, rows[0].0, rows[0].1), rows[1..])
  }

  /** The rows a delete names: always by session time, by timestamp as well when the anchor is known. */
  predicate Condemned<R>(k: Key, r: Stored<R>, uid: SessionUid, rewindTo: real, start: Option<Instant>) {
    && k.uid == uid
    && r.time > rewindTo
    && (start.Some? ==> k.timestamp > start.value + Micros(rewindTo))
  }

  function DeleteAfter<R>(t: Table<Stored<R>>, uid: SessionUid, rewindTo: real,
          start: Option<Instant>): Table<Stored<R>> {
    map k | k in t && !Condemned(k, t[k], uid, rewindTo, start) :: t[k]
  }

  /** Every row of the session was written at its anchor plus the converted session time. */
  ghost predicate Anchored<R>(t: Table<Stored<R>>, uid: SessionUid, start: Instant) {
    forall k :: k in t && k.uid == uid ==> k.timestamp == start + Micros(t[k].time)
  }

  /** A row past the rewind point that the conversion cannot tell from the rewind point itself. */
  ghost predicate Blurred<R>(t: Table<Stored<R>>, uid: SessionUid, rewindTo: real, k: Key) {
    k in t && k.uid == uid && t[k].time > rewindTo && Micros(t[k].time) == Micros(rewindTo)
  }

  /** Narrowing a delete by timestamp never removes a row the plain delete keeps. */
  lemma {:induction false} NarrowedDeletesNoMore<R>(t: Table<Stored<R>>, uid: SessionUid, rewindTo: real,
          start: Instant)
    ensures DeleteAfter(t, uid, rewindTo, None).Keys <= DeleteAfter(t, uid, rewindTo, Some(start)).Keys
  {
  }

  /**
   On anchored rows the two deletes are equal exactly when no stored row past the rewind point
   falls on the rewind point's own microsecond.
   */
  lemma {:induction false} DeletesAgreeExactly<R>(t: Table<Stored<R>>, uid: SessionUid, rewindTo: real, start: Instant)
    requires Anchored(t, uid, start)
    ensures DeleteAfter(t, uid, rewindTo, Some(start)) == DeleteAfter(t, uid, rewindTo, None)
       <==> (forall k :: !Blurred(t, uid, rewindTo, k))
  {
    var narrow, plain := DeleteAfter(t, uid, rewindTo, Some(start)), DeleteAfter(t, uid, rewindTo, None);
    if k :| Blurred(t, uid, rewindTo, k) {
      assert k in narrow && k !in plain;
    } else {
      forall k | k in t
        ensures k in narrow <==> k in plain
      {
        assert !Blurred(t, uid, rewindTo, k);
        if k.uid == uid && t[k].time > rewindTo {
          MicrosMonotone(rewindTo, t[k].time);
        }
      }
      assert narrow.Keys == plain.Keys;
    }
  }

  /** They do differ: a row recorded a tenth of a microsecond past the rewind point survives the narrowed delete. */
  lemma {:induction false} DeletesMayDiffer(uid: SessionUid, user: UserId, frame: FrameId, start: Instant)
    ensures var k := Key(start + 1000000, uid, user, frame);
            var t := map[k := Stored(1.0000001, ())];
            && Anchored(t, uid, start)
            && k in DeleteAfter(t, uid, 1.0, Some(start))
            && k !in DeleteAfter(t, uid, 1.0, None)
  {
  }

  // ---------------------------------------------------------------------------------------------
  // A history of writes and flashbacks
  // ---------------------------------------------------------------------------------------------

  datatype Entry<R> =
    | Write(key: Key, stored: Stored<R>)
    | Undo(uid: SessionUid, rewindTo: real, start: Option<Instant>)

  function Apply<R>(t: Table<Stored<R>>, e: Entry<R>): Table<Stored<R>> {
    match e
    case Write(k, r) => Insert(t, k, r)
    case Undo(uid, rewindTo, start) => DeleteAfter(t, uid, rewindTo, start)
  }

  ghost function Replay<R>(log: seq<Entry<R>>): Table<Stored<R>> {
    if log == [] then map[] else Apply(Replay(log[..|log| - 1]), log[|log| - 1])
  }

  /** A set of session times the conversion keeps apart. */
  ghost predicate Exact(times: iset<real>) {
    forall a, b :: a in times && b in times && Micros(a) == Micros(b) ==> a == b
  }

  /** Times that are whole microseconds are kept apart. */
  lemma {:induction false} WholeMicrosecondsExact(times: iset<real>)
    requires forall a :: a in times ==> Micros(a) as real == a * 1000000.0
    ensures Exact(times)
  {
  }

  /** The session time each of a frame's timestamps stands for. */
  type Dating = (SessionUid, FrameId, Instant) -> real

  /**
   The session times of a run; what packets keep to besides; and, when frames may be stamped with the wall clock,
   the session times their timestamps stand for.
   */
  datatype Law = Law(times: iset<real>, fits: (SessionUid, FrameId, real) -> bool, dating: Option<Dating>)

  /** The key's timestamp is the anchor plus the session time or, on the wall clock, that instant or a later one. */
  ghost predicate Stamped(law: Law, k: Key, time: real, anchors: map<SessionUid, Instant>) {
    && k.uid in anchors && time in law.times
    && (law.dating.None? ==> k.timestamp == anchors[k.uid] + Micros(time))
    && (law.dating.Some?
        ==> k.timestamp >= anchors[k.uid] + Micros(time) && time == law.dating.value(k.uid, k.frame, k.timestamp))
  }

  lemma {:induction false} OneTimePerKey(law: Law, k: Key, a: real, b: real, anchors: map<SessionUid, Instant>)
    requires Exact(law.times) && Stamped(law, k, a, anchors) && Stamped(law, k, b, anchors)
    ensures a == b
  {
  }

  /** A row past the rewind point is past it by its timestamp, too. */
  lemma {:induction false} PastByTimestamp(law: Law, k: Key, time: real, rewindTo: real,
          anchors: map<SessionUid, Instant>)
    requires Exact(law.times) && Stamped(law, k, time, anchors) && rewindTo in law.times && time > rewindTo
    ensures k.timestamp > anchors[k.uid] + Micros(rewindTo)
  {
    MicrosMonotone(rewindTo, time);
  }

  /** Every key was stamped as the law says, every delete is either plain or narrowed by its session's anchor. */
  ghost predicate Keyed<R>(log: seq<Entry<R>>, anchors: map<SessionUid, Instant>, law: Law) {
    forall i :: 0 <= i < |log| ==> EntryKeyed(log[i], anchors, law)
  }

  ghost predicate EntryKeyed<R>(e: Entry<R>, anchors: map<SessionUid, Instant>, law: Law) {
    match e
    case Write(k, r) => Stamped(law, k, r.time, anchors)
    case Undo(uid, rewindTo, start) =>
      rewindTo in law.times && (start == None || (uid in anchors && start == Some(anchors[uid])))
  }

  /** A flashback takes back what its session recorded past the rewind point. */
  ghost predicate Undoes<R>(e: Entry<R>, uid: SessionUid, time: real) {
    e.Undo? && e.uid == uid && time > e.rewindTo
  }

  ghost predicate Undone<R>(log: seq<Entry<R>>, i: nat)
    requires i < |log| && log[i].Write?
  {
    exists j :: i < j < |log| && Undoes(log[j], log[i].key.uid, log[i].stored.time)
  }

  /** The `i`-th entry is the first write of its key since the last flashback that undid the key. */
  ghost predicate Survives<R>(log: seq<Entry<R>>, i: nat) {
    && i < |log| && log[i].Write? && !Undone(log, i)
    && forall h :: 0 <= h < i && log[h].Write? && log[h].key == log[i].key ==> Undone(log[..i], h)
  }

  ghost predicate Explained<R>(log: seq<Entry<R>>, k: Key) {
    if k in Replay(log)
    then exists i: nat :: Survives(log, i) && log[i].key == k && log[i].stored == Replay(log)[k]
    else forall i :: 0 <= i < |log| && log[i].Write? && log[i].key == k ==> Undone(log, i)
  }

  lemma {:induction false} UndoneSnoc<R>(log: seq<Entry<R>>, e: Entry<R>, i: nat)
    requires i < |log| && log[i].Write?
    ensures Undone(log + [e], i) <==> Undone(log, i) || Undoes(e, log[i].key.uid, log[i].stored.time)
  {
    var log' := log + [e];
    assert log'[|log|] == e;
    if Undone(log, i) {
      var j :| i < j < |log| && Undoes(log[j], log[i].key.uid, log[i].stored.time);
      assert Undoes(log'[j], log'[i].key.uid, log'[i].stored.time);
    }
  }

  lemma {:induction false} SurvivesSnoc<R>(log: seq<Entry<R>>, e: Entry<R>, i: nat)
    requires i < |log|
    ensures Survives(log + [e], i) <==> Survives(log, i) && !Undoes(e, log[i].key.uid, log[i].stored.time)
  {
    if log[i].Write? {
      UndoneSnoc(log, e, i);
      assert (log + [e])[..i] == log[..i];
    }
  }

  lemma {:induction false} ReplaySnoc<R>(log: seq<Entry<R>>, e: Entry<R>)
    ensures Replay(log + [e]) == Apply(Replay(log), e)
  {
  }

  lemma {:induction false} ExplainedWrite<R>(log: seq<Entry<R>>, k0: Key, r0: Stored<R>, k: Key)
    requires Explained(log, k)
    ensures Explained(log + [Write(k0, r0)], k)
  {
    var e := Write(k0, r0);
    var log' := log + [e];
    ReplaySnoc(log, e);
    if k in Replay(log) {
      var i: nat :| Survives(log, i) && log[i].key == k && log[i].stored == Replay(log)[k];
      SurvivesSnoc(log, e, i);
      assert log'[i] == log[i];
    } else if k == k0 {
      assert log'[..|log|] == log;
      assert !Undone(log', |log|);
      assert Survives(log', |log|);
    } else {
      forall i | 0 <= i < |log'| && log'[i].Write? && log'[i].key == k
        ensures Undone(log', i)
      {
        UndoneSnoc(log, e, i);
      }
    }
  }

  lemma {:induction false} ExplainedUndo<R>(log: seq<Entry<R>>, e: Entry<R>, k: Key, anchors: map<SessionUid, Instant>,
          law: Law)
    requires e.Undo? && Explained(log, k)
    requires Exact(law.times) && Keyed(log, anchors, law) && EntryKeyed(e, anchors, law)
    ensures Explained(log + [e], k)
  {
    var log' := log + [e];
    ReplaySnoc(log, e);
    forall i | 0 <= i < |log| && log[i].Write?
      ensures Undone(log', i) <==> Undone(log, i) || Undoes(e, log[i].key.uid, log[i].stored.time)
    {
      UndoneSnoc(log, e, i);
    }
    if k in Replay(log) {
      var i: nat :| Survives(log, i) && log[i].key == k && log[i].stored == Replay(log)[k];
      SurvivesSnoc(log, e, i);
      var time := log[i].stored.time;
      assert EntryKeyed(log[i], anchors, law);
      if time > e.rewindTo {
        PastByTimestamp(law, log[i].key, time, e.rewindTo, anchors);
      }
      assert Condemned(k, Replay(log)[k], e.uid, e.rewindTo, e.start) <==> Undoes(e, k.uid, time);
      if Undoes(e, k.uid, time) {
        forall h | 0 <= h < |log'| && log'[h].Write? && log'[h].key == k
          ensures Undone(log', h)
        {
          assert EntryKeyed(log[h], anchors, law);
          OneTimePerKey(law, k, log[h].stored.time, time, anchors);
        }
      } else {
        assert log'[i] == log[i];
      }
    }
  }

  /**
   After any history of writes, redelivered writes and flashbacks, each key holds exactly the first
   row written since the last flashback that undid it, and a key with no such row is absent.
   */
  lemma {:induction false} TableIsFirstSinceUndone<R>(log: seq<Entry<R>>, anchors: map<SessionUid, Instant>,
          law: Law)
    requires Exact(law.times) && Keyed(log, anchors, law)
    ensures forall k :: Explained(log, k)
    ensures forall k :: k in Replay(log) <==> exists i: nat :: Survives(log, i) && log[i].key == k
  {
    if log != [] {
      var n := |log| - 1;
      var e := log[n];
      assert log == log[..n] + [e];
      TableIsFirstSinceUndone(log[..n], anchors, law);
      assert EntryKeyed(e, anchors, law);
      forall k
        ensures Explained(log, k)
      {
        if e.Write? {
          ExplainedWrite(log[..n], e.key, e.stored, k);
        } else {
          ExplainedUndo(log[..n], e, k, anchors, law);
        }
      }
    }
    forall k
      ensures k in Replay(log) <==> exists i: nat :: Survives(log, i) && log[i].key == k
    {
      assert Explained(log, k);
    }
  }

  /** There is only one such row: two surviving writes of a key are the same write. */
  lemma {:induction false} SurvivorUnique<R>(log: seq<Entry<R>>, i: nat, j: nat)
    requires Survives(log, i) && Survives(log, j) && log[i].key == log[j].key
    ensures i == j
  {
  }

  /** Redelivery is idempotent: rows whose keys are all stored change nothing. */
  lemma {:induction false} RedeliveryChangesNothing<R>(t: Table<R>, rows: seq<(Key, R)>)
    requires forall i :: 0 <= i < |rows| ==> rows[i].0 in t
    ensures InsertBatch(t, rows) == t
    decreases rows
  {
    if rows != [] {
      assert rows[0].0 in t;
      RedeliveryChangesNothing(t, rows[1..]);
    }
  }
}
