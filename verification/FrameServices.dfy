/** The services behind the dispatcher that decide what the frame tables hold, updating in place. */
module FrameServices {
  import opened Options
  import opened Recency
  import opened BoundedCollections
  import opened FrameBufferModel
  import opened FrameTables
  import opened AnchorCache
  import opened CarFrames
  import opened Listener
  import LC = LapCompletions

  /** One frame table; `log` is the history of what was done to it. */
  class FrameRepository<R> {
    var rows: Table<Stored<R>>
    ghost var log: seq<Entry<R>>

    constructor ()
      ensures rows == map[] && log == []
    {
      rows, log := map[], [];
    }

    /** A batch insert, doing nothing on a key that is already stored. */
    method Insert(batch: seq<(Key, Stored<R>)>)
      modifies this
      ensures rows == InsertBatch(old(rows), batch)
      ensures log == old(log) + Writes(batch)
    {
      for i := 0 to |batch|
        invariant InsertBatch(rows, batch[i..]) == InsertBatch(old(rows), batch)
        invariant log == old(log)
      {
        assert batch[i..][1..] == batch[i + 1..];
        if batch[i].0 !in rows {
          rows := rows[batch[i].0 := batch[i].1];
        }
      }
      assert batch[|batch|..] == [];
      log := log + Writes(batch);
    }

    /** What a flashback deletes from this table, and how many rows that was. */
    method DeleteRowsAfter(uid: SessionUid, rewindTo: real, start: Option<Instant>) returns (discarded: nat)
      modifies this
      ensures rows == DeleteAfter(old(rows), uid, rewindTo, start)
      ensures log == old(log) + [Undo(uid, rewindTo, start)]
      ensures discarded == |old(rows)| - |rows|
    {
      var kept := DeleteAfter(rows, uid, rewindTo, start);
      assert kept.Keys <= rows.Keys;
      assert rows.Keys == kept.Keys + (rows.Keys - kept.Keys);
      assert |rows.Keys| == |kept.Keys| + |rows.Keys - kept.Keys|;
      discarded := |rows| - |kept|;
      rows := kept;
      log := log + [Undo(uid, rewindTo, start)];
    }
  }

  lemma {:induction false} RowsForStep(t: Tick, packets: Packets<CarPacket>, cars: seq<Car>, i: nat,
          rows: seq<(Key, Stored<FrameRow>)>)
    requires i < |cars|
    ensures rows + RowsFor(t, packets, cars[i..])
         == (if Records(t, packets, cars[i])
             then rows + [(KeyOf(t, cars[i]), Stored(t.time, RowOf(t, packets, cars[i])))] else rows)
              + RowsFor(t, packets, cars[i + 1..])
  {
  }

  lemma {:induction false} DamageForStep(t: Tick, packets: Packets<CarPacket>, cars: seq<Car>, i: nat,
          rows: seq<(Key, Stored<Cell>)>)
    requires i < |cars|
    ensures rows + DamageFor(t, packets, cars[i..])
         == (if Records(t, packets, cars[i]) && DAMAGE in packets.vals && cars[i] !in t.restricted
             then rows + [(KeyOf(t, cars[i]), Stored(t.time, packets.vals[DAMAGE].cells[cars[i]]))] else rows)
              + DamageFor(t, packets, cars[i + 1..])
  {
  }

  class CarFrameService {
    const frames: FrameRepository<FrameRow>
    const damage: FrameRepository<Cell>

    ghost predicate Valid() {
      (frames as object) != (damage as object)
    }

    constructor ()
      ensures Valid() && fresh(frames) && fresh(damage)
      ensures frames.rows == map[] && damage.rows == map[] && frames.log == [] && damage.log == []
    {
      frames := new FrameRepository();
      damage := new FrameRepository();
    }

    /** Two passes over the rows: gaps by position, then each row looks one position back. */
    static method FillGapToCarBehind(rows: array<(Key, Stored<FrameRow>)>)
      modifies rows
      ensures rows[..] == WithGaps(old(rows[..]))
    {
      var gaps: map<nat, int> := map[];
      for i := 0 to rows.Length
        invariant gaps == GapsByPosition(rows[..i])
        invariant rows[..] == old(rows[..])
      {
        assert rows[..i + 1][..i] == rows[..i];
        var row := rows[i].1.row;
        if row.Position().Some? {
          gaps := gaps[row.Position().value := row.lap.value.gapAhead];
        }
      }
      assert rows[..rows.Length] == old(rows[..]);
      for i := 0 to rows.Length
        invariant gaps == GapsByPosition(old(rows[..]))
        invariant forall j :: 0 <= j < i ==> rows[j] == WithGaps(old(rows[..]))[j]
        invariant forall j :: i <= j < rows.Length ==> rows[j] == old(rows[j])
      {
        var position := rows[i].1.row.Position();
        if position.Some? && position.value + 1 in gaps {
          rows[i] := (rows[i].0, rows[i].1.(row := rows[i].1.row.(gapBehind := Some(gaps[position.value + 1]))));
        }
      }
    }

    static method BuildRows(t: Tick, packets: Packets<CarPacket>,
            cars: seq<Car>) returns (rows: seq<(Key, Stored<FrameRow>)>)
      ensures rows == RowsFor(t, packets, cars)
    {
      rows := [];
      ghost var all := RowsFor(t, packets, cars);
      assert cars[0..] == cars;
      for i := 0 to |cars|
        invariant rows + RowsFor(t, packets, cars[i..]) == all
      {
        RowsForStep(t, packets, cars, i, rows);
        if Records(t, packets, cars[i]) {
          rows := rows + [(KeyOf(t, cars[i]), Stored(t.time, RowOf(t, packets, cars[i])))];
        }
      }
      assert cars[|cars|..] == [];
    }

    static method BuildDamageRows(t: Tick, packets: Packets<CarPacket>,
            cars: seq<Car>) returns (rows: seq<(Key, Stored<Cell>)>)
      ensures rows == DamageFor(t, packets, cars)
    {
      rows := [];
      ghost var all := DamageFor(t, packets, cars);
      assert cars[0..] == cars;
      for i := 0 to |cars|
        invariant rows + DamageFor(t, packets, cars[i..]) == all
      {
        DamageForStep(t, packets, cars, i, rows);
        if Records(t, packets, cars[i]) && DAMAGE in packets.vals && cars[i] !in t.restricted {
          rows := rows + [(KeyOf(t, cars[i]), Stored(t.time, packets.vals[DAMAGE].cells[cars[i]]))];
        }
      }
      assert cars[|cars|..] == [];
    }

    static method FilledGaps(rows: seq<(Key, Stored<FrameRow>)>) returns (filled: seq<(Key, Stored<FrameRow>)>)
      ensures filled == WithGaps(rows)
    {
      var a := new (Key, Stored<FrameRow>)[|rows|](i requires 0 <= i < |rows| => rows[i]);
      assert a[..] == rows;
      FillGapToCarBehind(a);
      filled := a[..];
    }

    /** One row per recorded driver, and a damage row for those whose damage is visible. */
    method WriteFrame(t: Tick, packets: Packets<CarPacket>, raceStarted: bool)
      requires Valid()
      modifies frames, damage
      ensures frames.rows == if raceStarted then InsertBatch(old(frames.rows), WithGaps(RowsFor(t, packets, Cars())))
          else old(frames.rows)
      ensures frames.log == old(frames.log) + if raceStarted then Writes(WithGaps(RowsFor(t, packets, Cars()))) else []
      ensures damage.rows == if raceStarted then InsertBatch(old(damage.rows), DamageFor(t, packets, Cars()))
          else old(damage.rows)
      ensures damage.log == old(damage.log) + if raceStarted then Writes(DamageFor(t, packets, Cars())) else []
    {
      if !raceStarted {
        return;
      }
      var rows := BuildRows(t, packets, Cars());
      var damageRows := BuildDamageRows(t, packets, Cars());
      rows := FilledGaps(rows);
      frames.Insert(rows);
      damage.Insert(damageRows);
    }

    /** Delete what a flashback undid from both tables; the number of frame rows removed is returned. */
    method DiscardAfter(uid: SessionUid, rewindTo: real, start: Option<Instant>) returns (discarded: nat)
      requires Valid()
      modifies frames, damage
      ensures frames.rows == DeleteAfter(old(frames.rows), uid, rewindTo, start)
      ensures frames.log == old(frames.log) + [Undo(uid, rewindTo, start)]
      ensures damage.rows == DeleteAfter(old(damage.rows), uid, rewindTo, start)
      ensures damage.log == old(damage.log) + [Undo(uid, rewindTo, start)]
      ensures discarded == |old(frames.rows)| - |frames.rows|
    {
      discarded := frames.DeleteRowsAfter(uid, rewindTo, start);
      var _ := damage.DeleteRowsAfter(uid, rewindTo, start);
    }
  }

  /** `telemetry.sessions`, of which only the anchor column matters here. */
  class SessionsRepository {
    var anchors: map<SessionUid, Instant>

    constructor ()
      ensures anchors == map[]
    {
      anchors := map[];
    }

    /** The anchor is preserved on conflict. */
    method InsertSession(uid: SessionUid, start: Instant)
      modifies this
      ensures anchors == AnchorCache.InsertSession(old(anchors), uid, start)
    {
      if uid !in anchors {
        anchors := anchors[uid := start];
      }
    }

    function GetSessionStart(uid: SessionUid): Option<Instant>
      reads this
    {
      Lookup(anchors, uid)
    }
  }

  /** Told of each completed lap. */
  class TyreSetsService {
    var reports: seq<LC.Report>

    constructor ()
      ensures reports == []
    {
      reports := [];
    }

    method OnLapComplete(driver: LC.Driver, lap: nat)
      modifies this
      ensures reports == old(reports) + [LC.Report(driver, lap)]
    {
      reports := reports + [LC.Report(driver, lap)];
    }
  }

  class SessionService {
    const repository: SessionsRepository
    const seen: BoundedSet<SessionUid>
    const starts: BoundedDict<SessionUid, Instant>

    ghost predicate Valid()
      reads seen, starts
    {
      && seen.Valid() && seen.maxSize == SEEN_SESSIONS
      && starts.Valid() && starts.maxSize == ANCHORS
    }

    constructor (repository: SessionsRepository)
      ensures Valid() && this.repository == repository && fresh(seen) && fresh(starts)
      ensures seen.order == [] && starts.Model() == Empty()
    {
      this.repository := repository;
      seen := new BoundedSet(SEEN_SESSIONS);
      starts := new BoundedDict(ANCHORS);
    }

    /** Insert the session on its first packet and read the stored anchor back. */
    method HandleSessionPacket(uid: SessionUid, time: real, now: Instant)
      requires Valid()
      modifies repository, seen, starts
      ensures Valid()
      ensures var isNew := uid !in old(seen.order);
              var start := now - Micros(time);
              var stored := if isNew then AnchorCache.InsertSession(old(repository.anchors), uid, start)
                            else old(repository.anchors);
              && repository.anchors == stored
              && seen.order == (if isNew then Touch(old(seen.order), SEEN_SESSIONS, uid) else old(seen.order))
              && starts.Model() == (if isNew
                                    then SetItem(old(starts.Model()), ANCHORS, uid, ReadBack(stored, uid, start))
                                    else old(starts.Model()))
    {
      if !seen.Contains(uid) {
        var start := now - Micros(time);
        repository.InsertSession(uid, start);
        var stored := repository.GetSessionStart(uid);
        starts.SetItem(uid, stored.GetOr(start));
        seen.Add(uid);
      }
    }
  }
}
