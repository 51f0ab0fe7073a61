/** Session History packets: incremental lap upserts and the session-bests row. */
module LapHistory {
  import opened Options
  import opened Recency
  import opened BoundedCollections
  import opened LapCompletions

  const TRACKED: nat := 500

  /** One entry of the packet's lap list; `sectors` are minute and millisecond parts. */
  datatype HistoryLap = HistoryLap(timeMs: nat, sectors: seq<(nat, nat)>, validFlags: nat)

  datatype Bests = Bests(lap: Option<nat>, sector1: Option<nat>, sector2: Option<nat>, sector3: Option<nat>)

  datatype HistoryPacket = HistoryPacket(driver: Driver, numLaps: nat, laps: seq<HistoryLap>, bests: Bests)

  datatype LapRow = LapRow(timeMs: nat, sectors: seq<Option<nat>>, valid: seq<bool>)

  datatype LapKey = LapKey(driver: Driver, lap: nat)

  type LapTable = map<LapKey, LapRow>

  /** A sector time is absent when both of its parts are zero. */
  function SectorMs(parts: (nat, nat)): Option<nat> {
    if parts.0 > 0 || parts.1 > 0 then Some(parts.0 * 60000 + parts.1) else None
  }

  function Flag(flags: nat, bit: nat): bool
    requires bit > 0
  {
    (flags / bit) % 2 == 1
  }

  function RowOf(l: HistoryLap): LapRow {
    LapRow(l.timeMs,
           seq(|l.sectors|, i requires 0 <= i < |l.sectors| => SectorMs(l.sectors[i])),
           [Flag(l.validFlags, 1), Flag(l.validFlags, 2), Flag(l.validFlags, 4), Flag(l.validFlags, 8)])
  }

  function Min(a: nat, b: nat): nat {
    if a < b then a else b
  }

  /** Upsert the laps at indices `from..to` that have a time. */
  function UpsertRange(t: LapTable, p: HistoryPacket, from: nat, to: nat): LapTable
    requires to <= |p.laps|
    decreases if from < to then to - from else 0
  {
    if from >= to then t
    else
      var t1 := if p.laps[from].timeMs == 0 then t else t[LapKey(p.driver, from + 1) := RowOf(p.laps[from])];
      UpsertRange(t1, p, from + 1, to)
  }

  /** The index the incremental update starts at: the last lap already reported may have been partial. */
  function StartIndex(lastNumLaps: nat): nat {
    if lastNumLaps == 0 then 0 else lastNumLaps - 1
  }

  /** The incremental update, given how many laps the driver's last packet reported. */
  function UpsertNew(t: LapTable, lastNumLaps: nat, p: HistoryPacket): LapTable {
    UpsertRange(t, p, StartIndex(lastNumLaps), Min(p.numLaps, |p.laps|))
  }

  /** The full rewrite it replaces: every lap of the packet that has a time. */
  function UpsertAll(t: LapTable, p: HistoryPacket): LapTable {
    UpsertRange(t, p, 0, Min(p.numLaps, |p.laps|))
  }

  datatype History = History(laps: LapTable, numLaps: Dict<Driver, nat>, bestsTable: map<Driver, Bests>,
          lastBests: Dict<Driver, Bests>)

  function Ingest(h: History, p: HistoryPacket): History {
    var laps := UpsertNew(h.laps, Lookup(h.numLaps.vals, p.driver).GetOr(0), p);
    var numLaps := SetItem(h.numLaps, TRACKED, p.driver, p.numLaps);
    if Lookup(h.lastBests.vals, p.driver) == Some(p.bests) then History(laps, numLaps, h.bestsTable, h.lastBests)
    else History(laps, numLaps, h.bestsTable[p.driver := p.bests], SetItem(h.lastBests, TRACKED, p.driver, p.bests))
  }

  // ---------------------------------------------------------------------------------------------
  // Agreement with the full rewrite
  // ---------------------------------------------------------------------------------------------

  ghost function Run(ps: seq<HistoryPacket>): History {
    if ps == [] then History(map[], Empty(), map[], Empty()) else Ingest(Run(ps[..|ps| - 1]), ps[|ps| - 1])
  }

  ghost function RewriteAll(ps: seq<HistoryPacket>): LapTable {
    if ps == [] then map[] else UpsertAll(RewriteAll(ps[..|ps| - 1]), ps[|ps| - 1])
  }

  /** `i` is the last packet of the driver. */
  ghost predicate LastOf(ps: seq<HistoryPacket>, d: Driver, i: nat) {
    i < |ps| && ps[i].driver == d && forall j :: i < j < |ps| ==> ps[j].driver != d
  }

  /** The two packets agree on the lap at that index: it is in neither, or the same in both. */
  ghost predicate SameLap(p: HistoryPacket, q: HistoryPacket, i: nat) {
    if i < |p.laps| && i < |q.laps| then p.laps[i] == q.laps[i] else |p.laps| <= i && |q.laps| <= i
  }

  /** `q` follows `p`: no fewer laps, and the laps before `p`'s last, partial one unchanged. */
  ghost predicate Follows(p: HistoryPacket, q: HistoryPacket) {
    p.numLaps <= q.numLaps && forall i: nat :: i < p.numLaps - 1 ==> SameLap(p, q, i)
  }

  /** Each driver's packets follow one another. */
  ghost predicate Consistent(ps: seq<HistoryPacket>) {
    forall i, j :: 0 <= i < j < |ps| && LastOf(ps[..j], ps[j].driver, i) ==> Follows(ps[i], ps[j])
  }

  /** The table holds every timed lap of the packet. */
  ghost predicate Holds(t: LapTable, p: HistoryPacket) {
    forall i :: 0 <= i < |p.laps| && i < p.numLaps && p.laps[i].timeMs != 0 ==>
      LapKey(p.driver, i + 1) in t && t[LapKey(p.driver, i + 1)] == RowOf(p.laps[i])
  }

  lemma {:induction false} UpsertRangeAt(t: LapTable, p: HistoryPacket, from: nat, to: nat, k: LapKey)
    requires to <= |p.laps|
    ensures Lookup(UpsertRange(t, p, from, to), k)
         == (if k.driver == p.driver && from < k.lap <= to && p.laps[k.lap - 1].timeMs != 0
             then Some(RowOf(p.laps[k.lap - 1]))
             else Lookup(t, k))
    decreases if from < to then to - from else 0
  {
    if from < to {
      var t1 := if p.laps[from].timeMs == 0 then t else t[LapKey(p.driver, from + 1) := RowOf(p.laps[from])];
      UpsertRangeAt(t1, p, from + 1, to, k);
    }
  }

  /** Skipping the laps already stored changes nothing. */
  lemma {:induction false} SkipStored(t: LapTable, p: HistoryPacket, start: nat, to: nat)
    requires start <= to <= |p.laps|
    requires forall i ::
                0 <= i < start && p.laps[i].timeMs != 0 ==> Lookup(t, LapKey(p.driver, i + 1)) == Some(RowOf(p.laps[i]))
    ensures UpsertRange(t, p, start, to) == UpsertRange(t, p, 0, to)
  {
    var a, b := UpsertRange(t, p, start, to), UpsertRange(t, p, 0, to);
    forall k
      ensures Lookup(a, k) == Lookup(b, k)
    {
      UpsertRangeAt(t, p, start, to, k);
      UpsertRangeAt(t, p, 0, to, k);
      if k.driver == p.driver && 0 < k.lap <= start {
        assert LapKey(p.driver, (k.lap - 1) + 1) == k;
        assert p.laps[k.lap - 1].timeMs != 0
            ==> Lookup(t, LapKey(p.driver, (k.lap - 1) + 1)) == Some(RowOf(p.laps[k.lap - 1]));
      }
    }
    SameLookups(a, b);
  }

  lemma {:induction false} UpsertAllHolds(t: LapTable, p: HistoryPacket, d: Driver)
    ensures Holds(UpsertAll(t, p), p)
    ensures d != p.driver ==> forall lap :: Lookup(UpsertAll(t, p), LapKey(d, lap)) == Lookup(t, LapKey(d, lap))
  {
    var to := Min(p.numLaps, |p.laps|);
    forall i | 0 <= i < |p.laps| && i < p.numLaps && p.laps[i].timeMs != 0
      ensures Lookup(UpsertAll(t, p), LapKey(p.driver, i + 1)) == Some(RowOf(p.laps[i]))
    {
      UpsertRangeAt(t, p, 0, to, LapKey(p.driver, i + 1));
    }
    if d != p.driver {
      forall lap
        ensures Lookup(UpsertAll(t, p), LapKey(d, lap)) == Lookup(t, LapKey(d, lap))
      {
        UpsertRangeAt(t, p, 0, to, LapKey(d, lap));
      }
    }
  }

  /** One incremental update against the driver's previous packet equals the full rewrite. */
  lemma {:induction false} IncrementIsRewrite(t: LapTable, p: HistoryPacket, q: HistoryPacket)
    requires Holds(t, p) && Follows(p, q) && p.driver == q.driver
    ensures UpsertNew(t, p.numLaps, q) == UpsertAll(t, q)
  {
    var to := Min(q.numLaps, |q.laps|);
    var start := Min(StartIndex(p.numLaps), to);
    forall i | 0 <= i < start && q.laps[i].timeMs != 0
      ensures Lookup(t, LapKey(q.driver, i + 1)) == Some(RowOf(q.laps[i]))
    {
      assert SameLap(p, q, i);
    }
    SkipStored(t, q, start, to);
  }

  /** What the caches and the table hold for a driver after a history: at most what its last packet said. */
  ghost predicate Tracks(ps: seq<HistoryPacket>, d: Driver) {
    var h := Run(ps);
    && (d in h.numLaps.vals ==> exists i: nat :: LastOf(ps, d, i) && h.numLaps.vals[d] == ps[i].numLaps)
    && (forall i: nat :: LastOf(ps, d, i) ==> Holds(h.laps, ps[i]))
  }

  /** A driver's last packet stays its last packet when another driver's packet arrives. */
  lemma {:induction false} LastOfSnoc(ps: seq<HistoryPacket>, d: Driver, i: nat)
    requires ps != []
    ensures LastOf(ps, d, i) <==> if ps[|ps| - 1].driver == d then i == |ps| - 1 else LastOf(ps[..|ps| - 1], d, i)
  {
  }

  lemma {:induction false} HoldsAfterOther(t: LapTable, p: HistoryPacket, q: HistoryPacket)
    requires Holds(t, p) && p.driver != q.driver
    ensures Holds(UpsertAll(t, q), p)
  {
    UpsertAllHolds(t, q, p.driver);
    forall i | 0 <= i < |p.laps| && i < p.numLaps && p.laps[i].timeMs != 0
      ensures Lookup(UpsertAll(t, q), LapKey(p.driver, i + 1)) == Some(RowOf(p.laps[i]))
    {
      assert Lookup(UpsertAll(t, q), LapKey(p.driver, i + 1)) == Lookup(t, LapKey(p.driver, i + 1));
    }
  }

  lemma {:induction false} TracksStep(ps: seq<HistoryPacket>, d: Driver)
    requires ps != [] && Tracks(ps[..|ps| - 1], d)
    requires Run(ps).laps == UpsertAll(Run(ps[..|ps| - 1]).laps, ps[|ps| - 1])
    ensures Tracks(ps, d)
  {
    var n := |ps| - 1;
    var h0, h := Run(ps[..n]), Run(ps);
    if d in h.numLaps.vals {
      if ps[n].driver == d {
        LastOfSnoc(ps, d, n);
      } else {
        var i: nat :| LastOf(ps[..n], d, i) && h0.numLaps.vals[d] == ps[..n][i].numLaps;
        LastOfSnoc(ps, d, i);
      }
    }
    forall i: nat | LastOf(ps, d, i)
      ensures Holds(h.laps, ps[i])
    {
      LastOfSnoc(ps, d, i);
      if ps[n].driver == d {
        UpsertAllHolds(h0.laps, ps[n], d);
      } else {
        assert ps[..n][i] == ps[i];
        HoldsAfterOther(h0.laps, ps[i], ps[n]);
      }
    }
  }

  /**
   Refinement: when each driver's packets follow one another, the incremental upserts leave the laps
   table exactly as upserting every timed lap of every packet would, whatever the cache evicts.
   */
  lemma {:induction false} IncrementalEqualsRewrite(ps: seq<HistoryPacket>)
    requires Consistent(ps)
    ensures Run(ps).laps == RewriteAll(ps)
    ensures forall d :: Tracks(ps, d)
  {
    if ps != [] {
      var n := |ps| - 1;
      assert forall j :: 0 <= j < n ==> ps[..n][..j] == ps[..j];
      IncrementalEqualsRewrite(ps[..n]);
      var q, h := ps[n], Run(ps[..n]);
      assert Tracks(ps[..n], q.driver);
      if q.driver in h.numLaps.vals {
        var i: nat :| LastOf(ps[..n], q.driver, i) && h.numLaps.vals[q.driver] == ps[..n][i].numLaps;
        assert Follows(ps[i], ps[n]);
        IncrementIsRewrite(h.laps, ps[i], q);
      }
      forall d
        ensures Tracks(ps, d)
      {
        assert Tracks(ps[..n], d);
        TracksStep(ps, d);
      }
    }
  }

  /** What the write-skipping cache holds for a driver is what its row holds. */
  lemma {:induction false} CachedBestsAreStored(ps: seq<HistoryPacket>, d: Driver)
    ensures d in Run(ps).lastBests.vals ==> Lookup(Run(ps).bestsTable, d) == Some(Run(ps).lastBests.vals[d])
  {
    if ps != [] {
      CachedBestsAreStored(ps[..|ps| - 1], d);
    }
  }

  /** The session-bests row of every driver seen equals its last packet's bests, although most writes are skipped. */
  lemma {:induction false} BestsAreLastPacket(ps: seq<HistoryPacket>, d: Driver, i: nat)
    requires LastOf(ps, d, i)
    ensures Lookup(Run(ps).bestsTable, d) == Some(ps[i].bests)
  {
    var n := |ps| - 1;
    LastOfSnoc(ps, d, i);
    if i < n {
      BestsAreLastPacket(ps[..n], d, i);
    } else {
      CachedBestsAreStored(ps[..n], d);
    }
  }

  // ---------------------------------------------------------------------------------------------
  // What the laps table holds
  // ---------------------------------------------------------------------------------------------

  /** The packet reports the lap, with a time. */
  ghost predicate Times(p: HistoryPacket, k: LapKey) {
    && p.driver == k.driver && 1 <= k.lap <= p.numLaps && k.lap <= |p.laps|
    && p.laps[k.lap - 1].timeMs > 0
  }

  /** A time of minutes and milliseconds, absent if both are zero. */
  ghost predicate IsSectorTime(time: Option<nat>, minutes: nat, ms: nat) {
    if minutes == 0 && ms == 0 then time == None else time == Some(60000 * minutes + ms)
  }

  function Bit(on: bool, value: nat): nat {
    if on then value else 0
  }

  /** The lowest four bits of the flags, the lowest first. */
  ghost predicate AreLowBits(valid: seq<bool>, flags: nat) {
    && |valid| == 4
    && flags % 16 == Bit(valid[0], 1) + Bit(valid[1], 2) + Bit(valid[2], 4) + Bit(valid[3], 8)
  }

  /** The row has the lap's time, its sectors', and whether it and they are valid. */
  ghost predicate Tells(r: LapRow, l: HistoryLap) {
    && r.timeMs == l.timeMs && |r.sectors| == |l.sectors|
    && (forall i :: 0 <= i < |l.sectors| ==> IsSectorTime(r.sectors[i], l.sectors[i].0, l.sectors[i].1))
    && AreLowBits(r.valid, l.validFlags)
  }

  lemma {:induction false} FlagsBelow16(low: nat)
    requires low < 16
    ensures AreLowBits([Flag(low, 1), Flag(low, 2), Flag(low, 4), Flag(low, 8)], low)
  {
  }

  /** The higher bits are whole multiples of sixteen. */
  lemma {:induction false} HigherBits(high: nat, low: nat)
    requires low < 16
    ensures Flag(16 * high + low, 1) == Flag(low, 1) && Flag(16 * high + low, 2) == Flag(low, 2)
    ensures Flag(16 * high + low, 4) == Flag(low, 4) && Flag(16 * high + low, 8) == Flag(low, 8)
  {
    assert (16 * high + low) / 2 == 8 * high + low / 2;
    assert (16 * high + low) / 4 == 4 * high + low / 4;
    assert (16 * high + low) / 8 == 2 * high + low / 8;
  }

  lemma {:induction false} LowBits(flags: nat)
    ensures AreLowBits([Flag(flags, 1), Flag(flags, 2), Flag(flags, 4), Flag(flags, 8)], flags)
  {
    HigherBits(flags / 16, flags % 16);
    FlagsBelow16(flags % 16);
  }

  lemma {:induction false} RowTells(l: HistoryLap)
    ensures Tells(RowOf(l), l)
  {
    LowBits(l.validFlags);
  }

  /** The last packet to time the lap. */
  ghost predicate LastToTime(ps: seq<HistoryPacket>, k: LapKey, i: nat) {
    i < |ps| && Times(ps[i], k) && forall j :: i < j < |ps| ==> !Times(ps[j], k)
  }

  lemma {:induction false} UpsertAllTells(t: LapTable, p: HistoryPacket, k: LapKey)
    ensures if Times(p, k) then k in UpsertAll(t, p) && Tells(UpsertAll(t, p)[k], p.laps[k.lap - 1])
            else Lookup(UpsertAll(t, p), k) == Lookup(t, k)
  {
    UpsertRangeAt(t, p, 0, Min(p.numLaps, |p.laps|), k);
    if Times(p, k) {
      RowTells(p.laps[k.lap - 1]);
    }
  }

  lemma {:induction false} LastToTimeSnoc(ps: seq<HistoryPacket>, k: LapKey, i: nat)
    requires ps != []
    ensures LastToTime(ps, k, i) <==> if Times(ps[|ps| - 1], k) then i == |ps| - 1 else LastToTime(ps[..|ps| - 1], k, i)
  {
  }

  lemma {:induction false} RewriteTells(ps: seq<HistoryPacket>, k: LapKey, i: nat)
    requires LastToTime(ps, k, i)
    ensures k in RewriteAll(ps) && Tells(RewriteAll(ps)[k], ps[i].laps[k.lap - 1])
  {
    var n := |ps| - 1;
    LastToTimeSnoc(ps, k, i);
    UpsertAllTells(RewriteAll(ps[..n]), ps[n], k);
    if i < n {
      RewriteTells(ps[..n], k, i);
    }
  }

  lemma {:induction false} RewriteTimed(ps: seq<HistoryPacket>, k: LapKey)
    ensures k in RewriteAll(ps) <==> exists i :: 0 <= i < |ps| && Times(ps[i], k)
  {
    if ps != [] {
      var n := |ps| - 1;
      RewriteTimed(ps[..n], k);
      UpsertAllTells(RewriteAll(ps[..n]), ps[n], k);
      assert forall i :: 0 <= i < n ==> ps[..n][i] == ps[i];
    }
  }

  /**
   When each driver's packets follow one another: the table holds exactly the laps that a packet timed, and of each
   what the last packet to time it said.
   */
  lemma {:induction false} TableTellsLastTimed(ps: seq<HistoryPacket>, k: LapKey)
    requires Consistent(ps)
    ensures k in Run(ps).laps <==> exists i :: 0 <= i < |ps| && Times(ps[i], k)
    ensures forall i: nat ::
              LastToTime(ps, k, i) ==> k in Run(ps).laps && Tells(Run(ps).laps[k], ps[i].laps[k.lap - 1])
  {
    IncrementalEqualsRewrite(ps);
    RewriteTimed(ps, k);
    forall i: nat | LastToTime(ps, k, i)
      ensures k in Run(ps).laps && Tells(Run(ps).laps[k], ps[i].laps[k.lap - 1])
    {
      RewriteTells(ps, k, i);
    }
  }

  // ---------------------------------------------------------------------------------------------
  // The service
  // ---------------------------------------------------------------------------------------------

  class LapHistoryService {
    const lastNumLaps: BoundedDict<Driver, nat>
    const lastBests: BoundedDict<Driver, Bests>
    var laps: LapTable
    var sessionBests: map<Driver, Bests>

    ghost predicate Valid()
      reads lastNumLaps, lastBests
    {
      && lastNumLaps.Valid() && lastNumLaps.maxSize == TRACKED
      && lastBests.Valid() && lastBests.maxSize == TRACKED
      && (lastNumLaps as object) != (lastBests as object)
    }

    ghost function Contents(): History
      reads this, lastNumLaps, lastBests
    {
      History(laps, lastNumLaps.Model(), sessionBests, lastBests.Model())
    }

    constructor ()
      ensures Valid() && Contents() == Run([])
    {
      lastNumLaps := new BoundedDict(TRACKED);
      lastBests := new BoundedDict(TRACKED);
      laps, sessionBests := map[], map[];
    }

    /** The incremental, batched upsert of a packet's laps. */
    method UpsertLaps(p: HistoryPacket)
      requires Valid()
      modifies this`laps, lastNumLaps
      ensures Valid()
      ensures laps == UpsertNew(old(laps), Lookup(old(lastNumLaps.data), p.driver).GetOr(0), p)
      ensures lastNumLaps.Model() == SetItem(old(lastNumLaps.Model()), TRACKED, p.driver, p.numLaps)
    {
      var batch := NewLaps(p, StartIndex(lastNumLaps.Get(p.driver).GetOr(0)), laps);
      UpsertBatch(batch);
      lastNumLaps.SetItem(p.driver, p.numLaps);
    }

    /** The rows of the packet's timed laps from index `start` on. */
    static method NewLaps(p: HistoryPacket, start: nat, ghost t: LapTable) returns (batch: seq<(LapKey, LapRow)>)
      ensures Upserted(t, batch) == UpsertRange(t, p, start, Min(p.numLaps, |p.laps|))
    {
      var to := Min(p.numLaps, |p.laps|);
      batch := [];
      if start < to {
        for i := start to to
          invariant UpsertRange(Upserted(t, batch), p, i, to) == UpsertRange(t, p, start, to)
        {
          if p.laps[i].timeMs != 0 {
            UpsertedSnoc(t, batch, LapKey(p.driver, i + 1), RowOf(p.laps[i]));
            batch := batch + [(LapKey(p.driver, i + 1), RowOf(p.laps[i]))];
          }
        }
      }
    }

    /** `upsert_laps_batch`. */
    method UpsertBatch(batch: seq<(LapKey, LapRow)>)
      modifies this`laps
      ensures laps == Upserted(old(laps), batch)
    {
      for i := 0 to |batch|
        invariant laps == Upserted(old(laps), batch[..i])
      {
        assert batch[..i + 1] == batch[..i] + [batch[i]];
        UpsertedSnoc(old(laps), batch[..i], batch[i].0, batch[i].1);
        laps := laps[batch[i].0 := batch[i].1];
      }
      assert batch[..|batch|] == batch;
    }

    /** The session bests, written only when they differ from the last ones written. */
    method UpsertSessionBests(p: HistoryPacket)
      requires Valid()
      modifies this`sessionBests, lastBests
      ensures Valid()
      ensures if Lookup(old(lastBests.data), p.driver) == Some(p.bests)
              then sessionBests == old(sessionBests) && lastBests.Model() == old(lastBests.Model())
              else sessionBests == old(sessionBests)[p.driver := p.bests]
                   && lastBests.Model() == SetItem(old(lastBests.Model()), TRACKED, p.driver, p.bests)
    {
      if lastBests.Get(p.driver) == Some(p.bests) {
        return;
      }
      sessionBests := sessionBests[p.driver := p.bests];
      lastBests.SetItem(p.driver, p.bests);
    }

    method HandleSessionHistory(p: HistoryPacket)
      requires Valid()
      modifies this, lastNumLaps, lastBests
      ensures Valid()
      ensures Contents() == Ingest(old(Contents()), p)
    {
      UpsertLaps(p);
      UpsertSessionBests(p);
    }
  }

  function Upserted(t: LapTable, batch: seq<(LapKey, LapRow)>): LapTable {
    if batch == [] then t
    else Upserted(t, batch[..|batch| - 1])[batch[|batch| - 1].0 := batch[|batch| - 1].1]
  }

  lemma {:induction false} UpsertedSnoc(t: LapTable, batch: seq<(LapKey, LapRow)>, k: LapKey, r: LapRow)
    ensures Upserted(t, batch + [(k, r)]) == Upserted(t, batch)[k := r]
  {
  }
}
