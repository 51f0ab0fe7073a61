/** From the packets of one simulation tick to the rows written for it. */
module CarFrames {
  import opened Options
  import opened Recency
  import opened FrameBufferModel
  import opened FrameTables

  const MAX_CARS: nat := 24
  const NOT_SET: nat := 255

  const MOTION: PacketId := 0
  const LAP_DATA: PacketId := 2
  const TELEMETRY: PacketId := 6
  const STATUS: PacketId := 7
  const DAMAGE: PacketId := 10
  const TELEMETRY2: PacketId := 16

  /** One packet type's columns for one car. */
  type Cell = int

  datatype Lap = Lap(number: nat, driverStatus: nat, position: nat, gapAhead: int)

  /** A parsed car frame packet: `laps` holds the per-car data of a Lap Data packet, `cells` of any other. */
  datatype ParsedPacket = ParsedPacket(sessionTime: real, cells: seq<Cell>, laps: seq<Lap>)

  /** The body sizes are validated, so every per-car array has MAX_CARS entries. */
  type CarPacket = p: ParsedPacket | |p.cells| == MAX_CARS && |p.laps| == MAX_CARS
    witness ParsedPacket(0.0, seq(MAX_CARS, _ => 0), seq(MAX_CARS, _ => Lap(0, 0, 0, 0)))

  type Car = c: nat | c < MAX_CARS

  /** `range(MAX_CARS)`. */
  function Cars(): seq<Car> {
    seq(MAX_CARS, i requires 0 <= i < MAX_CARS => i)
  }

  type UserMap = map<nat, UserId>

  datatype FrameRow = FrameRow(
    motion: Option<Cell>,
    telemetry: Option<Cell>,
    lap: Option<Lap>,
    statusPublic: Option<Cell>,
    statusRestricted: Option<Cell>,
    telemetry2: Option<Cell>,
    gapBehind: Option<int>)
  {
    function Position(): Option<nat> {
      if lap.Some? && lap.value.position != NOT_SET then Some(lap.value.position) else None
    }
  }

  /** What `write_frame` is told besides the packets. */
  datatype Tick = Tick(uid: SessionUid, frame: FrameId, time: real, users: UserMap, restricted: set<nat>,
                       start: Option<Instant>, now: Instant)

  /** Derived from the session anchor; wall clock only when the anchor is not known. */
  function Timestamp(t: Tick): Instant {
    if t.start.Some? then t.start.value + Micros(t.time) else t.now
  }

  function CellOf(packets: Packets<CarPacket>, id: PacketId, car: Car): Option<Cell>
  {
    if id in packets.vals then Some(packets.vals[id].cells[car]) else None
  }

  function LapOf(packets: Packets<CarPacket>, car: Car): Option<Lap>
  {
    if LAP_DATA in packets.vals then Some(packets.vals[LAP_DATA].laps[car]) else None
  }

  /** A mapped driver who is not sitting in the garage. */
  predicate Records(t: Tick, packets: Packets<CarPacket>, car: Car) {
    car in t.users && !(LapOf(packets, car).Some? && LapOf(packets, car).value.driverStatus == 0)
  }

  function KeyOf(t: Tick, car: nat): Key
    requires car in t.users
  {
    Key(Timestamp(t), t.uid, t.users[car], t.frame)
  }

  function RowOf(t: Tick, packets: Packets<CarPacket>, car: Car): FrameRow {
    var status := CellOf(packets, STATUS, car);
    FrameRow(CellOf(packets, MOTION, car), CellOf(packets, TELEMETRY, car), LapOf(packets, car),
             status, if car in t.restricted then None else status, CellOf(packets, TELEMETRY2, car), None)
  }

  /** The rows of the listed cars, before gaps to the car behind are filled in. */
  function RowsFor(t: Tick, packets: Packets<CarPacket>, cars: seq<Car>): seq<(Key, Stored<FrameRow>)>
    decreases cars
  {
    if cars == [] then []
    else (if Records(t, packets, cars[0])
          then [(KeyOf(t, cars[0]), Stored(t.time, RowOf(t, packets, cars[0])))] else [])
         + RowsFor(t, packets, cars[1..])
  }

  /** A damage row for each recorded car that is not restricted. */
  function DamageFor(t: Tick, packets: Packets<CarPacket>, cars: seq<Car>): seq<(Key, Stored<Cell>)>
    decreases cars
  {
    if cars == [] then []
    else (if Records(t, packets, cars[0]) && DAMAGE in packets.vals && cars[0] !in t.restricted
          then [(KeyOf(t, cars[0]), Stored(t.time, packets.vals[DAMAGE].cells[cars[0]]))] else [])
         + DamageFor(t, packets, cars[1..])
  }

  // ---------------------------------------------------------------------------------------------
  // Gap to the car behind
  // ---------------------------------------------------------------------------------------------

  /** The gap each position reports to the car ahead of it; a later row wins a shared position. */
  function GapsByPosition(rows: seq<(Key, Stored<FrameRow>)>): map<nat, int> {
    if rows == [] then map[]
    else
      var last := rows[|rows| - 1].1.row;
      var gaps := GapsByPosition(rows[..|rows| - 1]);
      if last.Position().Some? then gaps[last.Position().value := last.lap.value.gapAhead] else gaps
  }

  function WithGap(row: (Key, Stored<FrameRow>), gaps: map<nat, int>): (Key, Stored<FrameRow>) {
    var p := row.1.row.Position();
    if p.Some? && p.value + 1 in gaps then (row.0, row.1.(row := row.1.row.(gapBehind := Some(gaps[p.value + 1]))))
    else row
  }

  function WithGaps(rows: seq<(Key, Stored<FrameRow>)>): seq<(Key, Stored<FrameRow>)> {
    var gaps := GapsByPosition(rows);
    seq(|rows|, i requires 0 <= i < |rows| => WithGap(rows[i], gaps))
  }

  /** Row `j` is the last one to report position `p`. */
  ghost predicate LastAt(rows: seq<(Key, Stored<FrameRow>)>, p: nat, j: nat) {
    && j < |rows| && rows[j].1.row.Position() == Some(p)
    && forall i :: j < i < |rows| ==> rows[i].1.row.Position() != Some(p)
  }

  lemma {:induction false} GapsByPositionFacts(rows: seq<(Key, Stored<FrameRow>)>, p: nat)
    ensures p in GapsByPosition(rows) <==> exists j: nat :: LastAt(rows, p, j)
    ensures forall j: nat :: LastAt(rows, p, j) ==> GapsByPosition(rows)[p] == rows[j].1.row.lap.value.gapAhead
  {
    if rows != [] {
      var n := |rows| - 1;
      GapsByPositionFacts(rows[..n], p);
      if rows[n].1.row.Position() == Some(p) {
        assert LastAt(rows, p, n);
        assert forall j: nat :: LastAt(rows, p, j) ==> j == n;
      } else {
        forall j: nat
          ensures LastAt(rows, p, j) <==> LastAt(rows[..n], p, j)
        {
        }
      }
    }
  }

  /** The gap reported by the car in position `p`, if some row holds it. */
  ghost predicate ReportsGap(rows: seq<(Key, Stored<FrameRow>)>, p: nat, gap: int) {
    exists j: nat :: LastAt(rows, p, j) && rows[j].1.row.lap.value.gapAhead == gap
  }

  /**
   Each row keeps its key and everything else; its gap to the car behind is the gap ahead that the
   car one position back reports, and stays unset when no row holds that position.
   */
  lemma {:induction false} GapBehindIsGapAheadOfFollower(rows: seq<(Key, Stored<FrameRow>)>, i: nat)
    requires i < |rows| && rows[i].1.row.gapBehind == None
    ensures |WithGaps(rows)| == |rows| && WithGaps(rows)[i].0 == rows[i].0
    ensures WithGaps(rows)[i].1 == rows[i].1.(row := rows[i].1.row.(gapBehind := WithGaps(rows)[i].1.row.gapBehind))
    ensures forall gap :: WithGaps(rows)[i].1.row.gapBehind == Some(gap)
                     <==> rows[i].1.row.Position().Some? && ReportsGap(rows, rows[i].1.row.Position().value + 1, gap)
  {
    if rows[i].1.row.Position().Some? {
      GapsByPositionFacts(rows, rows[i].1.row.Position().value + 1);
    }
  }

  // ---------------------------------------------------------------------------------------------
  // Keys of a tick
  // ---------------------------------------------------------------------------------------------

  ghost predicate HasKey<R>(rows: seq<(Key, R)>, k: Key) {
    exists i :: 0 <= i < |rows| && rows[i].0 == k
  }

  /** Every row of a batch carries its tick's session, frame and time, and the timestamp derived from them. */
  ghost predicate OfTick<R>(t: Tick, rows: seq<(Key, Stored<R>)>) {
    forall i :: 0 <= i < |rows| ==>
      && rows[i].0.timestamp == Timestamp(t) && rows[i].0.uid == t.uid && rows[i].0.frame == t.frame
      && rows[i].1.time == t.time
  }

  lemma {:induction false} RowsOfTick(t: Tick, packets: Packets<CarPacket>, cars: seq<Car>)
    ensures OfTick(t, RowsFor(t, packets, cars)) && OfTick(t, DamageFor(t, packets, cars))
    ensures forall i :: 0 <= i < |RowsFor(t, packets, cars)| ==> RowsFor(t, packets, cars)[i].1.row.gapBehind == None
    decreases cars
  {
    if cars != [] {
      RowsOfTick(t, packets, cars[1..]);
    }
  }

  lemma {:induction false} HasKeyConcat<R>(a: seq<(Key, R)>, b: seq<(Key, R)>, k: Key)
    ensures HasKey(a + b, k) <==> HasKey(a, k) || HasKey(b, k)
  {
    forall i | 0 <= i < |b| && b[i].0 == k
      ensures HasKey(a + b, k)
    {
      assert (a + b)[|a| + i].0 == k;
    }
    forall i | 0 <= i < |a| && a[i].0 == k
      ensures HasKey(a + b, k)
    {
      assert (a + b)[i].0 == k;
    }
  }

  ghost predicate RowFrom(t: Tick, packets: Packets<CarPacket>, car: Car, r: (Key, Stored<FrameRow>)) {
    Records(t, packets, car) && r == (KeyOf(t, car), Stored(t.time, RowOf(t, packets, car)))
  }

  ghost predicate DamageFrom(t: Tick, packets: Packets<CarPacket>, car: Car, r: (Key, Stored<Cell>)) {
    && Records(t, packets, car) && DAMAGE in packets.vals && car !in t.restricted
    && r == (KeyOf(t, car), Stored(t.time, packets.vals[DAMAGE].cells[car]))
  }

  /** The rows of a tick are those of the recorded cars, no more and no fewer. */
  lemma {:induction false} RowsAreThoseRecorded(t: Tick, packets: Packets<CarPacket>, cars: seq<Car>,
          r: (Key, Stored<FrameRow>))
    ensures r in RowsFor(t, packets, cars) <==> exists car :: car in cars && RowFrom(t, packets, car, r)
    decreases cars
  {
    if cars != [] {
      RowsAreThoseRecorded(t, packets, cars[1..], r);
      forall car | car in cars
        ensures car == cars[0] || car in cars[1..]
      {
      }
      if RowFrom(t, packets, cars[0], r) {
        assert cars[0] in cars;
      }
    }
  }

  /** The damage rows are those of the recorded cars that do not withhold their telemetry. */
  lemma {:induction false} DamageRowsAreThoseVisible(t: Tick, packets: Packets<CarPacket>, cars: seq<Car>,
          r: (Key, Stored<Cell>))
    ensures r in DamageFor(t, packets, cars) <==> exists car :: car in cars && DamageFrom(t, packets, car, r)
    decreases cars
  {
    if cars != [] {
      DamageRowsAreThoseVisible(t, packets, cars[1..], r);
      forall car | car in cars
        ensures car == cars[0] || car in cars[1..]
      {
      }
      if DamageFrom(t, packets, cars[0], r) {
        assert cars[0] in cars;
      }
    }
  }

  /** Every damage row of a tick shares its key with a frame row of the same tick. */
  lemma {:induction false} DamageRowsHaveFrameRows(t: Tick, packets: Packets<CarPacket>, cars: seq<Car>, k: Key)
    requires HasKey(DamageFor(t, packets, cars), k)
    ensures HasKey(RowsFor(t, packets, cars), k)
  {
    var i :| 0 <= i < |DamageFor(t, packets, cars)| && DamageFor(t, packets, cars)[i].0 == k;
    DamageRowsAreThoseVisible(t, packets, cars, DamageFor(t, packets, cars)[i]);
    var car :| car in cars && DamageFrom(t, packets, car, DamageFor(t, packets, cars)[i]);
    var r := (k, Stored(t.time, RowOf(t, packets, car)));
    RowsAreThoseRecorded(t, packets, cars, r);
    assert RowFrom(t, packets, car, r);
    assert r in RowsFor(t, packets, cars);
  }

  // ---------------------------------------------------------------------------------------------
  // A tick's rows, read off the packets
  // ---------------------------------------------------------------------------------------------

  /** A confirmed driver's car, not in the garage as far as its own lap data tells. */
  ghost predicate OnTrack(t: Tick, packets: Packets<CarPacket>, car: Car) {
    car in t.users && (2 in packets.vals ==> packets.vals[2].laps[car].driverStatus != 0)
  }

  /** The column holds entry `car` of the packet that came, and is unset if none did. */
  ghost predicate Holds(column: Option<Cell>, packets: Packets<CarPacket>, id: PacketId, car: Car) {
    column == if id in packets.vals then Some(packets.vals[id].cells[car]) else None
  }

  /** Every column is of the car's own data; what the driver withholds is unset. */
  ghost predicate OwnColumns(row: FrameRow, packets: Packets<CarPacket>, car: Car, restricted: bool) {
    && Holds(row.motion, packets, 0, car) && Holds(row.telemetry, packets, 6, car)
    && Holds(row.telemetry2, packets, 16, car)
    && row.lap == (if 2 in packets.vals then Some(packets.vals[2].laps[car]) else None)
    && Holds(row.statusPublic, packets, 7, car)
    && (if restricted then row.statusRestricted == None else Holds(row.statusRestricted, packets, 7, car))
  }

  /** The car is on track and its lap data puts it in position `p`. */
  ghost predicate InPosition(t: Tick, packets: Packets<CarPacket>, car: Car, p: nat) {
    OnTrack(t, packets, car) && 2 in packets.vals && packets.vals[2].laps[car].position == p && p != 255
  }

  /** Of the first `n` cars this is the last one in position `p`. */
  ghost predicate LastInPosition(t: Tick, packets: Packets<CarPacket>, car: Car, p: nat, n: nat) {
    && car < n && InPosition(t, packets, car, p)
    && forall c: Car :: car < c < n ==> !InPosition(t, packets, c, p)
  }

  lemma {:induction false} RowsForSnoc(t: Tick, packets: Packets<CarPacket>, cars: seq<Car>, car: Car)
    ensures RowsFor(t, packets, cars + [car]) == RowsFor(t, packets, cars) + RowsFor(t, packets, [car])
    decreases cars
  {
    if cars == [] {
      assert cars + [car] == [car];
    } else {
      assert (cars + [car])[1..] == cars[1..] + [car];
      RowsForSnoc(t, packets, cars[1..], car);
    }
  }

  lemma {:induction false} RowOfCar(t: Tick, packets: Packets<CarPacket>, car: Car)
    ensures if OnTrack(t, packets, car)
            then RowsFor(t, packets, [car]) == [(KeyOf(t, car), Stored(t.time, RowOf(t, packets, car)))]
                 && OwnColumns(RowOf(t, packets, car), packets, car, car in t.restricted)
            else RowsFor(t, packets, [car]) == []
  {
    assert RowsFor(t, packets, [car][1..]) == [];
  }

  lemma {:induction false} FirstCars(n: nat)
    requires n < MAX_CARS
    ensures Cars()[..n + 1] == Cars()[..n] + [n]
  {
  }

  lemma {:induction false} GapsSnoc(rows: seq<(Key, Stored<FrameRow>)>, r: (Key, Stored<FrameRow>))
    ensures GapsByPosition(rows + [r])
         == (if r.1.row.lap.Some? && r.1.row.lap.value.position != 255
             then GapsByPosition(rows)[r.1.row.lap.value.position := r.1.row.lap.value.gapAhead]
             else GapsByPosition(rows))
  {
    assert (rows + [r])[..|rows|] == rows;
  }

  /** The gaps by position are those of the cars on track, the last car in a position counting. */
  lemma {:induction false} GapsOfCars(t: Tick, packets: Packets<CarPacket>, n: nat, p: nat)
    requires n <= MAX_CARS
    ensures var gaps := GapsByPosition(RowsFor(t, packets, Cars()[..n]));
            && (p in gaps <==> exists c: Car :: LastInPosition(t, packets, c, p, n))
            && forall c: Car :: LastInPosition(t, packets, c, p, n) ==> gaps[p] == packets.vals[2].laps[c].gapAhead
  {
    if n > 0 {
      var m: Car := n - 1;
      var before := RowsFor(t, packets, Cars()[..m]);
      GapsOfCars(t, packets, m, p);
      FirstCars(m);
      RowsForSnoc(t, packets, Cars()[..m], m);
      RowOfCar(t, packets, m);
      if OnTrack(t, packets, m) {
        GapsSnoc(before, (KeyOf(t, m), Stored(t.time, RowOf(t, packets, m))));
      } else {
        assert before + [] == before;
      }
      LastOfOneMore(t, packets, m, n, p);
    }
  }

  lemma {:induction false} LastOfOneMore(t: Tick, packets: Packets<CarPacket>, m: Car, n: nat, p: nat)
    requires n == m + 1
    ensures forall c: Car :: LastInPosition(t, packets, c, p, n)
                        <==> if InPosition(t, packets, m, p) then c == m else LastInPosition(t, packets, c, p, m)
    ensures (exists c: Car :: LastInPosition(t, packets, c, p, n))
       <==> InPosition(t, packets, m, p) || exists c: Car :: LastInPosition(t, packets, c, p, m)
  {
    if InPosition(t, packets, m, p) {
      assert LastInPosition(t, packets, m, p, n);
    } else if c: Car :| LastInPosition(t, packets, c, p, m) {
      assert LastInPosition(t, packets, c, p, n);
    } else {
      forall c: Car
        ensures !LastInPosition(t, packets, c, p, n)
      {
        assert !LastInPosition(t, packets, c, p, m);
      }
    }
  }

  /** The row's gap to the car behind is what the last car one position back reports, if one does. */
  ghost predicate GapBehindOf(row: FrameRow, t: Tick, packets: Packets<CarPacket>, car: Car) {
    forall gap :: row.gapBehind == Some(gap) <==>
      && 2 in packets.vals && packets.vals[2].laps[car].position != 255
      && exists c: Car :: LastInPosition(t, packets, c, packets.vals[2].laps[car].position + 1, MAX_CARS)
                          && packets.vals[2].laps[c].gapAhead == gap
  }

  /** The row a car's data make. */
  ghost predicate IsRowOf(r: (Key, Stored<FrameRow>), t: Tick, packets: Packets<CarPacket>, car: Car) {
    && OnTrack(t, packets, car)
    && r.0 == Key(Timestamp(t), t.uid, t.users[car], t.frame) && r.1.time == t.time
    && OwnColumns(r.1.row, packets, car, car in t.restricted)
    && GapBehindOf(r.1.row, t, packets, car)
  }

  ghost predicate HasRowOf(rows: seq<(Key, Stored<FrameRow>)>, t: Tick, packets: Packets<CarPacket>, car: Car) {
    exists r :: r in rows && IsRowOf(r, t, packets, car)
  }

  /** A row for each car on track and no other, each of the car's own data. */
  ghost predicate AreRowsOf(rows: seq<(Key, Stored<FrameRow>)>, t: Tick, packets: Packets<CarPacket>) {
    && (forall r :: r in rows ==> exists car: Car :: IsRowOf(r, t, packets, car))
    && (forall car: Car {:trigger HasRowOf(rows, t, packets, car)} ::
          OnTrack(t, packets, car) ==> HasRowOf(rows, t, packets, car))
  }

  lemma {:induction false} WithGapSets(r: (Key, Stored<FrameRow>), gaps: map<nat, int>)
    requires r.1.row.gapBehind == None
    ensures WithGap(r, gaps).0 == r.0 && WithGap(r, gaps).1.time == r.1.time
    ensures var row := WithGap(r, gaps).1.row;
            && row == r.1.row.(gapBehind := row.gapBehind)
            && row.gapBehind == if r.1.row.lap.None? || r.1.row.lap.value.position == 255 then None
                                else Lookup(gaps, r.1.row.lap.value.position + 1)
  {
  }

  lemma {:induction false} FilledGap(row: FrameRow, t: Tick, packets: Packets<CarPacket>, car: Car, gaps: map<nat, int>)
    requires gaps == GapsByPosition(RowsFor(t, packets, Cars()))
    requires row.gapBehind == if 2 !in packets.vals || packets.vals[2].laps[car].position == 255 then None
                              else Lookup(gaps, packets.vals[2].laps[car].position + 1)
    ensures GapBehindOf(row, t, packets, car)
  {
    assert Cars()[..MAX_CARS] == Cars();
    if 2 in packets.vals {
      GapsOfCars(t, packets, MAX_CARS, packets.vals[2].laps[car].position + 1);
    }
  }

  lemma {:induction false} FilledRow(t: Tick, packets: Packets<CarPacket>, car: Car, r: (Key, Stored<FrameRow>),
          gaps: map<nat, int>)
    requires OnTrack(t, packets, car) && r == (KeyOf(t, car), Stored(t.time, RowOf(t, packets, car)))
    requires gaps == GapsByPosition(RowsFor(t, packets, Cars()))
    ensures IsRowOf(WithGap(r, gaps), t, packets, car)
  {
    RowOfCar(t, packets, car);
    WithGapSets(r, gaps);
    FilledGap(WithGap(r, gaps).1.row, t, packets, car, gaps);
  }

  /**
   What is written for a tick: a row for each confirmed driver's car that its own lap data does not put in the
   garage, and no other; each row holds that car's own data, without what the driver withholds, and the gap the
   car behind reports.
   */
  lemma {:induction false} TickRowsAreOwnData(t: Tick, packets: Packets<CarPacket>)
    ensures AreRowsOf(WithGaps(RowsFor(t, packets, Cars())), t, packets)
  {
    var raw := RowsFor(t, packets, Cars());
    var gaps := GapsByPosition(raw);
    forall r | r in WithGaps(raw)
      ensures exists car: Car :: IsRowOf(r, t, packets, car)
    {
      var i :| 0 <= i < |raw| && WithGaps(raw)[i] == r;
      RowsAreThoseRecorded(t, packets, Cars(), raw[i]);
      var car: Car :| car in Cars() && RowFrom(t, packets, car, raw[i]);
      FilledRow(t, packets, car, raw[i], gaps);
      assert IsRowOf(r, t, packets, car);
    }
    forall car: Car | OnTrack(t, packets, car)
      ensures HasRowOf(WithGaps(raw), t, packets, car)
    {
      var r := (KeyOf(t, car), Stored(t.time, RowOf(t, packets, car)));
      assert Cars()[car] == car;
      assert RowFrom(t, packets, car, r);
      RowsAreThoseRecorded(t, packets, Cars(), r);
      var i :| 0 <= i < |raw| && raw[i] == r;
      assert WithGaps(raw)[i] == WithGap(r, gaps);
      FilledRow(t, packets, car, r, gaps);
    }
  }

  /** The damage row a car's data make: none for a driver who withholds it. */
  ghost predicate IsDamageOf(r: (Key, Stored<Cell>), t: Tick, packets: Packets<CarPacket>, car: Car) {
    && OnTrack(t, packets, car) && 10 in packets.vals && car !in t.restricted
    && r == (Key(Timestamp(t), t.uid, t.users[car], t.frame), Stored(t.time, packets.vals[10].cells[car]))
  }

  ghost predicate AreDamageOf(rows: seq<(Key, Stored<Cell>)>, t: Tick, packets: Packets<CarPacket>) {
    forall r :: r in rows <==> exists car: Car :: IsDamageOf(r, t, packets, car)
  }

  lemma {:induction false} DamageIsOwnData(t: Tick, packets: Packets<CarPacket>, r: (Key, Stored<Cell>))
    ensures r in DamageFor(t, packets, Cars()) <==> exists car: Car :: IsDamageOf(r, t, packets, car)
  {
    DamageRowsAreThoseVisible(t, packets, Cars(), r);
    forall car: Car
      ensures IsDamageOf(r, t, packets, car) <==> car in Cars() && DamageFrom(t, packets, car, r)
    {
      assert Cars()[car] == car;
    }
  }

  /** The damage rows of a tick are exactly those, each of the car's own data. */
  lemma {:induction false} TickDamageIsOwnData(t: Tick, packets: Packets<CarPacket>)
    ensures AreDamageOf(DamageFor(t, packets, Cars()), t, packets)
  {
    forall r
      ensures r in DamageFor(t, packets, Cars()) <==> exists car: Car :: IsDamageOf(r, t, packets, car)
    {
      DamageIsOwnData(t, packets, r);
    }
  }
}
