/**
 The track map: a lap is cut into zones, given by the lap fractions where they start and end, and a car
 is drawn in the zone its lap fraction falls in. One zone straddles the start line.
 */
module TrackZones {
  import opened Options

  datatype Zone = Zone(start: real, end: real, length: real)

  /** A point of the map: `along` is the distance along the path of the zone with this index. */
  datatype Point = Point(zone: nat, along: real)

  // ---------------------------------------------------------------------------------------------
  // Lap fractions
  // ---------------------------------------------------------------------------------------------

  /** JavaScript's `x % 1`: the remainder takes the sign of `x`. */
  function Mod1(x: real): real {
    if x >= 0.0 then x - x.Floor as real else x + (-x).Floor as real
  }

  /** `((f % 1) + 1) % 1`. */
  function Fraction(f: real): real {
    Mod1(Mod1(f) + 1.0)
  }

  /** `None` when the track length is unknown or zero, or the car has reported no distance. */
  function CurrentLapFraction(lapDistance: Option<real>, trackLength: Option<real>): Option<real> {
    if trackLength.None? || trackLength.value == 0.0 || lapDistance.None? then None
    else Some(Fraction(lapDistance.value / trackLength.value))
  }

  lemma {:induction false} Mod1Facts(x: real) returns (k: int)
    ensures -1.0 < Mod1(x) < 1.0
    ensures x == Mod1(x) + k as real
  {
    k := if x >= 0.0 then x.Floor else -((-x).Floor);
  }

  lemma {:induction false} FractionFacts(f: real) returns (k: int)
    ensures 0.0 <= Fraction(f) < 1.0
    ensures f == Fraction(f) + k as real
  {
    var a := Mod1Facts(f);
    var b := Mod1Facts(Mod1(f) + 1.0);
    k := a + b - 1;
  }

  lemma {:induction false} FractionShift(f: real, n: int)
    ensures Fraction(f + n as real) == Fraction(f)
  {
    var a := FractionFacts(f);
    var b := FractionFacts(f + n as real);
    assert -1 < a + n - b < 1;
  }

  /**
   Any lap distance, negative or beyond a lap, gives the fraction in [0, 1) that differs from distance
   over length by whole laps; without a distance, or a length other than zero, there is none.
   */
  lemma {:induction false} FractionIsCongruent(distance: Option<real>, length: Option<real>) returns (laps: int)
    ensures var r := CurrentLapFraction(distance, length);
            if distance == None || length == None || length == Some(0.0) then r == None
            else r.Some? && 0.0 <= r.value < 1.0 && distance.value / length.value == r.value + laps as real
  {
    laps := 0;
    if distance.Some? && length.Some? && length.value != 0.0 {
      laps := FractionFacts(distance.value / length.value);
    }
  }

  lemma {:induction false} QuotientOfSum(x: real, n: real, y: real)
    requires y != 0.0
    ensures (x + n * y) / y == x / y + n
  {
  }

  /** Whole laps more or less do not move the car. */
  lemma {:induction false} WholeLapsDoNotMatter(distance: real, length: real, n: int)
    requires length != 0.0
    ensures CurrentLapFraction(Some(distance + n as real * length), Some(length))
        == CurrentLapFraction(Some(distance), Some(length))
  {
    QuotientOfSum(distance, n as real, length);
    FractionShift(distance / length, n);
  }

  // ---------------------------------------------------------------------------------------------
  // Zones
  // ---------------------------------------------------------------------------------------------

  function ZoneSpan(z: Zone): real {
    if z.end > z.start then z.end - z.start else z.end + 1.0 - z.start
  }

  function ZoneOffset(z: Zone, f: real): real {
    if f >= z.start then f - z.start else f + 1.0 - z.start
  }

  predicate Covers(z: Zone, f: real) {
    ZoneOffset(z, f) < ZoneSpan(z)
  }

  predicate Wraps(z: Zone) {
    z.end <= z.start
  }

  /** The zone a fraction is drawn in: the first that covers it, or failing that the last of the list. */
  predicate IsDrawnIn(zones: seq<Zone>, f: real, i: nat)
    requires i < |zones|
  {
    && (forall j :: 0 <= j < i ==> !Covers(zones[j], f))
    && (Covers(zones[i], f) || (i == |zones| - 1 && forall j :: 0 <= j < |zones| ==> !Covers(zones[j], f)))
  }

  /** The share of the zone's path, clamped to 0..1; a zone without span counts as one whole lap. */
  function Share(z: Zone, f: real): real {
    var t := ZoneOffset(z, f) / (if ZoneSpan(z) == 0.0 then 1.0 else ZoneSpan(z));
    if t < 0.0 then 0.0 else if t > 1.0 then 1.0 else t
  }

  method PointAtFraction(zones: seq<Zone>, f: real) returns (p: Option<Point>)
    ensures p.None? <==> zones == []
    ensures p.Some? ==> p.value.zone < |zones| && IsDrawnIn(zones, f, p.value.zone)
    ensures p.Some? ==> p.value.along == Share(zones[p.value.zone], f) * zones[p.value.zone].length
  {
    if |zones| == 0 {
      return None;
    }
    var zone: Option<nat> := None;
    var i := 0;
    while i < |zones|
      invariant 0 <= i <= |zones| && zone.None?
      invariant forall j :: 0 <= j < i ==> !Covers(zones[j], f)
    {
      if ZoneOffset(zones[i], f) < ZoneSpan(zones[i]) {
        zone := Some(i);
        break;
      }
      i := i + 1;
    }
    var at := if zone.Some? then zone.value else |zones| - 1;
    p := Some(Point(at, Share(zones[at], f) * zones[at].length));
  }

  // ---------------------------------------------------------------------------------------------
  // Gapless circles
  // ---------------------------------------------------------------------------------------------

  ghost predicate Fractions(zones: seq<Zone>) {
    forall i :: 0 <= i < |zones| ==> 0.0 <= zones[i].start < 1.0 && 0.0 <= zones[i].end < 1.0
  }

  /** Each zone ends where the next one starts, the last where the first does, and only zone `w` wraps. */
  ghost predicate Circle(zones: seq<Zone>, w: nat) {
    && w < |zones| && Fractions(zones)
    && (forall i :: 0 <= i < |zones| ==> zones[i].end == zones[if i + 1 == |zones| then 0 else i + 1].start)
    && (forall i :: 0 <= i < |zones| ==> (Wraps(zones[i]) <==> i == w))
  }

  lemma {:induction false} CoversIs(z: Zone, f: real)
    requires 0.0 <= z.start < 1.0 && 0.0 <= z.end < 1.0 && 0.0 <= f < 1.0
    ensures Covers(z, f) <==> if Wraps(z) then f >= z.start || f < z.end else z.start <= f < z.end
  {
  }

  /** Up to the zone that wraps, which comes last here, the zones lie in order along the lap. */
  lemma {:induction false} InOrder(zones: seq<Zone>, i: nat, j: nat)
    requires zones != [] && Circle(zones, |zones| - 1) && i < j < |zones|
    ensures zones[i].start < zones[i].end <= zones[j].start
    decreases j
  {
    assert !Wraps(zones[i]);
    if i + 1 < j {
      InOrder(zones, i, j - 1);
      assert !Wraps(zones[j - 1]);
      assert zones[j - 1].end == zones[j].start;
    }
  }

  lemma {:induction false} FindZone(zones: seq<Zone>, f: real, from: nat) returns (i: nat)
    requires zones != [] && Circle(zones, |zones| - 1) && from < |zones| && zones[from].start <= f < 1.0
    ensures from <= i < |zones| && Covers(zones[i], f)
    decreases |zones| - from
  {
    if from == |zones| - 1 || f < zones[from].end {
      i := from;
      CoversIs(zones[i], f);
    } else {
      assert zones[from].end == zones[from + 1].start;
      i := FindZone(zones, f, from + 1);
    }
  }

  lemma {:induction false} NoOverlap(zones: seq<Zone>, f: real, i: nat, j: nat)
    requires zones != [] && Circle(zones, |zones| - 1) && i < j < |zones| && 0.0 <= f < 1.0
    ensures !(Covers(zones[i], f) && Covers(zones[j], f))
  {
    CoversIs(zones[i], f);
    CoversIs(zones[j], f);
    InOrder(zones, i, j);
    if j == |zones| - 1 {
      assert zones[j].end == zones[0].start;
      if i > 0 {
        InOrder(zones, 0, i);
      }
    }
  }

  /** The same circle written down from zone `w + 1` on. */
  function Rotated(zones: seq<Zone>, w: nat): seq<Zone>
    requires w < |zones|
  {
    zones[w + 1..] + zones[..w + 1]
  }

  /** Where zone `i` of the circle stands in the rotated list. */
  function PlaceOf(n: nat, w: nat, i: nat): nat
    requires w < n && i < n
  {
    if i > w then i - w - 1 else i + n - w - 1
  }

  /** The zone of the circle that stands at place `k` of the rotated list. */
  function ZoneAt(n: nat, w: nat, k: nat): nat
    requires w < n && k < n
  {
    if k + w + 1 < n then k + w + 1 else k + w + 1 - n
  }

  lemma {:induction false} RotatedAt(zones: seq<Zone>, w: nat)
    requires w < |zones|
    ensures |Rotated(zones, w)| == |zones|
    ensures forall k :: 0 <= k < |zones| ==> Rotated(zones, w)[k] == zones[ZoneAt(|zones|, w, k)]
  {
  }

  lemma {:induction false} RotatedCircle(zones: seq<Zone>, w: nat)
    requires Circle(zones, w)
    ensures Circle(Rotated(zones, w), |zones| - 1)
  {
  }

  lemma {:induction false} ExactlyOneZoneInOrder(zones: seq<Zone>, f: real) returns (k: nat)
    requires zones != [] && Circle(zones, |zones| - 1) && 0.0 <= f < 1.0
    ensures k < |zones| && Covers(zones[k], f)
    ensures forall l :: 0 <= l < |zones| && Covers(zones[l], f) ==> l == k
  {
    k := |zones| - 1;
    if zones[0].start <= f {
      k := FindZone(zones, f, 0);
    } else {
      CoversIs(zones[k], f);
    }
    forall l | 0 <= l < |zones| && l != k
      ensures !Covers(zones[l], f)
    {
      NoOverlap(zones, f, if l < k then l else k, if l < k then k else l);
    }
  }

  /** In any gapless circle, wherever the list starts, every lap fraction lies in exactly one zone. */
  lemma {:induction false} ExactlyOneZone(zones: seq<Zone>, w: nat, f: real) returns (i: nat)
    requires Circle(zones, w) && 0.0 <= f < 1.0
    ensures i < |zones| && Covers(zones[i], f)
    ensures forall j :: 0 <= j < |zones| && Covers(zones[j], f) ==> j == i
  {
    var n, r := |zones|, Rotated(zones, w);
    RotatedAt(zones, w);
    RotatedCircle(zones, w);
    var k := ExactlyOneZoneInOrder(r, f);
    i := ZoneAt(n, w, k);
    forall j | 0 <= j < n && Covers(zones[j], f)
      ensures j == i
    {
      assert ZoneAt(n, w, PlaceOf(n, w, j)) == j;
      assert r[PlaceOf(n, w, j)] == zones[j];
    }
  }

  /**
   On a gapless circle the fallback and the clamps never act: a car is drawn in the one zone that covers
   its fraction, strictly before the zone's end, at the exact share of the way through.
   */
  lemma {:induction false} FallbackAndClampsNeverAct(zones: seq<Zone>, w: nat, f: real, i: nat)
    requires Circle(zones, w) && 0.0 <= f < 1.0 && i < |zones| && IsDrawnIn(zones, f, i)
    ensures Covers(zones[i], f) && ZoneSpan(zones[i]) > 0.0
    ensures Share(zones[i], f) == ZoneOffset(zones[i], f) / ZoneSpan(zones[i])
    ensures 0.0 <= Share(zones[i], f) < 1.0
  {
    var k := ExactlyOneZone(zones, w, f);
    assert Covers(zones[k], f);
    var x, y := ZoneOffset(zones[i], f), ZoneSpan(zones[i]);
    assert 0.0 <= x < y;
    QuotientBelowOne(x, y);
  }

  lemma {:induction false} QuotientBelowOne(x: real, y: real)
    requires 0.0 <= x < y
    ensures 0.0 <= x / y < 1.0
  {
  }

  /** How far the lap goes on from the zone's start to its end, over the start line if need be. */
  ghost function Length(z: Zone): real {
    z.end - z.start + if z.end <= z.start then 1.0 else 0.0
  }

  /** The car is drawn the share of the zone past its start that it has driven of it. */
  lemma {:induction false} DrawnAtItsShare(zones: seq<Zone>, w: nat, f: real, i: nat)
    requires Circle(zones, w) && 0.0 <= f < 1.0 && i < |zones| && IsDrawnIn(zones, f, i)
    ensures var driven := zones[i].start + Share(zones[i], f) * Length(zones[i]);
            driven == if f >= zones[i].start then f else f + 1.0
  {
    FallbackAndClampsNeverAct(zones, w, f, i);
    assert ZoneSpan(zones[i]) == Length(zones[i]);
    assert ZoneOffset(zones[i], f) == Share(zones[i], f) * ZoneSpan(zones[i]);
  }

  /** The zone and the share in it determine the fraction: distinct fractions are drawn at distinct places. */
  lemma {:induction false} PlaceDeterminesFraction(zones: seq<Zone>, w: nat, f: real, g: real, i: nat)
    requires Circle(zones, w) && 0.0 <= f < 1.0 && 0.0 <= g < 1.0 && i < |zones|
    requires IsDrawnIn(zones, f, i) && IsDrawnIn(zones, g, i) && Share(zones[i], f) == Share(zones[i], g)
    ensures f == g
  {
    FallbackAndClampsNeverAct(zones, w, f, i);
    FallbackAndClampsNeverAct(zones, w, g, i);
    var y := ZoneSpan(zones[i]);
    assert ZoneOffset(zones[i], f) == Share(zones[i], f) * y;
    assert ZoneOffset(zones[i], g) == Share(zones[i], g) * y;
  }
}
