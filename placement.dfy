/** Scenario geometry: where the simulation places vehicles, roadside
    units (RSUs), the OpenFlow switch and the controller, and how each
    vehicle picks the RSU it reports to.

    Positions are doubles; they are modelled as exact reals, which they
    are for every value the scenario produces (integers well below 2^53).
    The unsigned 32-bit products that the placement computes before
    widening to double are written out with their wrap-around. */
module Placement {
  import opened Wire

  /** `std::numeric_limits<double>::max()`, exactly. */
  const DBL_MAX: real := 179769313486231570814527423731704356798070567525844996598917476803157260780028538760589558632766878171540458953514382464234321326889464182768467546703537516986049910576551282076245490090389328944075868508455133942304583236903222948165808559332123348274797826204144723168738177180919299881250404026184124858368.0

  /** Height of the RSU row above the road. */
  const RSU_Y: real := 20.0
  /** Offsets of the switch and the controller above the last RSU. */
  const SWITCH_DY: real := 30.0
  const CONTROLLER_DY: real := 60.0

  datatype Vector = Vector(x: real, y: real, z: real)

  /** Unsigned 32-bit wrap-around of a product or sum. */
  function Wrap32(n: nat): u32
  {
    n % 0x1_0000_0000
  }

  // ---------------------------------------------------------------------
  // Nearest RSU

  /** `GetNearestRSU`, given the distance from the vehicle to each RSU in
      container order: a scan that keeps the first strictly smaller
      distance, starting from the largest double. */
  method GetNearestRsu(distances: seq<real>) returns (nearest: u32)
    requires |distances| < 0x1_0000_0000
    // No RSU, or none closer than the largest double: index 0.
    ensures (forall i :: 0 <= i < |distances| ==> distances[i] >= DBL_MAX) ==> nearest == 0
    // Otherwise a valid index at minimal distance, and the first such.
    ensures (exists i :: 0 <= i < |distances| && distances[i] < DBL_MAX) ==>
      && nearest as int < |distances|
      && (forall j :: 0 <= j < |distances| ==> distances[nearest] <= distances[j])
      && (forall j :: 0 <= j < nearest as int ==> distances[j] > distances[nearest])
  {
    var minDist := DBL_MAX;
    nearest := 0;
    var i: nat := 0;
    while i < |distances|
      invariant 0 <= i <= |distances|
      invariant minDist <= DBL_MAX
      invariant (forall j :: 0 <= j < i ==> distances[j] >= DBL_MAX) ==> nearest == 0 && minDist == DBL_MAX
      invariant (exists j :: 0 <= j < i && distances[j] < DBL_MAX) ==>
        nearest as int < i && minDist == distances[nearest]
      invariant forall j :: 0 <= j < i ==> minDist <= distances[j]
      invariant forall j :: 0 <= j < nearest as int ==> distances[j] > minDist
    {
      var distance := distances[i];
      if distance < minDist {
        minDist := distance;
        nearest := i;
      }
      i := i + 1;
    }
  }

  // ---------------------------------------------------------------------
  // Vehicles

  /** Vehicle i starts at (i * carSpacing, 0, 0); the product is taken in
      unsigned 32-bit arithmetic. */
  function VehiclePosition(i: u32, carSpacing: u32): Vector
  {
    Vector(Wrap32(i * carSpacing) as real, 0.0, 0.0)
  }

  /** The vehicle placement loop. */
  method PlaceVehicles(numVehicles: u32, carSpacing: u32) returns (positions: seq<Vector>)
    ensures |positions| == numVehicles
    ensures forall i :: 0 <= i < numVehicles ==> positions[i] == VehiclePosition(i, carSpacing)
  {
    positions := [];
    var i: u32 := 0;
    while i < numVehicles
      invariant 0 <= i <= numVehicles
      invariant |positions| == i
      invariant forall k :: 0 <= k < i ==> positions[k] == VehiclePosition(k, carSpacing)
    {
      positions := positions + [Vector(Wrap32(i * carSpacing) as real, 0.0, 0.0)];
      i := i + 1;
    }
  }

  /** Without wrap-around, the vehicles stand one `carSpacing` apart in
      index order. */
  lemma VehiclesEvenlySpaced(i: u32, numVehicles: u32, carSpacing: u32)
    requires i + 1 < numVehicles && numVehicles * carSpacing < 0x1_0000_0000
    ensures VehiclePosition(i + 1, carSpacing).x == VehiclePosition(i, carSpacing).x + carSpacing as real
  {
    var next := (i + 1) * carSpacing;
    MulMonotone(i + 1, numVehicles, carSpacing);
    assert next == i * carSpacing + carSpacing;
    assert Wrap32(next) == next;
    assert Wrap32(i * carSpacing) == i * carSpacing;
  }

  lemma MulMonotone(a: nat, b: nat, c: nat)
    requires a <= b
    ensures a * c <= b * c
  {
  }

  // ---------------------------------------------------------------------
  // RSUs

  /** `rsuSpacing`: the integer quotient of the road length by the number
      of gaps, computed in unsigned 32-bit arithmetic before widening to
      double. `numRsus + 1` must not wrap to 0. */
  function RsuSpacing(numVehicles: u32, carSpacing: u32, numRsus: u32): (spacing: u32)
    requires numRsus < 0xFFFF_FFFF
    ensures spacing * (numRsus + 1) <= Wrap32(numVehicles * carSpacing)
    ensures Wrap32(numVehicles * carSpacing) < (spacing + 1) * (numRsus + 1)
  {
    Wrap32(numVehicles * carSpacing) / (numRsus + 1)
  }

  /** RSU i is placed at ((i + 1) * spacing, 20, 0). */
  function RsuPosition(i: u32, spacing: u32): Vector
  {
    Vector((i as real + 1.0) * spacing as real, RSU_Y, 0.0)
  }

  /** The RSU placement loop. */
  method PlaceRsus(numVehicles: u32, carSpacing: u32, numRsus: u32) returns (positions: seq<Vector>)
    requires numRsus < 0xFFFF_FFFF
    ensures |positions| == numRsus
    ensures forall i :: 0 <= i < numRsus ==>
      positions[i] == RsuPosition(i, RsuSpacing(numVehicles, carSpacing, numRsus))
  {
    var rsuSpacing := Wrap32(numVehicles * carSpacing) / (numRsus + 1);
    positions := [];
    var i: u32 := 0;
    while i < numRsus
      invariant 0 <= i <= numRsus
      invariant |positions| == i
      invariant forall k :: 0 <= k < i ==> positions[k] == RsuPosition(k, rsuSpacing)
    {
      positions := positions + [Vector((i as real + 1.0) * rsuSpacing as real, RSU_Y, 0.0)];
      i := i + 1;
    }
  }

  /** With the scenario's defaults (50 vehicles 9 m apart, 4 RSUs) the
      RSUs stand 90 m apart, at x = 90, 180, 270 and 360. */
  lemma DefaultLayout()
    ensures RsuSpacing(50, 9, 4) == 90
    ensures RsuPosition(0, 90).x == 90.0 && RsuPosition(3, 90).x == 360.0
  {
  }

  /** Without wrap-around, the RSUs split the vehicle row into equal gaps:
      consecutive RSUs stand one spacing apart, the first one spacing from
      the start, and the last at least one spacing before the row's
      length `numVehicles * carSpacing`. */
  lemma RsusWithinRoad(numVehicles: u32, carSpacing: u32, numRsus: u32, i: u32)
    requires numRsus < 0xFFFF_FFFF && i < numRsus
    requires numVehicles * carSpacing < 0x1_0000_0000
    ensures var s := RsuSpacing(numVehicles, carSpacing, numRsus);
      && RsuPosition(0, s).x == s as real
      && RsuPosition(i, s).x + s as real <= (numVehicles * carSpacing) as real
      && (i + 1 < numRsus ==> RsuPosition(i + 1, s).x == RsuPosition(i, s).x + s as real)
  {
    var s := RsuSpacing(numVehicles, carSpacing, numRsus);
    var road := numVehicles * carSpacing;
    assert Wrap32(road) == road;
    MulMonotone(i + 2, numRsus + 1, s);
    assert (numRsus + 1) * s == s * (numRsus + 1);
    var far := (i + 2) * s;
    assert far <= road;
    RealOfProduct(i + 1, s);
    RealOfProduct(i + 2, s);
    assert (i + 2) * s == (i + 1) * s + s;
    assert RsuPosition(i, s).x == ((i + 1) * s) as real;
  }

  lemma RealOfProduct(a: nat, b: nat)
    ensures (a * b) as real == a as real * b as real
  {
  }

  // ---------------------------------------------------------------------
  // Switch and controller

  /** The switch is placed 30 m and the controller 60 m above the last
      RSU (`rsus.Get(numRSUs - 1)`). */
  function SwitchPosition(lastRsu: Vector): Vector
  {
    Vector(lastRsu.x, lastRsu.y + SWITCH_DY, 0.0)
  }

  function ControllerPosition(lastRsu: Vector): Vector
  {
    Vector(lastRsu.x, lastRsu.y + CONTROLLER_DY, 0.0)
  }

  /** With the RSUs placed as above, the switch stands at
      (numRsus * spacing, 50) and the controller at (numRsus * spacing, 80):
      in line with the last RSU, above the RSU row. With no RSU the index
      `numRSUs - 1` wraps and the lookup fails, so one RSU is needed. */
  lemma SwitchAndControllerAboveLastRsu(numVehicles: u32, carSpacing: u32, numRsus: u32)
    requires 1 <= numRsus < 0xFFFF_FFFF
    ensures var s := RsuSpacing(numVehicles, carSpacing, numRsus);
      var last := RsuPosition(numRsus - 1, s);
      && SwitchPosition(last) == Vector((numRsus * s) as real, 50.0, 0.0)
      && ControllerPosition(last) == Vector((numRsus * s) as real, 80.0, 0.0)
  {
    var s := RsuSpacing(numVehicles, carSpacing, numRsus);
    RealOfProduct(numRsus, s);
  }
}
