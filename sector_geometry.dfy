/**
 * How a pointer position around the canvas centre (400, 350) is resolved into
 * one of the eight 45-degree sectors (DoubleDecision.py, on_mouse_move), and
 * where the stimulus draws the sign for a sector (show_stimulus).
 *
 * The source measures two different angles:
 *  - a SCREEN ANGLE, in degrees clockwise from the +x axis on a canvas whose
 *    y axis points down; a sign for position `pos` is drawn at screen angle
 *    `pos * 45`;
 *  - a HEADING, `degrees(atan2(dx, -dy))`, in degrees clockwise from straight
 *    up, in [-180, 180].
 * The trigonometry itself is not modelled: the pointer's heading is an input,
 * and `HeadingOfScreenAngle` gives the heading of a point lying at a given
 * screen angle (heading = screen angle + 90, brought into atan2's range).
 */
module SectorGeometry {

  /** Number of sectors, sign positions and drawn wedges. */
  const SectorCount: int := 8

  /** Width of one sector, in degrees. */
  const SectorWidth: real := 45.0

  /** Radius, in pixels, of the dead zone around the centre (`distance > 10`). */
  const DeadZoneRadius: int := 10

  /**
   * The pointer is far enough from the centre to pick a sector. Event
   * coordinates are integers, so `sqrt(dx*dx + dy*dy) > 10` is exactly the
   * comparison of the squared distance with 100.
   */
  predicate OutsideDeadZone(dx: int, dy: int)
  {
    dx * dx + dy * dy > DeadZoneRadius * DeadZoneRadius
  }

  /**
   * The squared comparison decides `distance > 10` for the exact distance:
   * a non-negative root of the squared distance exceeds 10 exactly when the
   * squared distance exceeds 100.
   */
  lemma DeadZoneByDistance(dx: int, dy: int, distance: real)
    requires 0.0 <= distance
    requires distance * distance == (dx * dx + dy * dy) as real
    ensures OutsideDeadZone(dx, dy) <==> distance > DeadZoneRadius as real
  {
    if distance > 10.0 {
      assert distance * distance > 10.0 * distance > 100.0;
    } else {
      assert distance * distance <= 10.0 * distance <= 100.0;
    }
  }

  /** The range of `math.degrees(math.atan2(...))`. */
  predicate IsHeading(raw: real)
  {
    -180.0 <= raw <= 180.0
  }

  /** A heading brought into [0, 360) by adding a full turn when negative. */
  function Normalise(raw: real): (a: real)
    requires IsHeading(raw)
    ensures 0.0 <= a < 360.0
    ensures raw >= 0.0 ==> a == raw
    ensures raw < 0.0 ==> a == raw + 360.0
  {
    if raw < 0.0 then raw + 360.0 else raw
  }

  /** `d` is a whole number of turns. */
  ghost predicate IsWholeTurns(d: real)
  {
    (d / 360.0).Floor as real == d / 360.0
  }

  /**
   * Python's `x % 360` on floats: the remainder has the sign of the divisor,
   * so it always lies in [0, 360) and differs from `x` by whole turns.
   */
  function Mod360(x: real): (r: real)
    ensures 0.0 <= r < 360.0
    ensures IsWholeTurns(x - r)
    ensures 0.0 <= x < 360.0 ==> r == x
  {
    x - 360.0 * ((x / 360.0).Floor as real)
  }

  /** A heading turned back by 90 degrees, so that 0 points right again. */
  function ScreenAngleOfHeading(heading: real): (a: real)
    requires 0.0 <= heading < 360.0
    ensures 0.0 <= a < 360.0
  {
    Mod360(heading - 90.0 + 360.0)
  }

  /**
   * The sector of a screen angle: `int(angle / 45)`, with the source's guard
   * that maps a result of 8 or more to 0. The guard never fires: the angle
   * lies in the 45-degree band of the sector returned.
   */
  function SectorOfScreenAngle(a: real): (s: int)
    requires 0.0 <= a < 360.0
    ensures 0 <= s < SectorCount
    ensures SectorWidth * s as real <= a < SectorWidth * s as real + SectorWidth
  {
    var sector := (a / SectorWidth).Floor;
    if sector >= SectorCount then 0 else sector
  }

  /** The sector that on_mouse_move resolves a pointer heading to. */
  function SectorOfHeading(raw: real): (s: int)
    requires IsHeading(raw)
    ensures 0 <= s < SectorCount
  {
    SectorOfScreenAngle(ScreenAngleOfHeading(Normalise(raw)))
  }

  /**
   * The heading `degrees(atan2(dx, -dy))` of a pointer that lies at screen
   * angle `theta` from the centre: a quarter turn more, wrapped into
   * atan2's range (-180, 180].
   */
  function HeadingOfScreenAngle(theta: real): (h: real)
    requires 0.0 <= theta < 360.0
    ensures IsHeading(h)
  {
    if theta + 90.0 > 180.0 then theta - 270.0 else theta + 90.0
  }

  /** The screen angle a sign for position `pos` is drawn at. */
  function PlacementAngle(pos: int): (theta: real)
    requires 0 <= pos < SectorCount
    ensures 0.0 <= theta < 360.0
  {
    pos as real * SectorWidth
  }

  /**
   * The sector is exactly the 45-degree band the screen angle falls in:
   * both directions of the if-and-only-if.
   */
  lemma SectorBand(a: real, k: int)
    requires 0.0 <= a < 360.0
    requires 0 <= k < SectorCount
    ensures SectorOfScreenAngle(a) == k <==>
              SectorWidth * k as real <= a < SectorWidth * k as real + SectorWidth
  {
    var s := SectorOfScreenAngle(a);
    assert s as real <= a / SectorWidth < s as real + 1.0;
    if SectorWidth * k as real <= a < SectorWidth * k as real + SectorWidth {
      assert k as real <= a / SectorWidth < k as real + 1.0;
    }
  }

  /**
   * Turning a screen angle into a heading (what atan2 measures) and back
   * through DoubleDecision.py lines 451-458 gives the screen angle again.
   */
  lemma ScreenAngleRoundTrip(theta: real)
    requires 0.0 <= theta < 360.0
    ensures ScreenAngleOfHeading(Normalise(HeadingOfScreenAngle(theta))) == theta
  {
    var h := HeadingOfScreenAngle(theta);
    var n := Normalise(h);
    if theta <= 90.0 {
      assert n == theta + 90.0;
    } else if theta < 270.0 {
      assert h == theta - 270.0 && h < 0.0;
      assert n == theta + 90.0;
    } else {
      assert n == theta - 270.0;
      assert n - 90.0 + 360.0 == theta;
    }
  }

  /**
   * A pointer at screen angle `theta` highlights sector `floor(theta / 45)`.
   */
  lemma PointerSector(theta: real)
    requires 0.0 <= theta < 360.0
    ensures SectorOfHeading(HeadingOfScreenAngle(theta)) == (theta / SectorWidth).Floor
  {
    ScreenAngleRoundTrip(theta);
    var s := SectorOfHeading(HeadingOfScreenAngle(theta));
    SectorBand(theta, s);
  }

  /**
   * Round trip between placement and resolution: the pointer direction of the
   * sign drawn for position `pos` resolves back to `pos`.
   */
  lemma PlacementRoundTrip(pos: int)
    requires 0 <= pos < SectorCount
    ensures SectorOfHeading(HeadingOfScreenAngle(PlacementAngle(pos))) == pos
  {
    var theta := PlacementAngle(pos);
    ScreenAngleRoundTrip(theta);
    SectorBand(theta, pos);
  }

  /**
   * The hit test is offset by half a sector from the wedges that
   * show_position_selection draws: wedge `i` spans screen angles
   * [45*i - 22.5, 45*i + 22.5], but its counter-clockwise half resolves to
   * sector `i - 1` (sector 7 for wedge 0).
   */
  lemma CounterClockwiseHalfOfWedge(i: int, offset: real)
    requires 0 <= i < SectorCount
    requires 0.0 < offset <= 22.5
    ensures var theta := if i == 0 then 360.0 - offset else PlacementAngle(i) - offset;
            SectorOfHeading(HeadingOfScreenAngle(theta)) == (if i == 0 then 7 else i - 1)
  {
    var theta := if i == 0 then 360.0 - offset else PlacementAngle(i) - offset;
    ScreenAngleRoundTrip(theta);
    SectorBand(theta, if i == 0 then 7 else i - 1);
  }
}
