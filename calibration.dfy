/**
 * From raw samples to display pixels (touch811.py, lines 183-201): per-axis linear calibration
 * truncated toward zero as Python's `int()` does, then the axis swap and mirroring that the
 * screen rotation selects.
 */
module Calibration {

  /** The screen orientations the driver accepts, in degrees. */
  predicate IsRotation(r: int)
  {
    r == 0 || r == 90 || r == 180 || r == 270
  }

  type Rotation = r: int | IsRotation(r)

  /** A touch point in display pixels; pressure is the raw pressure over 255. */
  datatype Point = Point(x: int, y: int, pressure: real)

  /** Python `int(r)`: truncation toward zero, which differs from Floor on negative values. */
  function Trunc(r: real): (t: int)
    ensures 0.0 <= r ==> 0 <= t && t as real <= r < t as real + 1.0
    ensures r < 0.0 ==> t <= 0 && t as real - 1.0 < r <= t as real
  {
    if r >= 0.0 then r.Floor else -((-r).Floor)
  }

  /** `int(raw/4095*pixels*slope + offset)`: the calibrated position along one axis. */
  function Scaled(raw: nat, pixels: int, slope: real, offset: int): int
  {
    Trunc(raw as real / 4095.0 * pixels as real * slope + offset as real)
  }

  /** The point reported for calibrated positions sx, sy under the given rotation. */
  function MapPoint(rotation: Rotation, xPix: int, yPix: int, sx: int, sy: int, pressureRaw: nat): Point
  {
    var pressure := pressureRaw as real / 255.0;
    if rotation == 0 then Point(xPix - sx, yPix - sy, pressure)
    else if rotation == 90 then Point(yPix - sy, sx, pressure)
    else if rotation == 180 then Point(sx, sy, pressure)
    else Point(sy, xPix - sx, pressure)
  }

  /** The rotation a quarter turn further on. */
  function Next(rotation: Rotation): (r: Rotation)
    ensures r != rotation && (r == 0 <==> rotation == 270)
  {
    assert IsRotation(rotation);
    if rotation == 270 then 0 else rotation + 90
  }

  /** The display's extent along x under the rotation: the axes swap at 90 and 270. */
  function Width(rotation: Rotation, xPix: int, yPix: int): int
  {
    if rotation == 0 || rotation == 180 then xPix else yPix
  }

  function Height(rotation: Rotation, xPix: int, yPix: int): int
  {
    Width(Next(rotation), xPix, yPix)
  }

  /** A quarter turn of a point within a display `width` pixels wide. */
  function Turn(p: Point, width: int): Point
  {
    Point(p.y, width - p.x, p.pressure)
  }

  /** The point reflected through the centre of a `width` by `height` display. */
  function Mirror(p: Point, width: int, height: int): Point
  {
    Point(width - p.x, height - p.y, p.pressure)
  }

  /**
   * Each rotation reports the point of the previous rotation turned by a quarter: the four
   * mappings are one mapping seen from four sides, and 90 and 270 swap the axes of 0 and 180.
   */
  lemma QuarterTurn(rotation: Rotation, xPix: int, yPix: int, sx: int, sy: int, pressureRaw: nat)
    ensures MapPoint(Next(rotation), xPix, yPix, sx, sy, pressureRaw)
         == Turn(MapPoint(rotation, xPix, yPix, sx, sy, pressureRaw), Width(rotation, xPix, yPix))
  {
    assert IsRotation(rotation);
  }

  /** Rotations 180 degrees apart report mirror-image points. */
  lemma HalfTurn(rotation: Rotation, xPix: int, yPix: int, sx: int, sy: int, pressureRaw: nat)
    ensures MapPoint(Next(Next(rotation)), xPix, yPix, sx, sy, pressureRaw)
         == Mirror(MapPoint(rotation, xPix, yPix, sx, sy, pressureRaw), Width(rotation, xPix, yPix), Height(rotation, xPix, yPix))
  {
    QuarterTurn(rotation, xPix, yPix, sx, sy, pressureRaw);
    QuarterTurn(Next(rotation), xPix, yPix, sx, sy, pressureRaw);
  }

  /** Whatever the rotation, the third component is the raw pressure over 255. */
  lemma PressureOnly(rotation: Rotation, xPix: int, yPix: int, sx: int, sy: int, pressureRaw: nat)
    ensures MapPoint(rotation, xPix, yPix, sx, sy, pressureRaw).pressure == pressureRaw as real / 255.0
    ensures pressureRaw <= 255 ==> 0.0 <= MapPoint(rotation, xPix, yPix, sx, sy, pressureRaw).pressure <= 1.0
  {
  }

  /** A raw reading of 0 calibrates to the offset itself, so rotation 0 reports (width, height) minus the offsets. */
  lemma RawZero(xPix: int, yPix: int, slopeX: real, offsetX: int, slopeY: real, offsetY: int)
    ensures MapPoint(0, xPix, yPix, Scaled(0, xPix, slopeX, offsetX), Scaled(0, yPix, slopeY, offsetY), 0)
         == Point(xPix - offsetX, yPix - offsetY, 0.0)
  {
    assert Trunc(offsetX as real) == offsetX;
    assert Trunc(offsetY as real) == offsetY;
  }
}
