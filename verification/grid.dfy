/** Grid snapping for the editor (utils/grid.ts). */
module Grid {

  /** `Math.round`: the nearest integer, halves rounded toward +infinity. */
  function Round(x: real): (k: int)
    ensures x - 0.5 < k as real <= x + 0.5
  {
    (x + 0.5).Floor
  }

  lemma RoundOfInteger(k: int)
    ensures Round(k as real) == k
  {
  }

  /** `snapToGrid(value, gridSize)`. A zero grid gives NaN in the source and is not modelled. */
  function SnapToGrid(value: real, gridSize: real): real
    requires gridSize != 0.0
  {
    Round(value / gridSize) as real * gridSize
  }

  /** `snapRotation(angle, snapAngle)`. */
  function SnapRotation(angle: real, snapAngle: real): real
  {
    if snapAngle <= 0.0 then angle else SnapToGrid(angle, snapAngle)
  }

  /** A snapped value is a whole number of grid cells. */
  lemma SnapIsMultiple(value: real, gridSize: real)
    requires gridSize != 0.0
    ensures var cells := SnapToGrid(value, gridSize) / gridSize; cells.Floor as real == cells
  {
    var k := Round(value / gridSize);
    assert SnapToGrid(value, gridSize) / gridSize == k as real;
  }

  /** Snapping a snapped value changes nothing. */
  lemma SnapIdempotent(value: real, gridSize: real)
    requires gridSize != 0.0
    ensures SnapToGrid(SnapToGrid(value, gridSize), gridSize) == SnapToGrid(value, gridSize)
  {
    var k := Round(value / gridSize);
    var r := k as real * gridSize;
    assert r == SnapToGrid(value, gridSize);
    assert r / gridSize == k as real;
    RoundOfInteger(k);
    assert Round(r / gridSize) == k;
  }

  /** With a positive grid the snapped value lies within half a cell of the
      input, and an exact half rounds up (toward +infinity). */
  lemma SnapWithinHalfCell(value: real, gridSize: real)
    requires gridSize > 0.0
    ensures value - gridSize / 2.0 < SnapToGrid(value, gridSize) <= value + gridSize / 2.0
  {
    var t := value / gridSize;
    var k := Round(t);
    var d := k as real - t;
    assert -0.5 < d <= 0.5;
    assert value == t * gridSize;
    assert SnapToGrid(value, gridSize) - value == d * gridSize;
    assert d * gridSize > -0.5 * gridSize by {
      assert (d + 0.5) * gridSize > 0.0;
    }
    assert d * gridSize <= 0.5 * gridSize by {
      assert (0.5 - d) * gridSize >= 0.0;
    }
  }

  /** With a negative grid the tie goes the other way: toward -infinity. */
  lemma SnapWithinHalfCellNegative(value: real, gridSize: real)
    requires gridSize < 0.0
    ensures value + gridSize / 2.0 <= SnapToGrid(value, gridSize) < value - gridSize / 2.0
  {
    var t := value / gridSize;
    var k := Round(t);
    var d := k as real - t;
    assert -0.5 < d <= 0.5;
    assert value == t * gridSize;
    assert SnapToGrid(value, gridSize) - value == d * gridSize;
    assert d * gridSize < -0.5 * gridSize by {
      assert (d + 0.5) * gridSize < 0.0;
    }
    assert d * gridSize >= 0.5 * gridSize by {
      assert (0.5 - d) * gridSize <= 0.0;
    }
  }

  /** A non-positive snap angle disables rotation snapping; a positive one
      snaps like the grid and so stays within half a step of the angle. */
  lemma SnapRotationSpec(angle: real, snapAngle: real)
    ensures snapAngle <= 0.0 ==> SnapRotation(angle, snapAngle) == angle
    ensures snapAngle > 0.0 ==> SnapRotation(angle, snapAngle) == SnapToGrid(angle, snapAngle)
    ensures snapAngle > 0.0 ==>
      angle - snapAngle / 2.0 < SnapRotation(angle, snapAngle) <= angle + snapAngle / 2.0
  {
    if snapAngle > 0.0 {
      SnapWithinHalfCell(angle, snapAngle);
    }
  }
}
