/** The 3 x 2 grid that `SurveillanceCore.determine_zone` lays over a frame
    (surveillance_core.py:317-335). */
module Zones {

  /** The six cells of the grid. */
  datatype Zone = TopLeft | BottomLeft | CenterTop | CenterBottom | TopRight | BottomRight
  {
    /** The name the source returns for the cell. */
    function Name(): string
    {
      match this
      case TopLeft => "Top Left"
      case BottomLeft => "Bottom Left"
      case CenterTop => "Center Top"
      case CenterBottom => "Center Bottom"
      case TopRight => "Top Right"
      case BottomRight => "Bottom Right"
    }

    /** 0, 1 or 2 for the left, center and right column. */
    function Column(): nat
    {
      match this
      case TopLeft | BottomLeft => 0
      case CenterTop | CenterBottom => 1
      case TopRight | BottomRight => 2
    }

    /** 0 for the top row, 1 for the bottom row. */
    function Row(): nat
    {
      match this
      case TopLeft | CenterTop | TopRight => 0
      case BottomLeft | CenterBottom | BottomRight => 1
    }
  }

  /** Different cells have different names, so a name identifies its cell. */
  lemma NamesAreDistinct(a: Zone, b: Zone)
    ensures a.Name() == b.Name() ==> a == b
  {
  }

  /** The cell holding point (x, y) of a `width` x `height` frame. The column
      bounds are `width // 3` and `2 * width // 3`, the row bound `height // 2`;
      Python's floor division equals Dafny's `/` for these non-negative divisors.
      Every point gets a cell: points outside the frame fall into a border cell. */
  function DetermineZone(x: int, y: int, width: nat, height: nat): (zone: Zone)
    ensures zone.Column() == 0 <==> x < width / 3
    ensures zone.Column() == 1 <==> width / 3 <= x < 2 * width / 3
    ensures zone.Column() == 2 <==> x >= width / 3 && x >= 2 * width / 3
    ensures zone.Row() == 0 <==> y < height / 2
    ensures zone.Row() == 1 <==> y >= height / 2
  {
    if x < width / 3 then
      if y < height / 2 then TopLeft else BottomLeft
    else if x < 2 * width / 3 then
      if y < height / 2 then CenterTop else CenterBottom
    else
      if y < height / 2 then TopRight else BottomRight
  }

  /** Moving a point right or down never moves it to a column further left
      or a row further up; the column depends on x alone, the row on y alone. */
  lemma GridIsMonotone(x1: int, y1: int, x2: int, y2: int, width: nat, height: nat)
    requires x1 <= x2 && y1 <= y2
    ensures DetermineZone(x1, y1, width, height).Column() <= DetermineZone(x2, y2, width, height).Column()
    ensures DetermineZone(x1, y1, width, height).Row() <= DetermineZone(x2, y2, width, height).Row()
    ensures DetermineZone(x1, y1, width, height).Column() == DetermineZone(x1, y2, width, height).Column()
    ensures DetermineZone(x1, y1, width, height).Row() == DetermineZone(x2, y1, width, height).Row()
  {
  }
}
