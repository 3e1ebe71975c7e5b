/**
 * A drawing path as the sequence of commands issued to it since its last reset.
 * `reset()` is the empty sequence; `moveTo`, `lineTo` and `close` append one command.
 */
module Paths {
  datatype PathCmd = MoveTo(x: real, y: real) | LineTo(x: real, y: real) | Close

  type Path = seq<PathCmd>

  /** One straight segment from a move to a line, both at the same y. */
  predicate IsHorizontalSegment(p: Path)
  {
    |p| == 2 && p[0].MoveTo? && p[1].LineTo? && p[0].y == p[1].y
  }

  /** One straight segment from a move to a line, both at the same x. */
  predicate IsVerticalSegment(p: Path)
  {
    |p| == 2 && p[0].MoveTo? && p[1].LineTo? && p[0].x == p[1].x
  }
}
