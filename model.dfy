/** The values the drawing board works with: positions, logged actions,
    the tool mode, and the tuning constants of app.js. */
module Model {

  datatype Option<+T> = None | Some(value: T)

  /** A canvas position in pixels (origin top-left, y downwards).
      Coordinates are real numbers; floating-point rounding is not modelled. */
  datatype Point = Point(x: real, y: real)

  /** One entry of the action log: `{type: 'point', x, y}` or
      `{type: 'line', start, end}`. */
  datatype Action = PointA(at: Point) | LineA(start: Point, end: Point)

  /** The global `mode`: `null`, `'point'` or `'line'`. */
  datatype Mode = NoTool | PointTool | LineTool

  /** Radius within which a position snaps onto a logged point. */
  const GravityThreshold: real := 10.0

  /** Radius within which a line endpoint snaps onto a logged segment. */
  const LineAttractionThreshold: real := 5.0
}
