/** Small value types shared by the modules of this model. */
module Optional {
  /** A value that may be absent: the model of JavaScript's `null`. */
  datatype Option<T> = None | Some(value: T)
}

/** Exact plane geometry: coordinates are reals, never IEEE floats. */
module Geometry {
  datatype Point = Point(x: real, y: real)

  /** An axis-aligned rectangle as Konva describes one: top-left corner and size. */
  datatype Rect = Rect(x: real, y: real, width: real, height: real)

  /** `Math.abs` */
  function Abs(r: real): (a: real)
    ensures a >= 0.0
    ensures a == r || a == -r
  {
    if r < 0.0 then -r else r
  }

  /** `Math.min` of two numbers */
  function Min(a: real, b: real): (m: real)
    ensures m <= a && m <= b
    ensures m == a || m == b
  {
    if a <= b then a else b
  }

  /** `Math.max` of two numbers */
  function Max(a: real, b: real): (m: real)
    ensures m >= a && m >= b
    ensures m == a || m == b
  {
    if a >= b then a else b
  }
}

/**
 * The undo history both editors keep: a list of opaque stage snapshots
 * (serialised scenes, compared only for equality) and a cursor into it.
 */
module Timelines {
  /** A serialised stage, as produced by `stage.toJSON()`. */
  type Snapshot = string

  datatype Timeline = Timeline(entries: seq<Snapshot>, cursor: int)

  /** Before the first snapshot the list is empty and the cursor is -1; afterwards the cursor points into the list. */
  predicate Valid(t: Timeline) {
    (t.entries == [] && t.cursor == -1) || (0 <= t.cursor < |t.entries|)
  }

  /** Both modules start from `history = []` and a cursor of -1. */
  const Empty: Timeline := Timeline([], -1)
}
