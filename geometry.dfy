/** The measurements the scroll handlers share: an element's bounding rectangle and the
    Math.max, Math.min and Math.abs they apply to it. */
module Geometry {
  /** A bounding client rectangle: its top edge relative to the window and its height. */
  datatype Rect = Rect(top: real, height: real) {
    function Bottom(): real { top + height }
  }

  function Max(x: real, y: real): real { if x >= y then x else y }
  function Min(x: real, y: real): real { if x <= y then x else y }
  function Abs(x: real): real { if x >= 0.0 then x else -x }
}
