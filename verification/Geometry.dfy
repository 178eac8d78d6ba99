/** Boxes in the image plane, with real coordinates. */
module Geometry {

  datatype Box = Box(x: real, y: real, width: real, height: real)

  function Min(a: real, b: real): real {
    if a <= b then a else b
  }

  function Max(a: real, b: real): real {
    if a >= b then a else b
  }

  function Area(b: Box): real {
    b.width * b.height
  }
}
