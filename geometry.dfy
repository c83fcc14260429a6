/** Canvas coordinates shared by the layouts. */
module Geometry {
  datatype Position = Position(x: real, y: real)
}
