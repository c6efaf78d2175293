/** Value types shared by every part of the simulation: 2-D vectors over the reals and the
    small option/result wrappers used for absent fields and construction errors. */
module Types {

  datatype Option<+T> = None | Some(value: T) {
    /** The wrapped value, or `default` when absent. */
    function GetOr(default: T): T {
      match this
      case Some(v) => v
      case None => default
    }
  }

  datatype Result<+T, +E> = Success(value: T) | Failure(error: E)

  /** A 2-D vector; all arithmetic is component-wise. */
  datatype Vec = Vec(x: real, y: real) {
    function Add(o: Vec): Vec { Vec(x + o.x, y + o.y) }
    function Sub(o: Vec): Vec { Vec(x - o.x, y - o.y) }
    function Scale(k: real): Vec { Vec(k * x, k * y) }
  }

  const Zero: Vec := Vec(0.0, 0.0)

  function Abs(x: real): real { if x < 0.0 then -x else x }
  function Min(a: real, b: real): real { if a <= b then a else b }
  function Max(a: real, b: real): real { if a >= b then a else b }
  function Square(x: real): real { x * x }
}
