/**
 * Values shared by the components: an optional value, a world-space point
 * and the 2D movement intent produced by the input layer.
 */
module Basics {

  datatype Option<T> = None | Some(value: T)

  /** The exception a frame or a handler ends with. */
  datatype Fault =
    | /** NotImplementedException */ NotImplemented
    | /** a call on a missing (null) component */ NullReference

  /** How a frame or an event handler ended: normally, or by an exception. */
  datatype TickOutcome = Completed | Threw(fault: Fault)

  /** A Vector3 position in world space. */
  datatype Point = Point(x: real, y: real, z: real)

  function Add(p: Point, q: Point): Point {
    Point(p.x + q.x, p.y + q.y, p.z + q.z)
  }

  function Scale(p: Point, k: real): Point {
    Point(p.x * k, p.y * k, p.z * k)
  }

  function NormSquared(p: Point): real {
    p.x * p.x + p.y * p.y + p.z * p.z
  }

  /** A real at least k away from 0 (k >= 0) has a square of at least k * k; k = 0 gives a * a >= 0. */
  lemma SquareAtLeast(a: real, k: real)
    requires 0.0 <= k && (a >= k || a <= -k)
    ensures a * a >= k * k
  {
    if a < 0.0 {
      assert a * a == (-a) * (-a);
    }
  }

  /**
   * A Vector2 movement intent whose key contributions are integers.
   * Raw(x, y) is the vector (x, y) itself; Normalized(x, y) is the result of
   * `.normalized` applied to (x, y): the unit vector in its direction, or the
   * zero vector when both components are 0.
   */
  datatype MoveVector = Raw(x: int, y: int) | Normalized(x: int, y: int)

  predicate IsZero(v: MoveVector) {
    v.x == 0 && v.y == 0
  }

  /** The squared magnitude of the vector the intent stands for. */
  function MagnitudeSquared(v: MoveVector): (m: real)
    ensures m >= 0.0
    ensures m == 0.0 <==> IsZero(v)
    ensures v.Normalized? && !IsZero(v) ==> m == 1.0
  {
    match v
    case Raw(x, y) => (x * x + y * y) as real
    case Normalized(x, y) => if x == 0 && y == 0 then 0.0 else 1.0
  }

  /**
   * `v.magnitude > limit` for a non-negative constant limit, decided without a
   * square root: the caller passes `limit * limit` as `limitSquared`.
   */
  predicate MagnitudeAbove(v: MoveVector, limitSquared: real) {
    MagnitudeSquared(v) > limitSquared
  }

  /**
   * For an intent with integer components, every threshold in [0, 1)
   * separates exactly the zero vector from the others.
   */
  lemma {:induction false} IntegerMagnitudeAbove(v: MoveVector, limitSquared: real)
    requires 0.0 <= limitSquared < 1.0
    ensures MagnitudeAbove(v, limitSquared) <==> !IsZero(v)
  {
    if !IsZero(v) && v.Raw? {
      SquareAtLeastOne(v.x, v.y);
    }
  }

  lemma SquareAtLeastOne(x: int, y: int)
    requires x != 0 || y != 0
    ensures x * x + y * y >= 1
  {
    assert x * x >= 0 && y * y >= 0;
    if x != 0 {
      assert x * x >= 1 by {
        if x > 0 { assert x * x >= x * 1; } else { assert x * x == (-x) * (-x) >= (-x) * 1; }
      }
    } else {
      assert y * y >= 1 by {
        if y > 0 { assert y * y >= y * 1; } else { assert y * y == (-y) * (-y) >= (-y) * 1; }
      }
    }
  }
}
