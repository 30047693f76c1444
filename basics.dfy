/** Small value types shared by the whole model. */
module Basics {

  /** Stands for a Java reference that may be null. */
  datatype Option<+T> = None | Some(value: T)

  /** Identity of a game object created during a session. */
  type Id = nat

  /** A point or a velocity in window coordinates (y grows downwards). */
  datatype Vec = Vec(x: real, y: real)

  function Min(a: int, b: int): int { if a <= b then a else b }

  /** Vector2.mult: both coordinates times k. */
  function Scale(v: Vec, k: real): Vec { Vec(v.x * k, v.y * k) }

  function Dot(u: Vec, v: Vec): real { u.x * v.x + u.y * v.y }

  /** The squared length, i.e. the squared speed of a velocity. */
  function Norm2(v: Vec): real { Dot(v, v) }

  /** Scaling a velocity by k scales its squared speed by k * k. */
  lemma ScaleNorm2(v: Vec, k: real)
    ensures Norm2(Scale(v, k)) == k * k * Norm2(v)
  {
    calc {
      Norm2(Scale(v, k));
      (v.x * k) * (v.x * k) + (v.y * k) * (v.y * k);
      k * k * (v.x * v.x) + k * k * (v.y * v.y);
    }
  }

  /** Scaling by a nonzero k and then by 1 / k gives the vector back. */
  lemma ScaleInverse(v: Vec, k: real)
    requires k != 0.0
    ensures Scale(Scale(v, k), 1.0 / k) == v
  {
    assert v.x * k * (1.0 / k) == v.x;
    assert v.y * k * (1.0 / k) == v.y;
  }
}
