/**
 * The game objects whose own code changes their state: the ball (and the
 * pucks, which are balls with another tag), the paddle, the extra paddle,
 * and the heart's collision filter.
 */
module Entities {
  import opened Basics
  import opened Effects

  /**
   * Vector2.flipped(normal): the velocity reflected about the collision
   * normal, v - 2 (v . n) n.
   */
  function Flip(v: Vec, n: Vec): Vec {
    var d := Dot(v, n);
    Vec(v.x - 2.0 * d * n.x, v.y - 2.0 * d * n.y)
  }

  /** A bounce off a unit normal keeps the speed. */
  lemma FlipKeepsSpeed(v: Vec, n: Vec)
    requires Norm2(n) == 1.0
    ensures Norm2(Flip(v, n)) == Norm2(v)
  {
    var d := Dot(v, n);
    calc {
      Norm2(Flip(v, n));
      (v.x - 2.0 * d * n.x) * (v.x - 2.0 * d * n.x) + (v.y - 2.0 * d * n.y) * (v.y - 2.0 * d * n.y);
      Norm2(v) - 4.0 * d * (v.x * n.x + v.y * n.y) + 4.0 * d * d * (n.x * n.x + n.y * n.y);
      Norm2(v) - 4.0 * d * d + 4.0 * d * d * Norm2(n);
    }
  }

  /**
   * A ball or a puck. Only a ball tagged "ball" counts its collisions, and
   * only while turbo is on; the game ends turbo when its primary ball's
   * count reaches MAX_TURBO.
   */
  class Ball {
    const id: Id
    const tag: Tag
    var velocity: Vec
    var collisionCounter: int

    constructor (id: Id, tag: Tag, velocity: Vec)
      ensures this.id == id && this.tag == tag && this.velocity == velocity
      ensures collisionCounter == 0
    {
      this.id := id;
      this.tag := tag;
      this.velocity := velocity;
      collisionCounter := 0;
    }

    /** onCollisionEnter: bounce off the normal, and count the hit if turbo is on and this is a "ball". */
    method OnCollisionEnter(normal: Vec, isTurbo: bool)
      modifies this
      ensures velocity == Flip(old(velocity), normal)
      ensures collisionCounter == old(collisionCounter) + (if isTurbo && tag == BallTag then 1 else 0)
    {
      velocity := Flip(velocity, normal);
      if isTurbo && tag == BallTag {
        collisionCounter := collisionCounter + 1;
      }
    }

    method GetCollisionCounter() returns (c: int)
      ensures c == collisionCounter
    {
      c := collisionCounter;
    }

    method SetCollisionCounter(c: int)
      modifies this
      ensures collisionCounter == c && velocity == old(velocity)
    {
      collisionCounter := c;
    }
  }

  /** The extra paddle counts the hits of balls and pucks; the game removes it at the fourth. */
  class ExtraPaddle {
    const id: Id
    var hits: int

    constructor (id: Id)
      ensures this.id == id && hits == 0
    {
      this.id := id;
      hits := 0;
    }

    method OnCollisionEnter(other: Tag)
      modifies this
      ensures hits == old(hits) + (if other == BallTag || other == PuckTag then 1 else 0)
    {
      if other == BallTag || other == PuckTag {
        hits := hits + 1;
      }
    }

    method GetHits() returns (h: int)
      ensures h == hits
    {
      h := hits;
    }
  }

  /** Horizontal speed of a paddle while an arrow key is held. */
  const MOVEMENT_SPEED: real := 300.0

  function MinReal(a: real, b: real): real { if a <= b then a else b }
  function MaxReal(a: real, b: real): real { if a <= b then b else a }

  /** Where the left edge of a paddle of width `w` ends up: pushed into [0, dim - w], the right edge winning when the paddle is wider than the window. */
  function ClampX(x: real, w: real, dim: real): real {
    MinReal(MaxReal(x, 0.0), dim - w)
  }

  /** The clamp keeps the paddle's right edge inside the window, and its left edge too whenever it fits; a paddle already inside stays put; clamping twice is clamping once. */
  lemma ClampXProperties(x: real, w: real, dim: real)
    ensures ClampX(x, w, dim) + w <= dim
    ensures w <= dim ==> 0.0 <= ClampX(x, w, dim)
    ensures 0.0 <= x && x + w <= dim ==> ClampX(x, w, dim) == x
    ensures ClampX(ClampX(x, w, dim), w, dim) == ClampX(x, w, dim)
  {
  }

  /**
   * The user's paddle and, with the same code, the extra paddle: arrow keys
   * set its velocity, and it is kept inside the window horizontally.
   */
  class Paddle {
    var topLeft: Vec
    const dims: Vec
    var velocity: Vec
    const windowWidth: real

    constructor (topLeft: Vec, dims: Vec, windowWidth: real)
      ensures this.topLeft == topLeft && this.dims == dims && this.windowWidth == windowWidth
      ensures velocity == Vec(0.0, 0.0)
    {
      this.topLeft := topLeft;
      this.dims := dims;
      this.windowWidth := windowWidth;
      velocity := Vec(0.0, 0.0);
    }

    /** update: one arrow key held moves the paddle that way at MOVEMENT_SPEED, both or none stop it; then the paddle is kept in the window. */
    method Update(left: bool, right: bool)
      modifies this
      ensures velocity == if left && !right then Vec(-MOVEMENT_SPEED, 0.0)
                          else if right && !left then Vec(MOVEMENT_SPEED, 0.0)
                          else Vec(0.0, 0.0)
      ensures topLeft == Vec(ClampX(old(topLeft.x), dims.x, windowWidth), old(topLeft.y))
    {
      var movementDir := Vec(0.0, 0.0);
      if left {
        movementDir := Vec(movementDir.x - 1.0, movementDir.y);
      }
      if right {
        movementDir := Vec(movementDir.x + 1.0, movementDir.y);
      }
      velocity := Scale(movementDir, MOVEMENT_SPEED);
      StayInWindow();
    }

    /** stayInWindow: first the left edge, then the right edge. */
    method StayInWindow()
      modifies this
      ensures topLeft == Vec(ClampX(old(topLeft.x), dims.x, windowWidth), old(topLeft.y))
      ensures velocity == old(velocity)
    {
      var dim := windowWidth;
      if topLeft.x < 0.0 {
        topLeft := Vec(0.0, topLeft.y);
      }
      if topLeft.x > dim - dims.x {
        topLeft := Vec(dim - dims.x, topLeft.y);
      }
    }
  }

  /** Heart.shouldCollideWith: a heart only collides with the user's paddle. */
  function ShouldCollideWith(other: Tag): bool {
    other == PaddleTag
  }
}
