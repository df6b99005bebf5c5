/** The entities of one game session and the overlap test between two of them.
    Positions, sizes and speeds are real numbers; IEEE rounding is not modelled. */
module Entities {

  /** The playfield. A canvas element's width and height are whole pixels. */
  datatype Canvas = Canvas(width: nat, height: nat)
  {
    function W(): real { width as real }
    function H(): real { height as real }
  }

  /** The square an entity occupies: top-left corner and side length. */
  datatype Body = Body(x: real, y: real, size: real)

  /** One remembered player position with the frames it has left to live. */
  datatype TrailPoint = TrailPoint(x: real, y: real, life: int)

  /** The player record. `speed` exists in the source but no code reads it.
      The three timers count the frames their power-up has left; 0 means inactive. */
  datatype Player = Player(x: real, y: real, size: real, speed: real,
                           vx: real, vy: real, friction: real,
                           shield: nat, speedBoost: nat, shrink: nat,
                           trail: seq<TrailPoint>)
  {
    function Hitbox(): Body { Body(x, y, size) }
  }

  /** An asteroid moving left at its own speed; `angle` only turns its picture. */
  datatype Obstacle = Obstacle(x: real, y: real, size: real, speed: real, angle: real)
  {
    function Hitbox(): Body { Body(x, y, size) }
  }

  /** A collectible star; it moves left at the session's game speed. */
  datatype Star = Star(x: real, y: real, size: real, angle: real)
  {
    function Hitbox(): Body { Body(x, y, size) }
  }

  datatype Color = Gray | Red | Yellow

  /** A short-lived effect particle. Its alpha is derived from `life` when drawing and is not stored. */
  datatype Particle = Particle(x: real, y: real, vx: real, vy: real, size: real, life: int, color: Color)

  /** The arrow keys held down during one frame. */
  datatype Keys = Keys(up: bool, down: bool, left: bool, right: bool)

  /** `checkCollision`: the centres of the two squares are closer than the sum of their
      half-sizes. The source compares `Math.sqrt(dx*dx + dy*dy)` with that sum; this compares
      the squares, which `CollisionIsDistanceTest` shows to be the same test. */
  predicate CheckCollision(a: Body, b: Body)
  {
    var dx := (a.x + a.size / 2.0) - (b.x + b.size / 2.0);
    var dy := (a.y + a.size / 2.0) - (b.y + b.size / 2.0);
    var reach := a.size / 2.0 + b.size / 2.0;
    dx * dx + dy * dy < reach * reach
  }

  /** The overlap test does not depend on which body is named first. */
  lemma CollisionSymmetric(a: Body, b: Body)
    ensures CheckCollision(a, b) == CheckCollision(b, a)
  {
    var dx := (a.x + a.size / 2.0) - (b.x + b.size / 2.0);
    assert ((b.x + b.size / 2.0) - (a.x + a.size / 2.0)) * ((b.x + b.size / 2.0) - (a.x + a.size / 2.0)) == dx * dx;
  }

  lemma SquareMonotone(u: real, v: real)
    requires 0.0 <= u < v
    ensures u * u < v * v
  {
    var gap := v - u;
    assert v * v == u * u + gap * (u + v);
    assert gap * (u + v) > 0.0;
  }

  /** For non-negative sizes, comparing squares agrees with the source's comparison of the
      Euclidean distance `d` (the non-negative root of dx*dx + dy*dy) with the sum of half-sizes. */
  lemma CollisionIsDistanceTest(a: Body, b: Body, d: real)
    requires 0.0 <= a.size && 0.0 <= b.size
    requires 0.0 <= d
    requires d * d == ((a.x + a.size / 2.0) - (b.x + b.size / 2.0)) * ((a.x + a.size / 2.0) - (b.x + b.size / 2.0))
                    + ((a.y + a.size / 2.0) - (b.y + b.size / 2.0)) * ((a.y + a.size / 2.0) - (b.y + b.size / 2.0))
    ensures CheckCollision(a, b) <==> d < a.size / 2.0 + b.size / 2.0
  {
    var reach := a.size / 2.0 + b.size / 2.0;
    assert CheckCollision(a, b) <==> d * d < reach * reach;
    if d < reach {
      SquareMonotone(d, reach);
    } else if reach < d {
      SquareMonotone(reach, d);
    }
  }
}
