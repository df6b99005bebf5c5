/** The spawner: the two per-frame spawn rolls, a new obstacle with its every-tenth
    wave, and a new star. Draws come from the frame's stream `rng`, starting at `k`. */
module Spawning {
  import opened Entities

  const OBSTACLE_ODDS: real := 0.04
  const STAR_ODDS: real := 0.02
  const WAVE_EVERY: nat := 10
  const WAVE_SIZE: nat := 4
  const WAVE_SPACING: real := 80.0
  const STAR_SIZE: real := 15.0
  const STAR_MARGIN: real := 20.0

  /** `Math.sin(i) * 100` for i = 1 .. 4, the vertical offsets of the wave, to eight decimals. */
  const WAVE_OFFSETS: seq<real> := [84.14709848, 90.92974268, 14.11200081, -75.68024953]

  /** The obstacle `spawnObstacle` pushes first, from its three draws: size, height, speed jitter. */
  function NewObstacle(c: Canvas, gameSpeed: real, r0: real, r1: real, r2: real): Obstacle
  {
    var size := 30.0 + r0 * 30.0;
    Obstacle(c.W() + size, r1 * (c.H() - size), size, gameSpeed + r2 * 3.0, 0.0)
  }

  lemma ScaleBelow(r: real, h: real)
    requires 0.0 <= r < 1.0 && 0.0 <= h
    ensures 0.0 <= r * h <= h
    ensures 0.0 < h ==> r * h < h
  {
    assert 0.0 <= (1.0 - r) * h;
    assert 0.0 < h ==> 0.0 < (1.0 - r) * h;
    assert (1.0 - r) * h == h - r * h;
  }

  /** For draws in [0, 1) the new obstacle is 30 to 60 wide, starts wholly to the right of
      the playfield, fits vertically when the playfield is tall enough, and is no slower
      than the game speed. */
  lemma NewObstacleBounds(c: Canvas, gameSpeed: real, r0: real, r1: real, r2: real)
    requires 0.0 <= r0 < 1.0 && 0.0 <= r1 < 1.0 && 0.0 <= r2 < 1.0
    ensures var o := NewObstacle(c, gameSpeed, r0, r1, r2);
      30.0 <= o.size < 60.0 && o.x > c.W() &&
      gameSpeed <= o.speed < gameSpeed + 3.0 &&
      (o.size <= c.H() ==> 0.0 <= o.y <= c.H() - o.size)
  {
    ScaleBelow(r0, 30.0);
    ScaleBelow(r2, 3.0);
    var size := 30.0 + r0 * 30.0;
    var room := c.H() - size;
    if 0.0 <= room {
      ScaleBelow(r1, room);
      assert NewObstacle(c, gameSpeed, r0, r1, r2).y == r1 * room;
    }
  }

  /** Obstacles 1 .. n of a wave: spaced WAVE_SPACING apart behind the first, at the
      sinusoidal heights, 0.8 times its size, at the bare game speed. */
  function Wave(c: Canvas, size: real, gameSpeed: real, n: nat): (w: seq<Obstacle>)
    requires n <= WAVE_SIZE
    ensures |w| == n
    ensures forall i :: 0 <= i < n ==>
      w[i] == Obstacle(c.W() + size + (i + 1) as real * WAVE_SPACING, c.H() / 2.0 + WAVE_OFFSETS[i], size * 0.8, gameSpeed, 0.0)
    decreases n
  {
    if n == 0 then []
    else Wave(c, size, gameSpeed, n - 1)
         + [Obstacle(c.W() + size + n as real * WAVE_SPACING, c.H() / 2.0 + WAVE_OFFSETS[n - 1], size * 0.8, gameSpeed, 0.0)]
  }

  /** `spawnObstacle`: push one obstacle, and when that makes the count a multiple of
      WAVE_EVERY push the WAVE_SIZE obstacles of a wave after it. */
  function SpawnObstacle(os: seq<Obstacle>, c: Canvas, gameSpeed: real, rng: nat -> real, k: nat): (r: seq<Obstacle>)
    ensures |os| < |r| && r[..|os|] == os
    ensures r[|os|] == NewObstacle(c, gameSpeed, rng(k), rng(k + 1), rng(k + 2))
    ensures |r| == |os| + (if (|os| + 1) % WAVE_EVERY == 0 then 1 + WAVE_SIZE else 1)
    ensures (|os| + 1) % WAVE_EVERY == 0 ==> r[|os| + 1..] == Wave(c, r[|os|].size, gameSpeed, WAVE_SIZE)
  {
    var first := NewObstacle(c, gameSpeed, rng(k), rng(k + 1), rng(k + 2));
    var pushed := os + [first];
    if |pushed| % WAVE_EVERY == 0 then pushed + Wave(c, first.size, gameSpeed, WAVE_SIZE) else pushed
  }

  /** The star `spawnStar` pushes: at the right edge, height from one draw. */
  function NewStar(c: Canvas, r: real): Star
  {
    Star(c.W(), r * (c.H() - STAR_MARGIN), STAR_SIZE, 0.0)
  }

  datatype Spawned = Spawned(obstacles: seq<Obstacle>, stars: seq<Star>)

  /** The two spawn rolls of a frame: one draw decides on an obstacle (then three more
      build it), the next draw decides on a star (then one more places it). */
  function SpawnPhase(os: seq<Obstacle>, ss: seq<Star>, gameSpeed: real, c: Canvas, rng: nat -> real, k: nat): Spawned
  {
    var spawnObstacle := rng(k) < OBSTACLE_ODDS;
    var os' := if spawnObstacle then SpawnObstacle(os, c, gameSpeed, rng, k + 1) else os;
    var k2 := if spawnObstacle then k + 4 else k + 1;
    var ss' := if rng(k2) < STAR_ODDS then ss + [NewStar(c, rng(k2 + 1))] else ss;
    Spawned(os', ss')
  }

  /** Spawning only appends: whatever was in either collection stays, in place. */
  lemma SpawnOnlyAppends(os: seq<Obstacle>, ss: seq<Star>, gameSpeed: real, c: Canvas, rng: nat -> real, k: nat)
    ensures var sp := SpawnPhase(os, ss, gameSpeed, c, rng, k);
      |os| <= |sp.obstacles| <= |os| + 1 + WAVE_SIZE && sp.obstacles[..|os|] == os &&
      |ss| <= |sp.stars| <= |ss| + 1 && sp.stars[..|ss|] == ss
  {
  }
}
