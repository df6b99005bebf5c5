/** The game session as the page holds it: module-level variables updated in place by
    `startGame`, `update`, `endGame`, the spawners and the input handlers. Every method is
    proved to leave the state its functional description in module Frame predicts. */
module Game {
  import opened Seqs
  import opened Entities
  import opened PlayerControl
  import opened Collisions
  import opened Spawning
  import opened Frame

  /** The part of a list a `forEach` has not reached at index `i`: the list may have
      shrunk below `i`, and then nothing is left. */
  function Unvisited(os: seq<Obstacle>, i: nat): seq<Obstacle>
  {
    if i <= |os| then os[i..] else []
  }

  /** The obstacle `forEach` up to index `i` accounts for the whole pass `total`: what it
      has visited (`os[..i]`, or all of `os` once it has shrunk below `i`), the particles it
      has emitted and the crashes it has counted, followed by the pass over the rest. */
  ghost predicate Accounts(total: ObstaclePass, os: seq<Obstacle>, i: nat, emitted: seq<Particle>, crashes: nat,
                           p: Player, rng: nat -> real, k: nat)
  {
    var r := ObstacleSweep(Unvisited(os, i), p, Touching(p), rng, k);
    total.kept == os[..Min(i, |os|)] + r.kept &&
    total.sparks == emitted + r.sparks &&
    total.crashes == crashes + r.crashes &&
    total.next == r.next
  }

  lemma SweepMiss(a: Obstacle, rest: seq<Obstacle>, p: Player, touches: Body -> bool, rng: nat -> real, k: nat)
    requires !touches(a.Hitbox())
    ensures var r := ObstacleSweep(rest, p, touches, rng, k);
      ObstacleSweep([a] + rest, p, touches, rng, k) == r.(kept := [a] + r.kept)
  {
    assert ([a] + rest)[1..] == rest;
  }

  lemma SweepShielded(a: Obstacle, b: Obstacle, rest: seq<Obstacle>, p: Player, touches: Body -> bool, rng: nat -> real, k: nat)
    requires touches(a.Hitbox()) && p.shield > 0
    ensures var r := ObstacleSweep(rest, p, touches, rng, k + DRAWS_PER_PARTICLE * SPARK_COUNT);
      ObstacleSweep([a, b] + rest, p, touches, rng, k)
        == ObstaclePass([b] + r.kept, Burst(a.x, a.y, Gray, SPARK_COUNT, SPARK_SPREAD, rng, k) + r.sparks, r.crashes, r.next)
  {
    assert ([a, b] + rest)[2..] == rest;
  }

  lemma SweepCrash(a: Obstacle, rest: seq<Obstacle>, p: Player, touches: Body -> bool, rng: nat -> real, k: nat)
    requires touches(a.Hitbox()) && p.shield == 0
    ensures var r := ObstacleSweep(rest, p, touches, rng, k + DRAWS_PER_PARTICLE * CRASH_COUNT);
      ObstacleSweep([a] + rest, p, touches, rng, k)
        == ObstaclePass([a] + r.kept, Burst(p.x, p.y, Red, CRASH_COUNT, CRASH_SPREAD, rng, k) + r.sparks, r.crashes + 1, r.next)
  {
    assert ([a] + rest)[1..] == rest;
  }

  /** Visiting an obstacle that misses the player: it joins the visited prefix. */
  lemma VisitMiss(total: ObstaclePass, os: seq<Obstacle>, i: nat, emitted: seq<Particle>, crashes: nat,
                  p: Player, rng: nat -> real, k: nat)
    requires Accounts(total, os, i, emitted, crashes, p, rng, k)
    requires i < |os| && !Touching(p)(os[i].Hitbox())
    ensures Accounts(total, os, i + 1, emitted, crashes, p, rng, k)
  {
    assert Unvisited(os, i) == [os[i]] + os[i + 1..];
    SweepMiss(os[i], os[i + 1..], p, Touching(p), rng, k);
    var r' := ObstacleSweep(os[i + 1..], p, Touching(p), rng, k);
    ConcatAssoc(os[..i], [os[i]], r'.kept);
  }

  /** Visiting an obstacle that touches a shielded player: `splice` removes it, the obstacle
      behind it moves into index `i` and the index moves past it. */
  lemma VisitShielded(total: ObstaclePass, os: seq<Obstacle>, i: nat, emitted: seq<Particle>, crashes: nat,
                      p: Player, rng: nat -> real, k: nat)
    requires Accounts(total, os, i, emitted, crashes, p, rng, k)
    requires i < |os| && Touching(p)(os[i].Hitbox()) && p.shield > 0
    ensures Accounts(total, os[..i] + os[i + 1..], i + 1,
                     emitted + Burst(os[i].x, os[i].y, Gray, SPARK_COUNT, SPARK_SPREAD, rng, k), crashes,
                     p, rng, k + DRAWS_PER_PARTICLE * SPARK_COUNT)
  {
    if i + 1 < |os| {
      VisitShieldedSkips(total, os, i, emitted, crashes, p, rng, k);
    } else {
      VisitShieldedLast(total, os, i, emitted, crashes, p, rng, k);
    }
  }

  lemma ConcatAssoc<T>(a: seq<T>, b: seq<T>, c: seq<T>)
    ensures a + (b + c) == (a + b) + c
  {
  }

  /** How a `splice` at index `i` looks from the next index. */
  lemma SplicedView(os: seq<Obstacle>, i: nat)
    requires i + 1 < |os|
    ensures Unvisited(os, i) == [os[i], os[i + 1]] + os[i + 2..]
    ensures Unvisited(os[..i] + os[i + 1..], i + 1) == os[i + 2..]
    ensures Min(i + 1, |os[..i] + os[i + 1..]|) == i + 1
    ensures (os[..i] + os[i + 1..])[..i + 1] == os[..i] + [os[i + 1]]
  {
  }

  /** The shielded hit with an obstacle behind it: that obstacle is passed over. */
  lemma VisitShieldedSkips(total: ObstaclePass, os: seq<Obstacle>, i: nat, emitted: seq<Particle>, crashes: nat,
                           p: Player, rng: nat -> real, k: nat)
    requires Accounts(total, os, i, emitted, crashes, p, rng, k)
    requires i + 1 < |os| && Touching(p)(os[i].Hitbox()) && p.shield > 0
    ensures Accounts(total, os[..i] + os[i + 1..], i + 1,
                     emitted + Burst(os[i].x, os[i].y, Gray, SPARK_COUNT, SPARK_SPREAD, rng, k), crashes,
                     p, rng, k + DRAWS_PER_PARTICLE * SPARK_COUNT)
  {
    var sparks := Burst(os[i].x, os[i].y, Gray, SPARK_COUNT, SPARK_SPREAD, rng, k);
    SplicedView(os, i);
    SweepShielded(os[i], os[i + 1], os[i + 2..], p, Touching(p), rng, k);
    var r' := ObstacleSweep(os[i + 2..], p, Touching(p), rng, k + DRAWS_PER_PARTICLE * SPARK_COUNT);
    ConcatAssoc(os[..i], [os[i + 1]], r'.kept);
    ConcatAssoc(emitted, sparks, r'.sparks);
  }

  /** The shielded hit on the last obstacle: the list ends before the next index. */
  lemma VisitShieldedLast(total: ObstaclePass, os: seq<Obstacle>, i: nat, emitted: seq<Particle>, crashes: nat,
                          p: Player, rng: nat -> real, k: nat)
    requires Accounts(total, os, i, emitted, crashes, p, rng, k)
    requires i + 1 == |os| && Touching(p)(os[i].Hitbox()) && p.shield > 0
    ensures Accounts(total, os[..i] + os[i + 1..], i + 1,
                     emitted + Burst(os[i].x, os[i].y, Gray, SPARK_COUNT, SPARK_SPREAD, rng, k), crashes,
                     p, rng, k + DRAWS_PER_PARTICLE * SPARK_COUNT)
  {
    var sparks := Burst(os[i].x, os[i].y, Gray, SPARK_COUNT, SPARK_SPREAD, rng, k);
    assert Unvisited(os, i) == [os[i]];
    assert os[..i] + os[i + 1..] == os[..i];
    assert emitted + sparks == (emitted + sparks) + [];
  }

  /** Visiting an obstacle that touches an unshielded player: it stays, the crash burst is
      emitted and one crash is counted. */
  lemma VisitCrash(total: ObstaclePass, os: seq<Obstacle>, i: nat, emitted: seq<Particle>, crashes: nat,
                   p: Player, rng: nat -> real, k: nat)
    requires Accounts(total, os, i, emitted, crashes, p, rng, k)
    requires i < |os| && Touching(p)(os[i].Hitbox()) && p.shield == 0
    ensures Accounts(total, os, i + 1, emitted + Burst(p.x, p.y, Red, CRASH_COUNT, CRASH_SPREAD, rng, k), crashes + 1,
                     p, rng, k + DRAWS_PER_PARTICLE * CRASH_COUNT)
  {
    var sparks := Burst(p.x, p.y, Red, CRASH_COUNT, CRASH_SPREAD, rng, k);
    assert Unvisited(os, i) == [os[i]] + os[i + 1..];
    SweepCrash(os[i], os[i + 1..], p, Touching(p), rng, k);
    var r' := ObstacleSweep(os[i + 1..], p, Touching(p), rng, k + DRAWS_PER_PARTICLE * CRASH_COUNT);
    ConcatAssoc(os[..i], [os[i]], r'.kept);
    ConcatAssoc(emitted, sparks, r'.sparks);
  }

  /** The star `filter` has visited `ss[..i]`, keeping `survivors` and emitting `emitted`,
      and leaves the player, combo, score and cursor at `p`, `combo`, `score` and `k`:
      the pass over the remaining stars completes the pass `total` over all of them. */
  ghost predicate Gathers(total: StarPass, ss: seq<Star>, i: nat, survivors: seq<Star>, emitted: seq<Particle>,
                          p: Player, touches: Body -> bool, combo: nat, score: int, rng: nat -> real, k: nat)
  {
    i <= |ss| &&
    var r := StarSweep(ss[i..], p, touches, combo, score, rng, k);
    total == r.(kept := survivors + r.kept, sparks := emitted + r.sparks)
  }

  /** Visiting star `i` when it misses the player: it is kept. */
  lemma GatherMiss(total: StarPass, ss: seq<Star>, i: nat, survivors: seq<Star>, emitted: seq<Particle>,
                   p: Player, touches: Body -> bool, combo: nat, score: int, rng: nat -> real, k: nat)
    requires Gathers(total, ss, i, survivors, emitted, p, touches, combo, score, rng, k)
    requires i < |ss| && !touches(ss[i].Hitbox())
    ensures Gathers(total, ss, i + 1, survivors + [ss[i]], emitted, p, touches, combo, score, rng, k)
  {
    assert ss[i..][1..] == ss[i + 1..];
    var r' := StarSweep(ss[i + 1..], p, touches, combo, score, rng, k);
    ConcatAssoc(survivors, [ss[i]], r'.kept);
  }

  /** Visiting star `i` when it touches the player: the combo, the score, the burst and
      the power-up draw, in that order. */
  lemma GatherHit(total: StarPass, ss: seq<Star>, i: nat, survivors: seq<Star>, emitted: seq<Particle>,
                  p: Player, touches: Body -> bool, combo: nat, score: int, rng: nat -> real, k: nat)
    requires Gathers(total, ss, i, survivors, emitted, p, touches, combo, score, rng, k)
    requires i < |ss| && touches(ss[i].Hitbox())
    ensures var k' := k + DRAWS_PER_PARTICLE * SPARK_COUNT;
      Gathers(total, ss, i + 1, survivors, emitted + Burst(ss[i].x, ss[i].y, Yellow, SPARK_COUNT, SPARK_SPREAD, rng, k),
              GrantPowerUp(p, rng(k')), touches, combo + 1, score + STAR_POINTS * Min(combo + 1, COMBO_CAP), rng, k' + 1)
  {
    assert ss[i..][1..] == ss[i + 1..];
    var k' := k + DRAWS_PER_PARTICLE * SPARK_COUNT;
    var r' := StarSweep(ss[i + 1..], GrantPowerUp(p, rng(k')), touches, combo + 1,
                        score + STAR_POINTS * Min(combo + 1, COMBO_CAP), rng, k' + 1);
    ConcatAssoc(emitted, Burst(ss[i].x, ss[i].y, Yellow, SPARK_COUNT, SPARK_SPREAD, rng, k), r'.sparks);
  }

  class Session {
    const canvas: Canvas
    var player: Player
    var obstacles: seq<Obstacle>
    var stars: seq<Star>
    var particles: seq<Particle>
    var score: int
    var highScore: int
    var gameSpeed: real
    var gameRunning: bool
    var combo: nat

    /** The session state as a value. */
    function Snapshot(): World
      reads this
    {
      World(player, obstacles, stars, particles, score, combo, gameSpeed, gameRunning, highScore)
    }

    /** The page's initial state, with the high score read from storage. */
    constructor(c: Canvas, storedHighScore: int)
      ensures canvas == c
      ensures Snapshot() == Initial(c, storedHighScore)
    {
      canvas := c;
      player := InitialPlayer(c);
      obstacles := [];
      stars := [];
      particles := [];
      score := 0;
      highScore := storedHighScore;
      gameSpeed := START_SPEED;
      gameRunning := false;
      combo := 0;
    }

    /** `startGame`: reset everything but the high score, start running, run one frame. */
    method StartGame(keys: Keys, rng: nat -> real)
      modifies this
      ensures Snapshot() == Step(Restart(old(Snapshot()), canvas), canvas, keys, rng)
    {
      player := InitialPlayer(canvas);
      obstacles := [];
      stars := [];
      particles := [];
      score := 0;
      combo := 0;
      gameSpeed := START_SPEED;
      gameRunning := true;
      assert Snapshot() == Restart(old(Snapshot()), canvas);
      Update(keys, rng);
    }

    /** `endGame`: keep the larger of the score and the high score. */
    method EndGame()
      modifies this`highScore
      ensures highScore == HighScoreAfter(score, old(highScore))
    {
      if score > highScore {
        highScore := score;
      }
    }

    /** `spawnParticles`: push `count` particles, three draws each. Returns the next unused draw. */
    method SpawnParticles(x: real, y: real, color: Color, count: nat, spread: real, rng: nat -> real, k: nat) returns (next: nat)
      modifies this`particles
      ensures particles == old(particles) + Burst(x, y, color, count, spread, rng, k)
      ensures next == k + DRAWS_PER_PARTICLE * count
    {
      next := k;
      var i := 0;
      while i < count
        invariant 0 <= i <= count
        invariant next == k + DRAWS_PER_PARTICLE * i
        invariant particles == old(particles) + Burst(x, y, color, i, spread, rng, k)
      {
        var q := Particle(x, y, (rng(next) - 0.5) * spread, (rng(next + 1) - 0.5) * spread,
                          rng(next + 2) * 6.0 + 2.0, PARTICLE_LIFE, color);
        ghost var spec := Spark(x, y, color, spread, rng, next);
        assert q.vx == spec.vx && q.vy == spec.vy && q.size == spec.size;
        assert Burst(x, y, color, i + 1, spread, rng, k) == Burst(x, y, color, i, spread, rng, k) + [q];
        particles := particles + [q];
        next := next + DRAWS_PER_PARTICLE;
        i := i + 1;
      }
    }

    /** `spawnObstacle`, reading its three draws from `k`. */
    method SpawnObstacle(rng: nat -> real, k: nat)
      modifies this`obstacles
      ensures obstacles == Spawning.SpawnObstacle(old(obstacles), canvas, gameSpeed, rng, k)
    {
      var size := 30.0 + rng(k) * 30.0;
      var first := Obstacle(canvas.W() + size, rng(k + 1) * (canvas.H() - size), size, gameSpeed + rng(k + 2) * 3.0, 0.0);
      ghost var spec := NewObstacle(canvas, gameSpeed, rng(k), rng(k + 1), rng(k + 2));
      assert first.size == spec.size && first.x == spec.x && first.y == spec.y && first.speed == spec.speed;
      obstacles := obstacles + [first];
      if |obstacles| % WAVE_EVERY == 0 {
        ghost var pushed := obstacles;
        for i := 1 to WAVE_SIZE + 1
          invariant obstacles == pushed + Wave(canvas, size, gameSpeed, i - 1)
        {
          obstacles := obstacles + [Obstacle(canvas.W() + size + i as real * WAVE_SPACING,
                                             canvas.H() / 2.0 + WAVE_OFFSETS[i - 1], size * 0.8, gameSpeed, 0.0)];
        }
      }
    }

    /** `spawnStar`, reading its one draw at `k`. */
    method SpawnStar(rng: nat -> real, k: nat)
      modifies this`stars
      ensures stars == old(stars) + [NewStar(canvas, rng(k))]
    {
      stars := stars + [Star(canvas.W(), rng(k) * (canvas.H() - STAR_MARGIN), STAR_SIZE, 0.0)];
    }

    /** The movement statements of `update`. */
    method MovePlayer(keys: Keys)
      modifies this`player
      ensures player == Move(old(player), keys, canvas)
    {
      ghost var g := Glide(player, keys);
      var vx := player.vx;
      var vy := player.vy;
      if keys.up { vy := vy - THRUST; }
      if keys.down { vy := vy + THRUST; }
      if keys.left { vx := vx - THRUST; }
      if keys.right { vx := vx + THRUST; }
      var speedMod := SpeedMod(player);
      vx := vx * player.friction;
      vy := vy * player.friction;
      assert vx == g.vx && vy == g.vy;
      assert g.x == player.x + vx * speedMod && g.y == player.y + vy * speedMod;
      var x := player.x + vx * speedMod;
      var y := player.y + vy * speedMod;
      x := Clamp(x, canvas.W() - player.size);
      y := Clamp(y, canvas.H() - player.size);
      player := player.(x := x, y := y, vx := vx, vy := vy);
    }

    /** The trail statements of `update`: push the position, then filter with post-decrement. */
    method UpdateTrail()
      modifies this`player
      ensures player == old(player).(trail := TrailStep(old(player).trail, old(player).x, old(player).y))
    {
      player := player.(trail := player.trail + [TrailPoint(player.x, player.y, TRAIL_LIFE)]);
      player := player.(trail := Decay(player.trail));
    }

    /** The power-up countdown statements of `update`. */
    method UpdatePowerUps()
      modifies this`player
      ensures player == TickPowerUps(old(player))
    {
      if player.shield > 0 { player := player.(shield := player.shield - 1); }
      if player.speedBoost > 0 { player := player.(speedBoost := player.speedBoost - 1); }
      if player.shrink > 0 {
        player := player.(shrink := player.shrink - 1);
        player := player.(size := if player.shrink > 0 then SHRUNK_SIZE else NORMAL_SIZE);
      }
    }

    /** The two `forEach` loops that move and turn obstacles and stars. */
    method MoveObjects()
      modifies this`obstacles, this`stars
      ensures obstacles == AdvanceObstacles(old(obstacles))
      ensures stars == AdvanceStars(old(stars), gameSpeed)
    {
      var i := 0;
      while i < |obstacles|
        invariant 0 <= i <= |obstacles| && |obstacles| == |old(obstacles)| && stars == old(stars)
        invariant forall j :: 0 <= j < i ==> obstacles[j] == DriftObstacle(old(obstacles)[j])
        invariant forall j :: i <= j < |obstacles| ==> obstacles[j] == old(obstacles)[j]
      {
        var o := obstacles[i];
        obstacles := obstacles[i := o.(x := o.x - o.speed, angle := o.angle + OBSTACLE_SPIN)];
        i := i + 1;
      }
      i := 0;
      while i < |stars|
        invariant 0 <= i <= |stars| && |stars| == |old(stars)| && obstacles == AdvanceObstacles(old(obstacles))
        invariant forall j :: 0 <= j < i ==> stars[j] == DriftStar(old(stars)[j], gameSpeed)
        invariant forall j :: i <= j < |stars| ==> stars[j] == old(stars)[j]
      {
        var s := stars[i];
        stars := stars[i := s.(x := s.x - gameSpeed, angle := s.angle + STAR_SPIN)];
        i := i + 1;
      }
    }

    /** The callback of the obstacle `forEach`, at index `i`: a shielded hit splices the
        obstacle out and emits sparks, an unshielded one stops the game, emits the crash
        burst and calls `endGame`. The ghost parameters carry the pass so far. */
    method VisitObstacle(i: nat, rng: nat -> real, k: nat, ghost total: ObstaclePass,
                         ghost emitted: seq<Particle>, ghost crashes: nat,
                         ghost particles0: seq<Particle>, ghost running0: bool, ghost highScore0: int)
        returns (next: nat, ghost emitted': seq<Particle>, ghost crashes': nat)
      modifies this`obstacles, this`particles, this`gameRunning, this`highScore
      requires i < |obstacles|
      requires Accounts(total, obstacles, i, emitted, crashes, player, rng, k)
      requires particles == particles0 + emitted
      requires gameRunning == (running0 && crashes == 0)
      requires highScore == (if crashes > 0 then HighScoreAfter(score, highScore0) else highScore0)
      ensures |obstacles| <= old(|obstacles|)
      ensures Accounts(total, obstacles, i + 1, emitted', crashes', player, rng, next)
      ensures particles == particles0 + emitted'
      ensures gameRunning == (running0 && crashes' == 0)
      ensures highScore == (if crashes' > 0 then HighScoreAfter(score, highScore0) else highScore0)
    {
      next, emitted', crashes' := k, emitted, crashes;
      if CheckCollision(player.Hitbox(), obstacles[i].Hitbox()) {
        if player.shield > 0 {
          next, emitted' := ShieldedHit(i, rng, k, total, emitted, crashes, particles0);
        } else {
          next, emitted' := Crash(i, rng, k, total, emitted, crashes, particles0);
          crashes' := crashes + 1;
        }
      } else {
        VisitMiss(total, obstacles, i, emitted, crashes, player, rng, k);
      }
    }

    /** A hit while shielded: the obstacle is spliced out and sparks fly from it. */
    method ShieldedHit(i: nat, rng: nat -> real, k: nat, ghost total: ObstaclePass,
                       ghost emitted: seq<Particle>, ghost crashes: nat, ghost particles0: seq<Particle>)
        returns (next: nat, ghost emitted': seq<Particle>)
      modifies this`obstacles, this`particles
      requires i < |obstacles| && player.shield > 0 && Touching(player)(obstacles[i].Hitbox())
      requires Accounts(total, obstacles, i, emitted, crashes, player, rng, k)
      requires particles == particles0 + emitted
      ensures obstacles == old(obstacles)[..i] + old(obstacles)[i + 1..]
      ensures particles == old(particles) + Burst(old(obstacles)[i].x, old(obstacles)[i].y, Gray, SPARK_COUNT, SPARK_SPREAD, rng, k)
      ensures emitted' == emitted + Burst(old(obstacles)[i].x, old(obstacles)[i].y, Gray, SPARK_COUNT, SPARK_SPREAD, rng, k)
      ensures next == k + DRAWS_PER_PARTICLE * SPARK_COUNT
      ensures |obstacles| < old(|obstacles|)
      ensures Accounts(total, obstacles, i + 1, emitted', crashes, player, rng, next)
      ensures particles == particles0 + emitted'
    {
      var o := obstacles[i];
      VisitShielded(total, obstacles, i, emitted, crashes, player, rng, k);
      ConcatAssoc(particles0, emitted, Burst(o.x, o.y, Gray, SPARK_COUNT, SPARK_SPREAD, rng, k));
      obstacles := obstacles[..i] + obstacles[i + 1..];
      emitted' := emitted + Burst(o.x, o.y, Gray, SPARK_COUNT, SPARK_SPREAD, rng, k);
      next := SpawnParticles(o.x, o.y, Gray, SPARK_COUNT, SPARK_SPREAD, rng, k);
    }

    /** A hit without a shield: the crash burst, the game stops and `endGame` runs. */
    method Crash(i: nat, rng: nat -> real, k: nat, ghost total: ObstaclePass,
                 ghost emitted: seq<Particle>, ghost crashes: nat, ghost particles0: seq<Particle>)
        returns (next: nat, ghost emitted': seq<Particle>)
      modifies this`particles, this`gameRunning, this`highScore
      requires i < |obstacles| && player.shield == 0 && Touching(player)(obstacles[i].Hitbox())
      requires Accounts(total, obstacles, i, emitted, crashes, player, rng, k)
      requires particles == particles0 + emitted
      ensures particles == old(particles) + Burst(player.x, player.y, Red, CRASH_COUNT, CRASH_SPREAD, rng, k)
      ensures emitted' == emitted + Burst(player.x, player.y, Red, CRASH_COUNT, CRASH_SPREAD, rng, k)
      ensures next == k + DRAWS_PER_PARTICLE * CRASH_COUNT
      ensures Accounts(total, obstacles, i + 1, emitted', crashes + 1, player, rng, next)
      ensures particles == particles0 + emitted'
      ensures !gameRunning && highScore == HighScoreAfter(score, old(highScore))
    {
      VisitCrash(total, obstacles, i, emitted, crashes, player, rng, k);
      ConcatAssoc(particles0, emitted, Burst(player.x, player.y, Red, CRASH_COUNT, CRASH_SPREAD, rng, k));
      gameRunning := false;
      emitted' := emitted + Burst(player.x, player.y, Red, CRASH_COUNT, CRASH_SPREAD, rng, k);
      next := SpawnParticles(player.x, player.y, Red, CRASH_COUNT, CRASH_SPREAD, rng, k);
      EndGame();
    }

    /** The obstacle `forEach` of `update`: it visits indices up to the length the list had
        when it began, skipping those the list has shrunk below. */
    method CollideObstacles(rng: nat -> real, k0: nat) returns (k: nat)
      modifies this`obstacles, this`particles, this`gameRunning, this`highScore
      ensures var sweep := ObstacleSweep(old(obstacles), player, Touching(player), rng, k0);
        obstacles == sweep.kept &&
        particles == old(particles) + sweep.sparks &&
        gameRunning == (old(gameRunning) && sweep.crashes == 0) &&
        highScore == (if sweep.crashes > 0 then HighScoreAfter(score, old(highScore)) else old(highScore)) &&
        k == sweep.next
    {
      ghost var total := ObstacleSweep(obstacles, player, Touching(player), rng, k0);
      ghost var emitted: seq<Particle> := [];
      ghost var crashes: nat := 0;
      var n := |obstacles|;
      var i := 0;
      k := k0;
      assert obstacles[..0] + total.kept == total.kept;
      while i < n
        invariant 0 <= i <= n && |obstacles| <= n
        invariant particles == old(particles) + emitted
        invariant gameRunning == (old(gameRunning) && crashes == 0)
        invariant highScore == (if crashes > 0 then HighScoreAfter(score, old(highScore)) else old(highScore))
        invariant Accounts(total, obstacles, i, emitted, crashes, player, rng, k)
      {
        if i < |obstacles| {
          k, emitted, crashes := VisitObstacle(i, rng, k, total, emitted, crashes, old(particles), old(gameRunning), old(highScore));
        }
        i := i + 1;
      }
      assert obstacles[..|obstacles|] == obstacles;
    }

    /** The callback of the star `filter`, at star `i`: a star the player touches is
        collected and dropped, any other kept. The ghost parameters carry the pass so far. */
    method VisitStar(pending: seq<Star>, i: nat, rng: nat -> real, k: nat, ghost total: StarPass,
                     ghost survivors: seq<Star>, ghost emitted: seq<Particle>, ghost p0: Player,
                     ghost particles0: seq<Particle>)
        returns (keep: bool, next: nat, ghost emitted': seq<Particle>)
      modifies this`player, this`combo, this`score, this`particles
      requires i < |pending| && player.Hitbox() == p0.Hitbox()
      requires Gathers(total, pending, i, survivors, emitted, player, Touching(p0), combo, score, rng, k)
      requires particles == particles0 + emitted
      ensures player.Hitbox() == p0.Hitbox()
      ensures Gathers(total, pending, i + 1, if keep then survivors + [pending[i]] else survivors, emitted',
                      player, Touching(p0), combo, score, rng, next)
      ensures particles == particles0 + emitted'
    {
      var s := pending[i];
      if CheckCollision(player.Hitbox(), s.Hitbox()) {
        GatherHit(total, pending, i, survivors, emitted, player, Touching(p0), combo, score, rng, k);
        ConcatAssoc(particles0, emitted, Burst(s.x, s.y, Yellow, SPARK_COUNT, SPARK_SPREAD, rng, k));
        emitted' := emitted + Burst(s.x, s.y, Yellow, SPARK_COUNT, SPARK_SPREAD, rng, k);
        next := CollectStar(s, rng, k);
        keep := false;
      } else {
        GatherMiss(total, pending, i, survivors, emitted, player, Touching(p0), combo, score, rng, k);
        emitted' := emitted;
        next := k;
        keep := true;
      }
    }

    /** The callback of the star `filter` for a star the player touches: the combo grows,
        the score gains the capped multiple, sparks fly and one draw may grant a power-up. */
    method CollectStar(s: Star, rng: nat -> real, k: nat) returns (next: nat)
      modifies this`player, this`combo, this`score, this`particles
      ensures combo == old(combo) + 1 && score == old(score) + STAR_POINTS * Min(combo, COMBO_CAP)
      ensures particles == old(particles) + Burst(s.x, s.y, Yellow, SPARK_COUNT, SPARK_SPREAD, rng, k)
      ensures player == GrantPowerUp(old(player), rng(k + DRAWS_PER_PARTICLE * SPARK_COUNT))
      ensures next == k + DRAWS_PER_PARTICLE * SPARK_COUNT + 1
    {
      combo := combo + 1;
      score := score + STAR_POINTS * Min(combo, COMBO_CAP);
      next := SpawnParticles(s.x, s.y, Yellow, SPARK_COUNT, SPARK_SPREAD, rng, k);
      var rand := rng(next);
      next := next + 1;
      if rand < 0.1 {
        player := player.(shield := SHIELD_FRAMES);
      } else if rand < 0.15 {
        player := player.(speedBoost := BOOST_FRAMES);
      } else if rand < 0.2 {
        player := player.(shrink := SHRINK_FRAMES);
      }
    }

    /** The star `filter` of `update`: a touching star is dropped and scores, the others
        are kept in order; the list is replaced once the filter has run. */
    method CollectStars(rng: nat -> real, k0: nat) returns (k: nat)
      modifies this`player, this`stars, this`combo, this`score, this`particles
      ensures var got := StarSweep(old(stars), old(player), Touching(old(player)), old(combo), old(score), rng, k0);
        stars == got.kept && player == got.player && combo == got.combo && score == got.score &&
        particles == old(particles) + got.sparks && k == got.next
    {
      ghost var p0 := player;
      ghost var total := StarSweep(stars, player, Touching(player), combo, score, rng, k0);
      ghost var emitted: seq<Particle> := [];
      var pending := stars;
      var survivors: seq<Star> := [];
      var i := 0;
      k := k0;
      while i < |pending|
        invariant 0 <= i <= |pending| && stars == old(stars)
        invariant player.Hitbox() == p0.Hitbox()
        invariant particles == old(particles) + emitted
        invariant Gathers(total, pending, i, survivors, emitted, player, Touching(p0), combo, score, rng, k)
      {
        var keep;
        keep, k, emitted := VisitStar(pending, i, rng, k, total, survivors, emitted, p0, old(particles));
        if keep {
          survivors := survivors + [pending[i]];
        }
        i := i + 1;
      }
      assert pending[i..] == [];
      stars := survivors;
    }

    /** The particle `filter` of `update`: each particle moves and loses a frame of life
        in the callback, and only those with life left are kept. */
    method FadeParticles()
      modifies this`particles
      ensures particles == AgeParticles(old(particles))
    {
      var ps := particles;
      ghost var aged := seq(|ps|, j requires 0 <= j < |ps| => AgeParticle(ps[j]));
      var survivors: seq<Particle> := [];
      var i := 0;
      while i < |ps|
        invariant 0 <= i <= |ps|
        invariant survivors == Filter(aged[..i], ParticleAlive)
      {
        var q := ps[i];
        q := q.(x := q.x + q.vx, y := q.y + q.vy, life := q.life - 1);
        assert aged[..i + 1] == aged[..i] + [q];
        FilterSnoc(aged[..i], ParticleAlive, q);
        if q.life > 0 {
          survivors := survivors + [q];
        }
        i := i + 1;
      }
      assert aged[..i] == aged;
      particles := survivors;
    }

    /** `update`: one frame, without drawing and without scheduling the next one. */
    method Update(keys: Keys, rng: nat -> real)
      modifies this
      ensures Snapshot() == Step(old(Snapshot()), canvas, keys, rng)
    {
      if !gameRunning {
        return;
      }
      ghost var w := Snapshot();
      AdvancePhase(keys);
      var k := CollisionPhase(rng);
      FinishPhase(rng, k);
      StepInPhases(w, canvas, keys, rng);
    }

    /** The movement, trail, power-up and drift statements of `update`. */
    method AdvancePhase(keys: Keys)
      modifies this`player, this`obstacles, this`stars
      ensures Snapshot() == Advance(old(Snapshot()), canvas, keys)
    {
      MovePlayer(keys);
      UpdateTrail();
      UpdatePowerUps();
      MoveObjects();
    }

    /** The collision statements of `update`: the obstacle `forEach`, then the star `filter`.
        Returns the next unused draw. */
    method CollisionPhase(rng: nat -> real) returns (k: nat)
      modifies this`player, this`obstacles, this`stars, this`particles, this`score, this`combo,
               this`gameRunning, this`highScore
      ensures Snapshot() == AfterCollisions(old(Snapshot()), rng)
      ensures k == StarsGot(old(Snapshot()), rng).next
    {
      k := CollideObstacles(rng, 0);
      k := CollectStars(rng, k);
    }

    /** The closing statements of `update`, the spawn rolls drawing from `k` on. */
    method FinishPhase(rng: nat -> real, k: nat)
      modifies this`obstacles, this`stars, this`particles, this`combo, this`gameSpeed
      ensures Snapshot() == Finish(old(Snapshot()), canvas, rng, k)
    {
      Spawn(rng, k);
      gameSpeed := gameSpeed + SPEED_STEP;
      combo := if combo > 0 && |stars| == 0 then 0 else combo;
      FadeParticles();
      obstacles := PruneObstacles(obstacles);
      stars := PruneStars(stars);
    }

    /** The two spawn rolls of `update`: an obstacle with odds OBSTACLE_ODDS, then a star
        with odds STAR_ODDS, each roll one draw before the spawner's own. */
    method Spawn(rng: nat -> real, k0: nat)
      modifies this`obstacles, this`stars
      ensures var sp := SpawnPhase(old(obstacles), old(stars), gameSpeed, canvas, rng, k0);
        obstacles == sp.obstacles && stars == sp.stars
    {
      ghost var sp := SpawnPhase(obstacles, stars, gameSpeed, canvas, rng, k0);
      var k := k0;
      var roll := rng(k);
      k := k + 1;
      if roll < OBSTACLE_ODDS {
        SpawnObstacle(rng, k);
        k := k + 3;
      }
      assert obstacles == sp.obstacles && stars == old(stars);
      roll := rng(k);
      k := k + 1;
      if roll < STAR_ODDS {
        SpawnStar(rng, k);
      }
    }

    /** The space-bar branch of the keydown handler: a jump, only while running. */
    method Jump()
      modifies this`player
      ensures player == if gameRunning then old(player).(vy := old(player).vy - JUMP_IMPULSE) else old(player)
    {
      if gameRunning {
        player := player.(vy := player.vy - JUMP_IMPULSE);
      }
    }

    /** The touchstart handler: a jump, whether or not the game is running. */
    method TouchStart()
      modifies this`player
      ensures player == old(player).(vy := old(player).vy - JUMP_IMPULSE)
    {
      player := player.(vy := player.vy - JUMP_IMPULSE);
    }

    /** The touchmove handler: place the player at the touch point, canvas-relative, unclamped. */
    method TouchMove(x: real, y: real)
      modifies this`player
      ensures player == old(player).(x := x, y := y)
    {
      player := player.(x := x, y := y);
    }
  }
}
