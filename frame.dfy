/** One frame of the simulation (`update` without drawing and re-scheduling), the
    restart (`startGame`) and game over (`endGame`), as functions of the session state. */
module Frame {
  import opened Seqs
  import opened Entities
  import opened PlayerControl
  import opened Collisions
  import opened Spawning

  const START_SPEED: real := 2.0
  const SPEED_STEP: real := 0.003
  const OBSTACLE_SPIN: real := 0.05
  const STAR_SPIN: real := 0.1

  /** The session: the module-level state of the game. */
  datatype World = World(player: Player, obstacles: seq<Obstacle>, stars: seq<Star>,
                         particles: seq<Particle>, score: int, combo: nat,
                         gameSpeed: real, running: bool, highScore: int)

  /** The state when the page has loaded: nothing running yet, the stored high score. */
  function Initial(c: Canvas, storedHighScore: int): World
  {
    World(InitialPlayer(c), [], [], [], 0, 0, START_SPEED, false, storedHighScore)
  }

  /** `startGame` before its final call to `update`: a fresh player, empty collections,
      the starting score, combo and speed, running; only the high score carries over. */
  function Restart(w: World, c: Canvas): World
  {
    World(InitialPlayer(c), [], [], [], 0, 0, START_SPEED, true, w.highScore)
  }

  /** `endGame` on the high score: raise it to the score when the score beats it. */
  function HighScoreAfter(score: int, highScore: int): (r: int)
    ensures r >= highScore && r >= score
    ensures r == score || r == highScore
  {
    if score > highScore then score else highScore
  }

  /** Calling `endGame` again with the same score changes nothing. */
  lemma EndGameIdempotent(score: int, highScore: int)
    ensures HighScoreAfter(score, HighScoreAfter(score, highScore)) == HighScoreAfter(score, highScore)
  {
  }

  // ---------------------------------------------------------------- entity motion

  function DriftObstacle(o: Obstacle): Obstacle
  {
    o.(x := o.x - o.speed, angle := o.angle + OBSTACLE_SPIN)
  }

  function DriftStar(s: Star, gameSpeed: real): Star
  {
    s.(x := s.x - gameSpeed, angle := s.angle + STAR_SPIN)
  }

  function AdvanceObstacles(os: seq<Obstacle>): seq<Obstacle>
  {
    seq(|os|, i requires 0 <= i < |os| => DriftObstacle(os[i]))
  }

  function AdvanceStars(ss: seq<Star>, gameSpeed: real): seq<Star>
  {
    seq(|ss|, i requires 0 <= i < |ss| => DriftStar(ss[i], gameSpeed))
  }

  /** The particle callback's side effects: move by its velocity, lose one frame of life. */
  function AgeParticle(q: Particle): Particle
  {
    q.(x := q.x + q.vx, y := q.y + q.vy, life := q.life - 1)
  }

  predicate ParticleAlive(q: Particle) { q.life > 0 }

  /** `particles.filter(...)`: age every particle, keep those with life left. */
  function AgeParticles(ps: seq<Particle>): seq<Particle>
  {
    Filter(seq(|ps|, i requires 0 <= i < |ps| => AgeParticle(ps[i])), ParticleAlive)
  }

  /** Particles that entered with at most PARTICLE_LIFE frames leave alive and younger. */
  lemma AgeParticlesBounds(ps: seq<Particle>)
    requires forall i :: 0 <= i < |ps| ==> ps[i].life <= PARTICLE_LIFE
    ensures forall i :: 0 <= i < |AgeParticles(ps)| ==> 0 < AgeParticles(ps)[i].life < PARTICLE_LIFE
  {
    var aged := seq(|ps|, i requires 0 <= i < |ps| => AgeParticle(ps[i]));
    FilterExactly(aged, ParticleAlive);
    forall i | 0 <= i < |AgeParticles(ps)|
      ensures 0 < AgeParticles(ps)[i].life < PARTICLE_LIFE
    {
      assert AgeParticles(ps)[i] in aged;
    }
  }

  // ---------------------------------------------------------------- pruning

  predicate ObstacleOnScreen(o: Obstacle) { o.x + o.size > 0.0 }
  predicate StarOnScreen(s: Star) { s.x + s.size > 0.0 }

  function PruneObstacles(os: seq<Obstacle>): seq<Obstacle> { Filter(os, ObstacleOnScreen) }
  function PruneStars(ss: seq<Star>): seq<Star> { Filter(ss, StarOnScreen) }

  /** Pruning keeps exactly the obstacles not wholly past the left edge, every copy of
      each, in their original relative order. */
  lemma PruneObstaclesExactly(os: seq<Obstacle>) returns (idx: seq<nat>)
    ensures forall o :: o in PruneObstacles(os) <==> o in os && o.x + o.size > 0.0
    ensures forall o :: multiset(PruneObstacles(os))[o] == if o.x + o.size > 0.0 then multiset(os)[o] else 0
    ensures Embedding(idx, PruneObstacles(os), os)
  {
    FilterExactly(os, ObstacleOnScreen);
    forall o ensures multiset(PruneObstacles(os))[o] == if o.x + o.size > 0.0 then multiset(os)[o] else 0 {
      FilterCount(os, ObstacleOnScreen, o);
    }
    idx := FilterEmbeds(os, ObstacleOnScreen);
  }

  /** The same for stars. */
  lemma PruneStarsExactly(ss: seq<Star>) returns (idx: seq<nat>)
    ensures forall s :: s in PruneStars(ss) <==> s in ss && s.x + s.size > 0.0
    ensures forall s :: multiset(PruneStars(ss))[s] == if s.x + s.size > 0.0 then multiset(ss)[s] else 0
    ensures Embedding(idx, PruneStars(ss), ss)
  {
    FilterExactly(ss, StarOnScreen);
    forall s ensures multiset(PruneStars(ss))[s] == if s.x + s.size > 0.0 then multiset(ss)[s] else 0 {
      FilterCount(ss, StarOnScreen, s);
    }
    idx := FilterEmbeds(ss, StarOnScreen);
  }

  // ---------------------------------------------------------------- one frame

  /** The player's part of a frame: movement, trail, power-up countdown. */
  function PlayerPhase(p: Player, keys: Keys, c: Canvas): Player
  {
    var moved := Move(p, keys, c);
    TickPowerUps(moved.(trail := TrailStep(moved.trail, moved.x, moved.y)))
  }

  /** The clamp runs before the shrink timer: in the frame a shrink ends, the player is
      clamped with the small size and then grows, past the edge. On a 600 by 800 playfield a
      shrunken player resting at the right edge (x = 590) ends the frame 10 past that edge. */
  lemma ShrinkEndOvershoots()
    ensures var p := PlayerPhase(Player(590.0, 400.0, SHRUNK_SIZE, 5.0, 0.0, 0.0, 0.92, 0, 0, 1, []),
                                 Keys(false, false, false, false), Canvas(600, 800));
      p.x == 590.0 && p.size == NORMAL_SIZE && p.x + p.size > 600.0
  {
  }

  /** The obstacle collision pass of a running frame, over the moved obstacles. */
  function Collide(w: World, c: Canvas, keys: Keys, rng: nat -> real): ObstaclePass
  {
    var p := PlayerPhase(w.player, keys, c);
    ObstacleSweep(AdvanceObstacles(w.obstacles), p, Touching(p), rng, 0)
  }

  /** The star collision pass of a running frame, over the moved stars, drawing after the obstacle pass. */
  function Collect(w: World, c: Canvas, keys: Keys, rng: nat -> real): StarPass
  {
    var p := PlayerPhase(w.player, keys, c);
    StarSweep(AdvanceStars(w.stars, w.gameSpeed), p, Touching(p), w.combo, w.score, rng, Collide(w, c, keys, rng).next)
  }

  /** One call of `update` while running, in the source's order: player, timers, object
      motion, obstacle collisions, star collisions, spawn rolls, speed increase, combo
      reset, particles, pruning. The draws of `rng` are used in the order the source
      calls `Math.random`. A stopped session is left as it is. */
  function Step(w: World, c: Canvas, keys: Keys, rng: nat -> real): World
  {
    if !w.running then w
    else
      var hit := Collide(w, c, keys, rng);
      var got := Collect(w, c, keys, rng);
      var spawned := Spawns(w, c, keys, rng);
      World(got.player,
            PruneObstacles(spawned.obstacles),
            PruneStars(spawned.stars),
            AgeParticles(w.particles + hit.sparks + got.sparks),
            got.score,
            if got.combo > 0 && |spawned.stars| == 0 then 0 else got.combo,
            w.gameSpeed + SPEED_STEP,
            hit.crashes == 0,
            if hit.crashes > 0 then HighScoreAfter(w.score, w.highScore) else w.highScore)
  }

  /** The spawn rolls of a running frame, over what the collision passes kept, drawing after them. */
  function Spawns(w: World, c: Canvas, keys: Keys, rng: nat -> real): Spawned
  {
    var got := Collect(w, c, keys, rng);
    SpawnPhase(Collide(w, c, keys, rng).kept, got.kept, w.gameSpeed, c, rng, got.next)
  }

  /** The number of stars the player collects in a frame. */
  function Pickups(w: World, c: Canvas, keys: Keys, rng: nat -> real): int
  {
    if !w.running then 0 else |w.stars| - |Collect(w, c, keys, rng).kept|
  }

  /** The motion phase of a running frame: the player moves, lays its trail and counts
      down its power-ups; obstacles and stars drift. */
  function Advance(w: World, c: Canvas, keys: Keys): World
  {
    w.(player := PlayerPhase(w.player, keys, c),
       obstacles := AdvanceObstacles(w.obstacles),
       stars := AdvanceStars(w.stars, w.gameSpeed))
  }

  /** The obstacle pass of the collision phase, at the start of the frame's draws. */
  function ObstaclesHit(w: World, rng: nat -> real): ObstaclePass
  {
    ObstacleSweep(w.obstacles, w.player, Touching(w.player), rng, 0)
  }

  /** The star pass of the collision phase, drawing after the obstacle pass. */
  function StarsGot(w: World, rng: nat -> real): StarPass
  {
    StarSweep(w.stars, w.player, Touching(w.player), w.combo, w.score, rng, ObstaclesHit(w, rng).next)
  }

  /** The collision phase: the obstacle pass, then the star pass; a crash stops the game
      and raises the high score to the score as it stood before the stars. */
  function AfterCollisions(w: World, rng: nat -> real): World
  {
    var hit := ObstaclesHit(w, rng);
    var got := StarsGot(w, rng);
    w.(player := got.player, obstacles := hit.kept, stars := got.kept,
       particles := w.particles + hit.sparks + got.sparks, score := got.score, combo := got.combo,
       running := w.running && hit.crashes == 0,
       highScore := if hit.crashes > 0 then HighScoreAfter(w.score, w.highScore) else w.highScore)
  }

  /** The closing phase: the spawn rolls from draw `k` on, the speed increase, the combo
      reset, the particle filter and the off-screen pruning. */
  function Finish(w: World, c: Canvas, rng: nat -> real, k: nat): World
  {
    var spawned := SpawnPhase(w.obstacles, w.stars, w.gameSpeed, c, rng, k);
    w.(obstacles := PruneObstacles(spawned.obstacles), stars := PruneStars(spawned.stars),
       particles := AgeParticles(w.particles),
       combo := if w.combo > 0 && |spawned.stars| == 0 then 0 else w.combo,
       gameSpeed := w.gameSpeed + SPEED_STEP)
  }

  /** A running frame is its three phases in order, the closing one drawing after the collisions. */
  lemma StepInPhases(w: World, c: Canvas, keys: Keys, rng: nat -> real)
    requires w.running
    ensures var moved := Advance(w, c, keys);
      Step(w, c, keys, rng) == Finish(AfterCollisions(moved, rng), c, rng, StarsGot(moved, rng).next)
  {
    var moved := Advance(w, c, keys);
    assert ObstaclesHit(moved, rng) == Collide(w, c, keys, rng);
    assert StarsGot(moved, rng) == Collect(w, c, keys, rng);
  }

  /** A stopped session does not move: game over lasts until a restart. */
  lemma StepWhenStopped(w: World, c: Canvas, keys: Keys, rng: nat -> real)
    requires !w.running
    ensures Step(w, c, keys, rng) == w
  {
  }

  /** The score of a frame grows by the combo-weighted value of its pickups, so it never
      decreases. The combo, raised by the pickups, drops to 0 exactly when it is positive and
      no star is left on the list after the spawn rolls. */
  lemma StepScoring(w: World, c: Canvas, keys: Keys, rng: nat -> real)
    requires w.running
    ensures 0 <= Pickups(w, c, keys, rng)
    ensures Step(w, c, keys, rng).score == w.score + ComboGain(w.combo, Pickups(w, c, keys, rng))
    ensures Step(w, c, keys, rng).score >= w.score + STAR_POINTS * Pickups(w, c, keys, rng)
    ensures var n := w.combo + Pickups(w, c, keys, rng);
      Step(w, c, keys, rng).combo == if n > 0 && |Spawns(w, c, keys, rng).stars| == 0 then 0 else n
  {
    var p := PlayerPhase(w.player, keys, c);
    var moved := AdvanceStars(w.stars, w.gameSpeed);
    var got := Collect(w, c, keys, rng);
    var n := Pickups(w, c, keys, rng);
    StarSweepScores(moved, p, Touching(p), w.combo, w.score, rng, Collide(w, c, keys, rng).next);
    assert n == |moved| - |got.kept|;
    assert got.score == w.score + ComboGain(w.combo, n);
    ComboGainBounds(w.combo, n);
  }

  /** The score never decreases from one frame to the next. */
  lemma StepScoreNeverDecreases(w: World, c: Canvas, keys: Keys, rng: nat -> real)
    ensures Step(w, c, keys, rng).score >= w.score
  {
    if w.running {
      StepScoring(w, c, keys, rng);
    }
  }

  /** The high score never drops, and when it changes it becomes the session's score. */
  lemma StepHighScore(w: World, c: Canvas, keys: Keys, rng: nat -> real)
    ensures Step(w, c, keys, rng).highScore >= w.highScore
    ensures Step(w, c, keys, rng).highScore == w.highScore || Step(w, c, keys, rng).highScore == w.score
  {
  }

  /** Without a shield, touching an obstacle ends the game in that frame, and the high
      score is settled with the score as it stood before that frame's pickups. */
  lemma CrashEndsRun(w: World, c: Canvas, keys: Keys, rng: nat -> real, i: nat)
    requires w.running
    requires PlayerPhase(w.player, keys, c).shield == 0
    requires i < |w.obstacles|
    requires CheckCollision(PlayerPhase(w.player, keys, c).Hitbox(), DriftObstacle(w.obstacles[i]).Hitbox())
    ensures !Step(w, c, keys, rng).running
    ensures Step(w, c, keys, rng).highScore == HighScoreAfter(w.score, w.highScore)
  {
    var p := PlayerPhase(w.player, keys, c);
    var os := AdvanceObstacles(w.obstacles);
    assert Touching(p)(os[i].Hitbox());
    CrashIffHit(os, p, Touching(p), rng, 0);
  }

  /** With a shield running after the countdown, no obstacle ends the game and the
      obstacles that do not touch the player all survive the collision pass. */
  lemma ShieldKeepsRunning(w: World, c: Canvas, keys: Keys, rng: nat -> real)
    requires w.running
    requires PlayerPhase(w.player, keys, c).shield > 0
    ensures Step(w, c, keys, rng).running
    ensures Step(w, c, keys, rng).highScore == w.highScore
  {
    var p := PlayerPhase(w.player, keys, c);
    ShieldNeverCrashes(AdvanceObstacles(w.obstacles), p, Touching(p), rng, 0);
  }

  /** Without a shield, a frame in which no obstacle touches the player keeps the game running. */
  lemma NoHitKeepsRunning(w: World, c: Canvas, keys: Keys, rng: nat -> real)
    requires w.running
    requires forall i :: 0 <= i < |w.obstacles| ==>
      !CheckCollision(PlayerPhase(w.player, keys, c).Hitbox(), DriftObstacle(w.obstacles[i]).Hitbox())
    ensures Step(w, c, keys, rng).running
  {
    var p := PlayerPhase(w.player, keys, c);
    var os := AdvanceObstacles(w.obstacles);
    if p.shield == 0 {
      CrashIffHit(os, p, Touching(p), rng, 0);
      assert forall i :: 0 <= i < |os| ==> !Touching(p)(os[i].Hitbox());
    } else {
      ShieldNeverCrashes(os, p, Touching(p), rng, 0);
    }
  }

  /** After a running frame nothing on either list is wholly past the left edge. */
  lemma StepPrunes(w: World, c: Canvas, keys: Keys, rng: nat -> real)
    requires w.running
    ensures forall o :: o in Step(w, c, keys, rng).obstacles ==> o.x + o.size > 0.0
    ensures forall s :: s in Step(w, c, keys, rng).stars ==> s.x + s.size > 0.0
  {
    var hit := Collide(w, c, keys, rng);
    var got := Collect(w, c, keys, rng);
    var spawned := SpawnPhase(hit.kept, got.kept, w.gameSpeed, c, rng, got.next);
    FilterExactly(spawned.obstacles, ObstacleOnScreen);
    FilterExactly(spawned.stars, StarOnScreen);
  }

  // ---------------------------------------------------------------- session invariant

  /** What holds of every state a session reaches: the trail has its countdown shape (so
      at most TRAIL_LIFE entries), the size is the normal or the shrunken one, the score is
      not negative and every particle has between 1 and PARTICLE_LIFE frames left. */
  predicate Good(w: World)
  {
    TrailShaped(w.player.trail) &&
    (w.player.size == SHRUNK_SIZE || w.player.size == NORMAL_SIZE) &&
    0 <= w.score &&
    forall i :: 0 <= i < |w.particles| ==> 0 < w.particles[i].life <= PARTICLE_LIFE
  }

  lemma InitialIsGood(c: Canvas, storedHighScore: int)
    ensures Good(Initial(c, storedHighScore))
  {
  }

  lemma RestartIsGood(w: World, c: Canvas)
    ensures Good(Restart(w, c))
    ensures Restart(w, c).running && Restart(w, c).highScore == w.highScore
  {
  }

  /** The player phase keeps the trail shaped and the size one of the two sizes. */
  lemma PlayerPhaseGood(p: Player, keys: Keys, c: Canvas)
    requires TrailShaped(p.trail)
    requires p.size == SHRUNK_SIZE || p.size == NORMAL_SIZE
    ensures TrailShaped(PlayerPhase(p, keys, c).trail)
    ensures PlayerPhase(p, keys, c).size == SHRUNK_SIZE || PlayerPhase(p, keys, c).size == NORMAL_SIZE
  {
    var moved := Move(p, keys, c);
    TrailStepShaped(moved.trail, moved.x, moved.y);
  }

  /** The particles of a frame (the old ones, then the obstacle sparks, then the star
      sparks) keep their lives in (0, PARTICLE_LIFE] through the particle filter. */
  lemma FrameParticlesGood(before: seq<Particle>, a: seq<Particle>, b: seq<Particle>)
    requires forall i :: 0 <= i < |before| ==> 0 < before[i].life <= PARTICLE_LIFE
    requires forall i :: 0 <= i < |a| ==> a[i].life == PARTICLE_LIFE
    requires forall i :: 0 <= i < |b| ==> b[i].life == PARTICLE_LIFE
    ensures forall i :: 0 <= i < |AgeParticles(before + a + b)| ==> 0 < AgeParticles(before + a + b)[i].life <= PARTICLE_LIFE
  {
    var all := before + a + b;
    forall i | 0 <= i < |all| ensures all[i].life <= PARTICLE_LIFE {
      if i < |before| {
      } else if i < |before| + |a| {
        assert all[i] == a[i - |before|];
      } else {
        assert all[i] == b[i - |before| - |a|];
      }
    }
    AgeParticlesBounds(all);
  }

  /** Every frame keeps the session invariant. */
  lemma StepKeepsGood(w: World, c: Canvas, keys: Keys, rng: nat -> real)
    requires Good(w)
    ensures Good(Step(w, c, keys, rng))
  {
    if w.running {
      var p := PlayerPhase(w.player, keys, c);
      PlayerPhaseGood(w.player, keys, c);
      var hit := Collide(w, c, keys, rng);
      var ss := AdvanceStars(w.stars, w.gameSpeed);
      var got := Collect(w, c, keys, rng);
      StarSweepPlayer(ss, p, Touching(p), w.combo, w.score, rng, hit.next);
      StepScoreNeverDecreases(w, c, keys, rng);
      ObstacleSparksFresh(AdvanceObstacles(w.obstacles), p, Touching(p), rng, 0);
      StarSparksFresh(ss, p, Touching(p), w.combo, w.score, rng, hit.next);
      FrameParticlesGood(w.particles, hit.sparks, got.sparks);
    }
  }

  // ---------------------------------------------------------------- many frames

  /** What a frame reads from outside: the held keys and its random draws. */
  datatype Input = Input(keys: Keys, rng: nat -> real)

  /** Consecutive frames. */
  function Run(w: World, c: Canvas, frames: seq<Input>): World
    decreases |frames|
  {
    if frames == [] then w else Run(Step(w, c, frames[0].keys, frames[0].rng), c, frames[1..])
  }

  /** Over any number of frames: the invariant holds (so the trail never exceeds
      TRAIL_LIFE entries), the score never decreases and the high score never drops. */
  lemma {:induction false} RunKeepsGood(w: World, c: Canvas, frames: seq<Input>)
    requires Good(w)
    ensures Good(Run(w, c, frames))
    ensures Run(w, c, frames).score >= w.score
    ensures Run(w, c, frames).highScore >= w.highScore
    decreases |frames|
  {
    if frames != [] {
      var next := Step(w, c, frames[0].keys, frames[0].rng);
      StepKeepsGood(w, c, frames[0].keys, frames[0].rng);
      StepScoreNeverDecreases(w, c, frames[0].keys, frames[0].rng);
      StepHighScore(w, c, frames[0].keys, frames[0].rng);
      RunKeepsGood(next, c, frames[1..]);
    }
  }

  /** From a restart on, the trail never holds more than TRAIL_LIFE entries. */
  lemma TrailStaysShort(w: World, c: Canvas, frames: seq<Input>)
    ensures |Run(Restart(w, c), c, frames).player.trail| <= TRAIL_LIFE
  {
    RestartIsGood(w, c);
    RunKeepsGood(Restart(w, c), c, frames);
  }

  /** Once the game is over, no frame changes anything. */
  lemma {:induction false} GameOverIsFinal(w: World, c: Canvas, frames: seq<Input>)
    requires !w.running
    ensures Run(w, c, frames) == w
    decreases |frames|
  {
    if frames != [] {
      GameOverIsFinal(w, c, frames[1..]);
    }
  }
}
