/** Collision resolution for one frame: the obstacle pass (shield or game over), the
    star pass (combo, score, power-up draw) and the particle bursts both emit.

    Randomness is one stream `rng: nat -> real` per frame; `k` is the index of the next
    unused value, so every `Math.random()` call of the source reads `rng(k)` and moves on. */
module Collisions {
  import opened Entities
  import opened PlayerControl

  const PARTICLE_LIFE: int := 30
  const DRAWS_PER_PARTICLE: nat := 3
  const SPARK_COUNT: nat := 15
  const CRASH_COUNT: nat := 30
  const SPARK_SPREAD: real := 5.0
  const CRASH_SPREAD: real := 10.0
  const STAR_POINTS: int := 5
  const COMBO_CAP: nat := 10

  /** `checkCollision(player, _)` for a fixed player, as a test on the other body. The
      passes below take the test as a parameter `touches`, so that what they do with a hit
      is proved apart from the arithmetic of the test itself. */
  function Touching(p: Player): Body -> bool
  {
    (b: Body) => CheckCollision(p.Hitbox(), b)
  }

  // ---------------------------------------------------------------- particles

  /** One particle of `spawnParticles`, built from the three draws at k, k+1, k+2. */
  function Spark(x: real, y: real, color: Color, spread: real, rng: nat -> real, k: nat): Particle
  {
    Particle(x, y, (rng(k) - 0.5) * spread, (rng(k + 1) - 0.5) * spread,
             rng(k + 2) * 6.0 + 2.0, PARTICLE_LIFE, color)
  }

  /** The `count` particles `spawnParticles` pushes, in loop order; particle i reads the
      three draws from k + 3i on. */
  function Burst(x: real, y: real, color: Color, count: nat, spread: real, rng: nat -> real, k: nat): seq<Particle>
  {
    seq(count, i requires 0 <= i < count => Spark(x, y, color, spread, rng, k + DRAWS_PER_PARTICLE * i))
  }

  // ---------------------------------------------------------------- obstacles

  /** What the obstacle pass leaves: the obstacles still in the list, the particles it
      emitted, how many unshielded hits (`endGame` calls) it made, and the next draw. */
  datatype ObstaclePass = ObstaclePass(kept: seq<Obstacle>, sparks: seq<Particle>, crashes: nat, next: nat)

  /** `obstacles.forEach((o, i) => ...)` with its `splice`. A shielded hit removes the
      obstacle at the current index, so the obstacle behind it slides into that index and
      the next visit skips it: it stays in the list unexamined for this frame. An unshielded
      hit removes nothing and counts one crash. */
  function ObstacleSweep(os: seq<Obstacle>, p: Player, touches: Body -> bool, rng: nat -> real, k: nat): ObstaclePass
    decreases |os|
  {
    if os == [] then ObstaclePass([], [], 0, k)
    else if !touches(os[0].Hitbox()) then
      var r := ObstacleSweep(os[1..], p, touches, rng, k);
      r.(kept := [os[0]] + r.kept)
    else if p.shield > 0 then
      var sparks := Burst(os[0].x, os[0].y, Gray, SPARK_COUNT, SPARK_SPREAD, rng, k);
      var k' := k + DRAWS_PER_PARTICLE * SPARK_COUNT;
      if |os| == 1 then ObstaclePass([], sparks, 0, k')
      else
        var r := ObstacleSweep(os[2..], p, touches, rng, k');
        ObstaclePass([os[1]] + r.kept, sparks + r.sparks, r.crashes, r.next)
    else
      var sparks := Burst(p.x, p.y, Red, CRASH_COUNT, CRASH_SPREAD, rng, k);
      var r := ObstacleSweep(os[1..], p, touches, rng, k + DRAWS_PER_PARTICLE * CRASH_COUNT);
      ObstaclePass([os[0]] + r.kept, sparks + r.sparks, r.crashes + 1, r.next)
  }

  /** With a shield nothing crashes and the list never grows. */
  lemma {:induction false} ShieldNeverCrashes(os: seq<Obstacle>, p: Player, touches: Body -> bool, rng: nat -> real, k: nat)
    requires p.shield > 0
    ensures ObstacleSweep(os, p, touches, rng, k).crashes == 0
    ensures |ObstacleSweep(os, p, touches, rng, k).kept| <= |os|
    decreases |os|
  {
    if os != [] {
      if !touches(os[0].Hitbox()) {
        ShieldNeverCrashes(os[1..], p, touches, rng, k);
      } else if |os| > 1 {
        ShieldNeverCrashes(os[2..], p, touches, rng, k + DRAWS_PER_PARTICLE * SPARK_COUNT);
      }
    }
  }

  /** The obstacle pass only removes: no obstacle is kept more often than it was given. */
  lemma {:induction false} SweepOnlyRemoves(os: seq<Obstacle>, p: Player, touches: Body -> bool, rng: nat -> real, k: nat, o: Obstacle)
    ensures multiset(ObstacleSweep(os, p, touches, rng, k).kept)[o] <= multiset(os)[o]
    decreases |os|
  {
    if os == [] {
    } else if !touches(os[0].Hitbox()) {
      SweepOnlyRemoves(os[1..], p, touches, rng, k, o);
      CountPastHead(os, ObstacleSweep(os[1..], p, touches, rng, k).kept, o);
    } else if p.shield == 0 {
      var k' := k + DRAWS_PER_PARTICLE * CRASH_COUNT;
      SweepOnlyRemoves(os[1..], p, touches, rng, k', o);
      CountPastHead(os, ObstacleSweep(os[1..], p, touches, rng, k').kept, o);
    } else if |os| > 1 {
      var k' := k + DRAWS_PER_PARTICLE * SPARK_COUNT;
      SweepOnlyRemoves(os[2..], p, touches, rng, k', o);
      CountPastHead(os[1..], ObstacleSweep(os[2..], p, touches, rng, k').kept, o);
      assert os[1..][1..] == os[2..];
      CountPastDropped(os, o);
    }
  }

  /** Keeping the head of `s` in front of at most the tail's copies keeps at most `s`'s copies. */
  lemma CountPastHead<T>(s: seq<T>, kept: seq<T>, o: T)
    requires s != [] && multiset(kept)[o] <= multiset(s[1..])[o]
    ensures multiset([s[0]] + kept)[o] <= multiset(s)[o]
  {
    assert s == [s[0]] + s[1..];
    assert multiset([s[0]] + kept) == multiset{s[0]} + multiset(kept);
    assert multiset(s) == multiset{s[0]} + multiset(s[1..]);
  }

  /** Dropping the head never adds a copy. */
  lemma CountPastDropped<T>(s: seq<T>, o: T)
    requires s != []
    ensures multiset(s[1..])[o] <= multiset(s)[o]
  {
    assert s == [s[0]] + s[1..];
    assert multiset(s) == multiset{s[0]} + multiset(s[1..]);
  }

  /** With a shield an obstacle that does not touch the player survives, every copy of it. */
  lemma {:induction false} ShieldKeepsMisses(os: seq<Obstacle>, p: Player, touches: Body -> bool, rng: nat -> real, k: nat, o: Obstacle)
    requires p.shield > 0 && !touches(o.Hitbox())
    ensures multiset(ObstacleSweep(os, p, touches, rng, k).kept)[o] == multiset(os)[o]
    decreases |os|
  {
    if os == [] {
    } else if !touches(os[0].Hitbox()) {
      ShieldKeepsMisses(os[1..], p, touches, rng, k, o);
      KeepsPastMiss(os, p, touches, rng, k, o);
    } else if |os| == 1 {
      assert o != os[0];
    } else {
      ShieldKeepsMisses(os[2..], p, touches, rng, k + DRAWS_PER_PARTICLE * SPARK_COUNT, o);
      KeepsPastSplice(os, p, touches, rng, k, o);
    }
  }

  /** The step of ShieldKeepsMisses past an obstacle that misses. */
  lemma KeepsPastMiss(os: seq<Obstacle>, p: Player, touches: Body -> bool, rng: nat -> real, k: nat, o: Obstacle)
    requires os != [] && !touches(os[0].Hitbox())
    requires multiset(ObstacleSweep(os[1..], p, touches, rng, k).kept)[o] == multiset(os[1..])[o]
    ensures multiset(ObstacleSweep(os, p, touches, rng, k).kept)[o] == multiset(os)[o]
  {
    var r := ObstacleSweep(os[1..], p, touches, rng, k);
    assert ObstacleSweep(os, p, touches, rng, k).kept == [os[0]] + r.kept;
    assert os == [os[0]] + os[1..];
    assert multiset([os[0]] + r.kept) == multiset{os[0]} + multiset(r.kept);
    assert multiset(os) == multiset{os[0]} + multiset(os[1..]);
  }

  /** The step of ShieldKeepsMisses past a shielded hit, which splices it out and skips the next. */
  lemma KeepsPastSplice(os: seq<Obstacle>, p: Player, touches: Body -> bool, rng: nat -> real, k: nat, o: Obstacle)
    requires |os| >= 2 && p.shield > 0 && touches(os[0].Hitbox()) && !touches(o.Hitbox())
    requires multiset(ObstacleSweep(os[2..], p, touches, rng, k + DRAWS_PER_PARTICLE * SPARK_COUNT).kept)[o] == multiset(os[2..])[o]
    ensures multiset(ObstacleSweep(os, p, touches, rng, k).kept)[o] == multiset(os)[o]
  {
    var r := ObstacleSweep(os[2..], p, touches, rng, k + DRAWS_PER_PARTICLE * SPARK_COUNT);
    assert ObstacleSweep(os, p, touches, rng, k).kept == [os[1]] + r.kept;
    assert os == [os[0]] + ([os[1]] + os[2..]);
    assert multiset([os[1]] + r.kept) == multiset{os[1]} + multiset(r.kept);
    assert multiset(os) == multiset{os[0]} + (multiset{os[1]} + multiset(os[2..]));
    assert o != os[0];
  }

  /** With a shield, a frame in which some obstacle touches the player removes at least one. */
  lemma {:induction false} ShieldClearsSomeHit(os: seq<Obstacle>, p: Player, touches: Body -> bool, rng: nat -> real, k: nat, i: nat)
    requires p.shield > 0
    requires i < |os| && touches(os[i].Hitbox())
    ensures |ObstacleSweep(os, p, touches, rng, k).kept| < |os|
    decreases |os|
  {
    if !touches(os[0].Hitbox()) {
      ShieldClearsSomeHit(os[1..], p, touches, rng, k, i - 1);
    } else if |os| > 1 {
      ShieldNeverCrashes(os[2..], p, touches, rng, k + DRAWS_PER_PARTICLE * SPARK_COUNT);
    }
  }

  /** With a shield, the first obstacle that touches the player is always visited, and the
      pass removes it: fewer copies of it are kept than were given. */
  lemma {:induction false} ShieldRemovesFirstHit(os: seq<Obstacle>, p: Player, touches: Body -> bool, rng: nat -> real, k: nat, i: nat)
    requires p.shield > 0
    requires i < |os| && touches(os[i].Hitbox())
    requires forall j :: 0 <= j < i ==> !touches(os[j].Hitbox())
    ensures multiset(ObstacleSweep(os, p, touches, rng, k).kept)[os[i]] < multiset(os)[os[i]]
    decreases |os|
  {
    if i > 0 {
      assert !touches(os[0].Hitbox());
      assert os[1..][i - 1] == os[i];
      forall j | 0 <= j < i - 1
        ensures !touches(os[1..][j].Hitbox())
      {
        assert os[1..][j] == os[j + 1];
      }
      ShieldRemovesFirstHit(os[1..], p, touches, rng, k, i - 1);
      RemovedPastMiss(os, p, touches, rng, k, os[i]);
    } else if |os| == 1 {
      assert os == [os[0]];
    } else {
      RemovedAtSplice(os, p, touches, rng, k);
    }
  }

  /** The step of ShieldRemovesFirstHit past an obstacle that misses. */
  lemma RemovedPastMiss(os: seq<Obstacle>, p: Player, touches: Body -> bool, rng: nat -> real, k: nat, o: Obstacle)
    requires os != [] && !touches(os[0].Hitbox())
    requires multiset(ObstacleSweep(os[1..], p, touches, rng, k).kept)[o] < multiset(os[1..])[o]
    ensures multiset(ObstacleSweep(os, p, touches, rng, k).kept)[o] < multiset(os)[o]
  {
    var r := ObstacleSweep(os[1..], p, touches, rng, k);
    assert ObstacleSweep(os, p, touches, rng, k).kept == [os[0]] + r.kept;
    CountPastHeadStrict(os, r.kept, o);
  }

  /** A shielded hit on the head of a longer list splices the head out, one copy fewer. */
  lemma RemovedAtSplice(os: seq<Obstacle>, p: Player, touches: Body -> bool, rng: nat -> real, k: nat)
    requires |os| >= 2 && p.shield > 0 && touches(os[0].Hitbox())
    ensures multiset(ObstacleSweep(os, p, touches, rng, k).kept)[os[0]] < multiset(os)[os[0]]
  {
    var o := os[0];
    var k' := k + DRAWS_PER_PARTICLE * SPARK_COUNT;
    SweepOnlyRemoves(os[2..], p, touches, rng, k', o);
    var r := ObstacleSweep(os[2..], p, touches, rng, k');
    assert ObstacleSweep(os, p, touches, rng, k).kept == [os[1]] + r.kept;
    assert os == [os[0]] + ([os[1]] + os[2..]);
    assert multiset([os[1]] + r.kept) == multiset{os[1]} + multiset(r.kept);
    assert multiset(os) == multiset{os[0]} + (multiset{os[1]} + multiset(os[2..]));
  }

  /** Keeping the head of `s` in front of fewer than the tail's copies keeps fewer than `s`'s copies. */
  lemma CountPastHeadStrict<T>(s: seq<T>, kept: seq<T>, o: T)
    requires s != [] && multiset(kept)[o] < multiset(s[1..])[o]
    ensures multiset([s[0]] + kept)[o] < multiset(s)[o]
  {
    assert s == [s[0]] + s[1..];
    assert multiset([s[0]] + kept) == multiset{s[0]} + multiset(kept);
    assert multiset(s) == multiset{s[0]} + multiset(s[1..]);
  }

  /** The `splice` quirk: of two touching obstacles in a row under a shield, only the
      first is removed in this frame. */
  lemma SpliceSkipsNext(a: Obstacle, b: Obstacle, p: Player, touches: Body -> bool, rng: nat -> real, k: nat)
    requires p.shield > 0 && touches(a.Hitbox()) && touches(b.Hitbox())
    ensures ObstacleSweep([a, b], p, touches, rng, k).kept == [b]
  {
    assert [a, b][2..] == [];
  }

  /** Without a shield: no obstacle is removed, and the pass crashes (calls `endGame`)
      exactly when some obstacle touches the player. */
  lemma {:induction false} CrashIffHit(os: seq<Obstacle>, p: Player, touches: Body -> bool, rng: nat -> real, k: nat)
    requires p.shield == 0
    ensures ObstacleSweep(os, p, touches, rng, k).kept == os
    ensures ObstacleSweep(os, p, touches, rng, k).crashes > 0 <==> exists i :: 0 <= i < |os| && touches(os[i].Hitbox())
    decreases |os|
  {
    if os != [] {
      var k' := if touches(os[0].Hitbox()) then k + DRAWS_PER_PARTICLE * CRASH_COUNT else k;
      var sw := ObstacleSweep(os, p, touches, rng, k);
      var r := ObstacleSweep(os[1..], p, touches, rng, k');
      CrashIffHit(os[1..], p, touches, rng, k');
      assert sw.kept == [os[0]] + r.kept;
      assert os == [os[0]] + os[1..];
      if touches(os[0].Hitbox()) {
        assert sw.crashes == r.crashes + 1;
      } else {
        assert sw.crashes == r.crashes;
        HitInTail(os, touches);
      }
    }
  }

  /** When the first obstacle misses, some obstacle touches exactly when one in the tail does. */
  lemma HitInTail(os: seq<Obstacle>, touches: Body -> bool)
    requires os != [] && !touches(os[0].Hitbox())
    ensures (exists i :: 0 <= i < |os| && touches(os[i].Hitbox())) <==> (exists j :: 0 <= j < |os[1..]| && touches(os[1..][j].Hitbox()))
  {
    if exists i :: 0 <= i < |os| && touches(os[i].Hitbox()) {
      var i :| 0 <= i < |os| && touches(os[i].Hitbox());
      assert touches(os[1..][i - 1].Hitbox());
    }
    if exists j :: 0 <= j < |os[1..]| && touches(os[1..][j].Hitbox()) {
      var j :| 0 <= j < |os[1..]| && touches(os[1..][j].Hitbox());
      assert touches(os[j + 1].Hitbox());
    }
  }

  /** Every particle the obstacle pass emits starts with a full life. */
  lemma {:induction false} ObstacleSparksFresh(os: seq<Obstacle>, p: Player, touches: Body -> bool, rng: nat -> real, k: nat)
    ensures forall i :: 0 <= i < |ObstacleSweep(os, p, touches, rng, k).sparks| ==> ObstacleSweep(os, p, touches, rng, k).sparks[i].life == PARTICLE_LIFE
    decreases |os|
  {
    if os != [] {
      if !touches(os[0].Hitbox()) {
        ObstacleSparksFresh(os[1..], p, touches, rng, k);
      } else if p.shield > 0 {
        if |os| > 1 {
          ObstacleSparksFresh(os[2..], p, touches, rng, k + DRAWS_PER_PARTICLE * SPARK_COUNT);
        }
      } else {
        ObstacleSparksFresh(os[1..], p, touches, rng, k + DRAWS_PER_PARTICLE * CRASH_COUNT);
      }
    }
  }

  // ---------------------------------------------------------------- stars and scoring

  /** The score `n` consecutive pickups add when the combo counter stands at `combo`:
      the i-th adds STAR_POINTS times the incremented combo, capped at COMBO_CAP. */
  function ComboGain(combo: nat, n: nat): int
    decreases n
  {
    if n == 0 then 0
    else STAR_POINTS * Min(combo + 1, COMBO_CAP) + ComboGain(combo + 1, n - 1)
  }

  function Min(a: int, b: int): int { if a < b then a else b }

  /** Each pickup is worth between one and COMBO_CAP base values, and a full multiplier
      once the combo has reached the cap; so pickups never lower the score. */
  lemma {:induction false} ComboGainBounds(combo: nat, n: nat)
    ensures STAR_POINTS * n <= ComboGain(combo, n) <= STAR_POINTS * COMBO_CAP * n
    ensures combo + 1 >= COMBO_CAP ==> ComboGain(combo, n) == STAR_POINTS * COMBO_CAP * n
    decreases n
  {
    if n > 0 {
      ComboGainBounds(combo + 1, n - 1);
    }
  }

  /** What the star pass leaves: the uncollected stars, the player with any granted
      power-ups, the combo counter and score, the particles it emitted, the next draw. */
  datatype StarPass = StarPass(kept: seq<Star>, player: Player, combo: nat, score: int, sparks: seq<Particle>, next: nat)

  /** `stars = stars.filter(...)`: a touching star is dropped, increments the combo, adds
      STAR_POINTS times the capped combo, emits a yellow burst and then uses one draw for
      a power-up; any other star is kept. */
  function StarSweep(ss: seq<Star>, p: Player, touches: Body -> bool, combo: nat, score: int, rng: nat -> real, k: nat): StarPass
    decreases |ss|
  {
    if ss == [] then StarPass([], p, combo, score, [], k)
    else if touches(ss[0].Hitbox()) then
      var c := combo + 1;
      var sparks := Burst(ss[0].x, ss[0].y, Yellow, SPARK_COUNT, SPARK_SPREAD, rng, k);
      var k' := k + DRAWS_PER_PARTICLE * SPARK_COUNT;
      var r := StarSweep(ss[1..], GrantPowerUp(p, rng(k')), touches, c, score + STAR_POINTS * Min(c, COMBO_CAP), rng, k' + 1);
      r.(sparks := sparks + r.sparks)
    else
      var r := StarSweep(ss[1..], p, touches, combo, score, rng, k);
      r.(kept := [ss[0]] + r.kept)
  }

  /** The star pass adds one to the combo per collected star and exactly ComboGain to the
      score, and never keeps more stars than it was given. */
  lemma {:induction false} StarSweepScores(ss: seq<Star>, p: Player, touches: Body -> bool, combo: nat, score: int, rng: nat -> real, k: nat)
    ensures var h := StarSweep(ss, p, touches, combo, score, rng, k);
      |h.kept| <= |ss| &&
      h.combo == combo + (|ss| - |h.kept|) &&
      h.score == score + ComboGain(combo, |ss| - |h.kept|)
    decreases |ss|
  {
    if ss != [] {
      var h := StarSweep(ss, p, touches, combo, score, rng, k);
      if touches(ss[0].Hitbox()) {
        var c := combo + 1;
        var k' := k + DRAWS_PER_PARTICLE * SPARK_COUNT;
        var score' := score + STAR_POINTS * Min(c, COMBO_CAP);
        var r := StarSweep(ss[1..], GrantPowerUp(p, rng(k')), touches, c, score', rng, k' + 1);
        assert h.kept == r.kept && h.combo == r.combo && h.score == r.score;
        StarSweepScores(ss[1..], GrantPowerUp(p, rng(k')), touches, c, score', rng, k' + 1);
        assert ComboGain(combo, |ss| - |h.kept|) == STAR_POINTS * Min(c, COMBO_CAP) + ComboGain(c, |ss[1..]| - |r.kept|);
      } else {
        var r := StarSweep(ss[1..], p, touches, combo, score, rng, k);
        assert h.kept == [ss[0]] + r.kept && h.combo == r.combo && h.score == r.score;
        StarSweepScores(ss[1..], p, touches, combo, score, rng, k);
      }
    }
  }

  /** Across the star pass the player keeps position, size, motion and trail: only the
      power-up timers may change. */
  lemma {:induction false} StarSweepPlayer(ss: seq<Star>, p: Player, touches: Body -> bool, combo: nat, score: int, rng: nat -> real, k: nat)
    ensures var q := StarSweep(ss, p, touches, combo, score, rng, k).player;
      q == p.(shield := q.shield, speedBoost := q.speedBoost, shrink := q.shrink)
    decreases |ss|
  {
    if ss != [] {
      var h := StarSweep(ss, p, touches, combo, score, rng, k);
      if touches(ss[0].Hitbox()) {
        var c := combo + 1;
        var k' := k + DRAWS_PER_PARTICLE * SPARK_COUNT;
        var score' := score + STAR_POINTS * Min(c, COMBO_CAP);
        var p' := GrantPowerUp(p, rng(k'));
        var r := StarSweep(ss[1..], p', touches, c, score', rng, k' + 1);
        assert h.player == r.player;
        StarSweepPlayer(ss[1..], p', touches, c, score', rng, k' + 1);
      } else {
        var r := StarSweep(ss[1..], p, touches, combo, score, rng, k);
        assert h.player == r.player;
        StarSweepPlayer(ss[1..], p, touches, combo, score, rng, k);
      }
    }
  }

  /** A star that touches the player is always removed; every star that does not is kept. */
  lemma {:induction false} StarSweepRemovesHits(ss: seq<Star>, p: Player, touches: Body -> bool, combo: nat, score: int, rng: nat -> real, k: nat)
    ensures forall s :: s in StarSweep(ss, p, touches, combo, score, rng, k).kept ==> !touches(s.Hitbox())
    ensures forall s: Star :: !touches(s.Hitbox()) ==> multiset(StarSweep(ss, p, touches, combo, score, rng, k).kept)[s] == multiset(ss)[s]
    ensures forall s: Star :: touches(s.Hitbox()) ==> multiset(StarSweep(ss, p, touches, combo, score, rng, k).kept)[s] == 0
    decreases |ss|
  {
    if ss != [] {
      assert ss == [ss[0]] + ss[1..];
      if touches(ss[0].Hitbox()) {
        var k' := k + DRAWS_PER_PARTICLE * SPARK_COUNT;
        StarSweepRemovesHits(ss[1..], GrantPowerUp(p, rng(k')), touches, combo + 1, score + STAR_POINTS * Min(combo + 1, COMBO_CAP), rng, k' + 1);
      } else {
        StarSweepRemovesHits(ss[1..], p, touches, combo, score, rng, k);
      }
    }
  }

  /** Every particle the star pass emits starts with a full life. */
  lemma {:induction false} StarSparksFresh(ss: seq<Star>, p: Player, touches: Body -> bool, combo: nat, score: int, rng: nat -> real, k: nat)
    ensures forall i :: 0 <= i < |StarSweep(ss, p, touches, combo, score, rng, k).sparks| ==> StarSweep(ss, p, touches, combo, score, rng, k).sparks[i].life == PARTICLE_LIFE
    decreases |ss|
  {
    if ss != [] {
      if touches(ss[0].Hitbox()) {
        var k' := k + DRAWS_PER_PARTICLE * SPARK_COUNT;
        StarSparksFresh(ss[1..], GrantPowerUp(p, rng(k')), touches, combo + 1, score + STAR_POINTS * Min(combo + 1, COMBO_CAP), rng, k' + 1);
      } else {
        StarSparksFresh(ss[1..], p, touches, combo, score, rng, k);
      }
    }
  }
}
