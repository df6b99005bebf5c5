/** The player controller: movement with friction and clamping, the fading trail,
    the power-up countdowns and the power-up draw on a star pickup. */
module PlayerControl {
  import opened Entities
  import opened Seqs

  const THRUST: real := 1.2
  const BOOST_FACTOR: real := 1.5
  const JUMP_IMPULSE: real := 12.0
  const NORMAL_SIZE: real := 20.0
  const SHRUNK_SIZE: real := 10.0
  const TRAIL_LIFE: int := 10
  const SHIELD_FRAMES: nat := 150
  const BOOST_FRAMES: nat := 100
  const SHRINK_FRAMES: nat := 200

  /** The player record as declared and as `startGame` rebuilds it. */
  function InitialPlayer(c: Canvas): Player
  {
    Player(100.0, c.H() / 2.0, NORMAL_SIZE, 5.0, 0.0, 0.0, 0.92, 0, 0, 0, [])
  }

  /** `Math.max(0, Math.min(hi, v))`: the point of [0, hi] nearest to `v` (0 when hi < 0). */
  function Clamp(v: real, hi: real): (r: real)
    ensures 0.0 <= r
    ensures 0.0 <= hi ==> r <= hi
    ensures 0.0 <= v <= hi ==> r == v
    ensures v < 0.0 ==> r == 0.0
    ensures 0.0 <= hi < v ==> r == hi
    ensures hi < 0.0 ==> r == 0.0
  {
    var below := if hi < v then hi else v;
    if 0.0 < below then below else 0.0
  }

  /** The factor the speed boost applies to the player's displacement. */
  function SpeedMod(p: Player): real
  {
    if p.speedBoost > 0 then BOOST_FACTOR else 1.0
  }

  /** Thrust from the held keys, friction, and the displacement scaled by the speed
      boost, before clamping. */
  function Glide(p: Player, keys: Keys): (g: Player)
    ensures g == p.(x := g.x, y := g.y, vx := g.vx, vy := g.vy)
  {
    var vy0 := if keys.up then p.vy - THRUST else p.vy;
    var vy1 := if keys.down then vy0 + THRUST else vy0;
    var vx0 := if keys.left then p.vx - THRUST else p.vx;
    var vx1 := if keys.right then vx0 + THRUST else vx0;
    var vx := vx1 * p.friction;
    var vy := vy1 * p.friction;
    p.(x := p.x + vx * SpeedMod(p), y := p.y + vy * SpeedMod(p), vx := vx, vy := vy)
  }

  /** The movement step of a frame: glide, then clamp the position to the playfield. */
  function Move(p: Player, keys: Keys, c: Canvas): Player
  {
    var g := Glide(p, keys);
    g.(x := Clamp(g.x, c.W() - p.size), y := Clamp(g.y, c.H() - p.size))
  }

  /** After the movement step the player lies inside the playfield whenever it fits in it,
      a glide that stays inside is taken unchanged, and one that leaves is stopped at the
      nearest edge; velocities are the glide's and nothing but position and velocity changes. */
  lemma MoveStaysInside(p: Player, keys: Keys, c: Canvas)
    ensures var q := Move(p, keys, c); var g := Glide(p, keys);
      0.0 <= q.x && 0.0 <= q.y &&
      (p.size <= c.W() ==> q.x <= c.W() - p.size) &&
      (p.size <= c.H() ==> q.y <= c.H() - p.size) &&
      (0.0 <= g.x <= c.W() - p.size ==> q.x == g.x) &&
      (0.0 <= g.y <= c.H() - p.size ==> q.y == g.y) &&
      (g.x < 0.0 ==> q.x == 0.0) && (g.y < 0.0 ==> q.y == 0.0) &&
      (p.size <= c.W() < g.x + p.size ==> q.x == c.W() - p.size) &&
      (p.size <= c.H() < g.y + p.size ==> q.y == c.H() - p.size) &&
      q == p.(x := q.x, y := q.y, vx := g.vx, vy := g.vy)
  {
  }

  // ---------------------------------------------------------------- trail

  /** `trail.filter(t => t.life-- > 0)`: an entry survives when its life before the
      post-decrement was positive, and every survivor leaves with one frame less. */
  function Decay(t: seq<TrailPoint>): (r: seq<TrailPoint>)
    ensures |r| <= |t|
    decreases |t|
  {
    if t == [] then []
    else if t[0].life > 0 then [t[0].(life := t[0].life - 1)] + Decay(t[1..])
    else Decay(t[1..])
  }

  predicate Alive(e: TrailPoint) { e.life > 0 }

  function Aged(t: seq<TrailPoint>): seq<TrailPoint>
  {
    seq(|t|, i requires 0 <= i < |t| => t[i].(life := t[i].life - 1))
  }

  /** The trail filter keeps exactly the entries alive before the step, in order, each one frame older. */
  lemma {:induction false} DecayIsAgedFilter(t: seq<TrailPoint>)
    ensures Decay(t) == Aged(Filter(t, Alive))
    decreases |t|
  {
    if t != [] {
      DecayIsAgedFilter(t[1..]);
      if Alive(t[0]) {
        assert Filter(t, Alive) == [t[0]] + Filter(t[1..], Alive);
        assert Aged([t[0]] + Filter(t[1..], Alive)) == [t[0].(life := t[0].life - 1)] + Aged(Filter(t[1..], Alive));
      }
    }
  }

  lemma {:induction false} DecayAppend(t: seq<TrailPoint>, e: TrailPoint)
    requires e.life > 0
    ensures Decay(t + [e]) == Decay(t) + [e.(life := e.life - 1)]
    decreases |t|
  {
    if t == [] {
      assert [] + [e] == [e];
    } else {
      assert (t + [e])[1..] == t[1..] + [e];
      DecayAppend(t[1..], e);
    }
  }

  /** The trail step of a frame: push the clamped position with a full life, then decay.
      The newest entry is always the current position, one frame into its life. */
  function TrailStep(t: seq<TrailPoint>, x: real, y: real): (r: seq<TrailPoint>)
    ensures |r| >= 1 && r[|r| - 1] == TrailPoint(x, y, TRAIL_LIFE - 1)
    ensures r[..|r| - 1] == Decay(t)
  {
    DecayAppend(t, TrailPoint(x, y, TRAIL_LIFE));
    Decay(t + [TrailPoint(x, y, TRAIL_LIFE)])
  }

  /** The shape every trail reachable from an empty one has: at most TRAIL_LIFE entries,
      the newest last, lives counting up by one to TRAIL_LIFE - 1. */
  predicate TrailShaped(t: seq<TrailPoint>)
  {
    |t| <= TRAIL_LIFE &&
    forall i :: 0 <= i < |t| ==> t[i].life == TRAIL_LIFE - |t| + i
  }

  lemma {:induction false} DecayAllAlive(t: seq<TrailPoint>)
    requires forall i :: 0 <= i < |t| ==> t[i].life > 0
    ensures Decay(t) == Aged(t)
    decreases |t|
  {
    if t != [] {
      DecayAllAlive(t[1..]);
      assert Aged(t) == [t[0].(life := t[0].life - 1)] + Aged(t[1..]);
    }
  }

  /** A trail step keeps the trail shaped, so a trail that starts empty never holds more
      than TRAIL_LIFE entries. */
  lemma TrailStepShaped(t: seq<TrailPoint>, x: real, y: real)
    requires TrailShaped(t)
    ensures TrailShaped(TrailStep(t, x, y))
  {
    var r := TrailStep(t, x, y);
    if |t| == TRAIL_LIFE {
      assert t == [t[0]] + t[1..];
      assert t[1..][0..] == t[1..];
      DecayAllAlive(t[1..]);
      assert Decay(t) == Decay(t[1..]);
    } else {
      DecayAllAlive(t);
    }
  }

  // ---------------------------------------------------------------- power-up timers

  /** The per-frame countdown: each positive timer drops by one; when the shrink timer
      was running, the size becomes the shrunken one while it stays positive and the
      normal one when it reaches zero. Nothing else changes. */
  function TickPowerUps(p: Player): (q: Player)
    ensures p.shield > 0 ==> q.shield == p.shield - 1
    ensures p.shield == 0 ==> q.shield == 0
    ensures p.speedBoost > 0 ==> q.speedBoost == p.speedBoost - 1
    ensures p.speedBoost == 0 ==> q.speedBoost == 0
    ensures p.shrink > 0 ==> q.shrink == p.shrink - 1 && q.size == (if q.shrink > 0 then SHRUNK_SIZE else NORMAL_SIZE)
    ensures p.shrink == 0 ==> q.shrink == 0 && q.size == p.size
    ensures q == p.(shield := q.shield, speedBoost := q.speedBoost, shrink := q.shrink, size := q.size)
  {
    var shield := if p.shield > 0 then p.shield - 1 else 0;
    var boost := if p.speedBoost > 0 then p.speedBoost - 1 else 0;
    if p.shrink > 0 then
      var shrink := p.shrink - 1;
      p.(shield := shield, speedBoost := boost, shrink := shrink,
         size := if shrink > 0 then SHRUNK_SIZE else NORMAL_SIZE)
    else
      p.(shield := shield, speedBoost := boost)
  }

  /** `n` consecutive countdowns. */
  function Ticks(p: Player, n: nat): Player
    decreases n
  {
    if n == 0 then p else Ticks(TickPowerUps(p), n - 1)
  }

  function Remaining(t: nat, n: nat): nat
  {
    if t >= n then t - n else 0
  }

  /** Over `n` frames each timer loses exactly `n`, bottoming out at 0 and never going
      below it; once the shrink timer has run, the size reflects whether it is still positive. */
  lemma {:induction false} Countdown(p: Player, n: nat)
    ensures Ticks(p, n).shield == Remaining(p.shield, n)
    ensures Ticks(p, n).speedBoost == Remaining(p.speedBoost, n)
    ensures Ticks(p, n).shrink == Remaining(p.shrink, n)
    ensures p.shrink == 0 ==> Ticks(p, n).size == p.size
    ensures n >= 1 && p.shrink > 0 ==>
      Ticks(p, n).size == (if Ticks(p, n).shrink > 0 then SHRUNK_SIZE else NORMAL_SIZE)
    decreases n
  {
    if n > 0 {
      var q := TickPowerUps(p);
      Countdown(q, n - 1);
    }
  }

  // ---------------------------------------------------------------- power-up draw

  datatype PowerUp = Shield | SpeedBoost | Shrink

  /** The draw made on every star pickup, `r` being one `Math.random()` value.
      Only the chosen timer changes, and it is set to its full duration, not added to. */
  function GrantPowerUp(p: Player, r: real): (q: Player)
    ensures q == p.(shield := q.shield, speedBoost := q.speedBoost, shrink := q.shrink)
    ensures q.shield == p.shield || q.shield == SHIELD_FRAMES
    ensures q.speedBoost == p.speedBoost || q.speedBoost == BOOST_FRAMES
    ensures q.shrink == p.shrink || q.shrink == SHRINK_FRAMES
    ensures q.shield != p.shield ==> q.speedBoost == p.speedBoost && q.shrink == p.shrink
    ensures q.speedBoost != p.speedBoost ==> q.shield == p.shield && q.shrink == p.shrink
    ensures q.shrink != p.shrink ==> q.shield == p.shield && q.speedBoost == p.speedBoost
  {
    if r < 0.1 then p.(shield := SHIELD_FRAMES)
    else if r < 0.15 then p.(speedBoost := BOOST_FRAMES)
    else if r < 0.2 then p.(shrink := SHRINK_FRAMES)
    else p
  }

  /** The probability bands of the draw, one band per outcome. */
  lemma PowerUpBands(p: Player, r: real)
    ensures r < 0.1 ==> GrantPowerUp(p, r).shield == SHIELD_FRAMES
    ensures 0.1 <= r < 0.15 ==> GrantPowerUp(p, r) == p.(speedBoost := BOOST_FRAMES)
    ensures 0.15 <= r < 0.2 ==> GrantPowerUp(p, r) == p.(shrink := SHRINK_FRAMES)
    ensures 0.2 <= r ==> GrantPowerUp(p, r) == p
  {
  }

  /** The same draw as a weighted table: each outcome with its probability, in band order. */
  const POWER_UP_ODDS: seq<(PowerUp, real)> := [(Shield, 0.1), (SpeedBoost, 0.05), (Shrink, 0.05)]

  /** Walks the table's cumulative ranges: the first outcome whose band holds `r`, if any. */
  function Pick(table: seq<(PowerUp, real)>, r: real): Option
    decreases |table|
  {
    if table == [] then None
    else if r < table[0].1 then Some(table[0].0)
    else Pick(table[1..], r - table[0].1)
  }

  datatype Option = None | Some(value: PowerUp)

  function Apply(p: Player, u: Option): Player
  {
    match u
    case None => p
    case Some(Shield) => p.(shield := SHIELD_FRAMES)
    case Some(SpeedBoost) => p.(speedBoost := BOOST_FRAMES)
    case Some(Shrink) => p.(shrink := SHRINK_FRAMES)
  }

  /** The chain of thresholds in the source is the weighted table read by cumulative ranges. */
  lemma GrantMatchesOdds(p: Player, r: real)
    ensures GrantPowerUp(p, r) == Apply(p, Pick(POWER_UP_ODDS, r))
  {
    var t := POWER_UP_ODDS;
    assert t[1..][1..][1..] == [];
  }
}
