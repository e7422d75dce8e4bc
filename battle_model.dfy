/**
 * The battle choreography engine (Services/BattleSystemService.cs) as a pure
 * state machine over an `Engine` snapshot. Doubles are `real`; the frame
 * counter of the boss jump, a double that only ever holds whole numbers, is
 * an `int`. The periodic movement timer runs exactly while the engine runs,
 * so a movement tick is a step guarded by `running`; the battle timer is a
 * flag. Deferred callbacks (`DelayedAction`) wait in `pending` and glide
 * animations (`AnimatePosition`) in `glides`, and the host picks which one
 * fires next. Random draws are parameters. Every raised event is appended to
 * `log`.
 */
module Battle {

  datatype BattleState = Idle | Approaching | Fighting | Retreating | Cooldown

  /** The events the engine raises, with their arguments. */
  datatype BattleEvent =
    | HeroPositionChanged(x: real)
    | BossPositionChanged(x: real, y: real)
    | HeroAnimationChanged(animation: string)
    | BossAnimationChanged(animation: string)
    | HeroFlipChanged(flipped: bool)
    | BossFlipChanged(flipped: bool)
    | StateChanged(state: BattleState)

  /** A callback scheduled through `DelayedAction`: the idle delay that
      starts an approach, and the 300 ms knockback and roll of a round. */
  datatype Deferred = BeginApproach | Knockback | Roll

  /** What a glide does when it completes: run back to where the hero stood
      (after a knockback or roll), settle into the idle animation (after
      running back), or end the cooldown. */
  datatype AfterGlide = RunBack(originalX: real) | SettleIdle | EndCooldown

  /** A running `AnimatePosition` of the hero: the x it started from, the x it
      ends at, its number of steps and the steps taken so far. */
  datatype Glide = Glide(start: real, target: real, steps: int, step: int, after: AfterGlide)

  datatype Engine = Engine(
    heroX: real,
    bossX: real,
    bossY: real,
    heroVelocity: real,
    bossTargetX: real,
    bossJumping: bool,
    jumpStartX: real,
    jumpTargetX: real,
    jumpProgress: int,
    round: int,
    state: BattleState,
    running: bool,
    heroAnimation: string,
    bossAnimation: string,
    battleTimer: bool,
    pending: seq<Deferred>,
    glides: seq<Glide>,
    log: seq<BattleEvent>)

  const HeroStartX: real := 0.0
  const BossStartX: real := 184.0
  const BattleDistance: real := 50.0
  const HeroRunSpeed: real := 2.0
  const MaxBattleRounds: int := 5
  const JumpHeight: real := 40.0
  const JumpFrames: int := 30
  const JumpDuration: real := JumpFrames as real
  const KnockbackDistance: real := 30.0
  const KnockbackSteps: int := 20
  const RollDistance: real := 50.0
  const RollSteps: int := 15
  const ReturnSteps: int := 20
  const CooldownSteps: int := 30

  /** The engine as constructed: stopped, idle, hero and boss at their
      starting points, both animation caches "Idle". */
  const Initial: Engine :=
    Engine(HeroStartX, BossStartX, 0.0, 0.0, BossStartX, false, 0.0, 0.0, 0, 0, Idle, false,
           "Idle", "Idle", false, [], [], [])

  function Max(a: real, b: real): real {
    if a >= b then a else b
  }

  function Min(a: real, b: real): real {
    if a <= b then a else b
  }

  function Abs(a: real): real {
    if a >= 0.0 then a else -a
  }

  /** The stage: x between the hero's and the boss's starting points. */
  predicate OnStage(x: real) {
    HeroStartX <= x <= BossStartX
  }

  /** `Math.Max(0, Math.Min(BOSS_START_X, x))`. */
  function Clamp(x: real): (r: real)
    ensures OnStage(r)
    ensures OnStage(x) ==> r == x
    ensures x < 0.0 ==> r == 0.0
    ensures x > BossStartX ==> r == BossStartX
  {
    Max(0.0, Min(BossStartX, x))
  }

  /** Linear interpolation from `a` to `b` at `p`. */
  function Lerp(a: real, b: real, p: real): real {
    a + (b - a) * p
  }

  /** The height of the boss jump at progress `p`: the parabola
      -4h(p - 1/2)^2 + h. */
  function JumpY(p: real): real {
    -4.0 * JumpHeight * ((p - 0.5) * (p - 0.5)) + JumpHeight
  }

  /** Removes the element at `i`. */
  function RemoveAt<T>(s: seq<T>, i: int): (r: seq<T>)
    requires 0 <= i < |s|
    ensures |r| == |s| - 1
    ensures forall j :: 0 <= j < i ==> r[j] == s[j]
    ensures forall j :: i <= j < |r| ==> r[j] == s[j + 1]
  {
    s[..i] + s[i + 1..]
  }

  // ---------------------------------------------------------------------
  // Events

  function Emit(e: Engine, ev: BattleEvent): Engine {
    e.(log := e.log + [ev])
  }

  /** `RaiseHeroAnimationChanged`: raised only when the animation differs
      from the cached one, which it then replaces. */
  function RaiseHeroAnimation(e: Engine, animation: string): Engine {
    e.(heroAnimation := animation,
       log := e.log + if e.heroAnimation != animation then [HeroAnimationChanged(animation)] else [])
  }

  /** `RaiseBossAnimationChanged`, with the boss's cache. */
  function RaiseBossAnimation(e: Engine, animation: string): Engine {
    e.(bossAnimation := animation,
       log := e.log + if e.bossAnimation != animation then [BossAnimationChanged(animation)] else [])
  }

  /** `ChangeState`: StateChanged only on an actual change. */
  function ChangeState(e: Engine, s: BattleState): Engine {
    e.(state := s, log := e.log + if e.state != s then [StateChanged(s)] else [])
  }

  // ---------------------------------------------------------------------
  // Public operations

  /** `Start`: a no-op while running; otherwise running, idle, hero and boss
      back at their starting points, the hero still, and the idle delay
      scheduled. */
  function Start(e: Engine): Engine {
    if e.running then e
    else e.(running := true, state := Idle, heroX := HeroStartX, bossX := BossStartX,
            heroVelocity := 0.0, pending := e.pending + [BeginApproach])
  }

  /** `Stop`: a no-op while stopped; otherwise not running, the battle timer
      stopped, idle and the hero still. Glides and deferred callbacks stay. */
  function Stop(e: Engine): Engine {
    if !e.running then e
    else e.(running := false, battleTimer := false, state := Idle, heroVelocity := 0.0)
  }

  /** `Reset`: both back at their starting points on the ground, the jump
      dropped, idle without a StateChanged, then the six announcements. */
  function Reset(e: Engine): Engine {
    var e1 := e.(heroX := HeroStartX, bossX := BossStartX, bossY := 0.0, heroVelocity := 0.0,
                 bossJumping := false, state := Idle);
    var e2 := Emit(e1, HeroPositionChanged(e1.heroX));
    var e3 := Emit(e2, BossPositionChanged(e2.bossX, e2.bossY));
    var e4 := RaiseHeroAnimation(e3, "Idle");
    var e5 := RaiseBossAnimation(e4, "Idle");
    var e6 := Emit(e5, HeroFlipChanged(false));
    Emit(e6, BossFlipChanged(true))
  }

  // ---------------------------------------------------------------------
  // Movement

  /** `OnMovementTick`: nothing while stopped; otherwise the hero moves by
      its velocity within the stage, the boss jump advances one frame, and
      the approaching or retreating phase is updated. `draw` and `target`
      are the random draws the approaching phase may take. */
  function MovementTick(e: Engine, draw: real, target: int): Engine {
    if !e.running then e else UpdatePhase(AdvanceJump(MoveHero(e)), draw, target)
  }

  /** The hero moves by its velocity, clamped to the stage, and is
      announced only when moving. */
  function MoveHero(e: Engine): Engine {
    var e1 := e.(heroX := Clamp(e.heroX + e.heroVelocity));
    if e.heroVelocity != 0.0 then Emit(e1, HeroPositionChanged(e1.heroX)) else e1
  }

  /** A jumping boss advances one frame. */
  function AdvanceJump(e: Engine): Engine {
    if e.bossJumping then UpdateBossJump(e) else e
  }

  /** The per-state update of the movement tick. */
  function UpdatePhase(e: Engine, draw: real, target: int): Engine {
    match e.state
    case Approaching => UpdateApproaching(e, draw, target)
    case Retreating => UpdateRetreating(e)
    case _ => e
  }

  /** The jump's progress after `k` frames. */
  function JumpFraction(k: int): real {
    k as real / JumpDuration
  }

  /** `UpdateBossJump`: one more frame; at full progress the boss lands
      exactly on the target, on the ground, with the counter reset and the
      idle animation; before that it follows the line and the parabola. */
  function UpdateBossJump(e: Engine): Engine {
    var k := e.jumpProgress + 1;
    var p := JumpFraction(k);
    if p >= 1.0 then
      var e1 := e.(bossJumping := false, bossX := e.jumpTargetX, bossY := 0.0, jumpProgress := 0);
      RaiseBossAnimation(Emit(e1, BossPositionChanged(e1.bossX, e1.bossY)), "Idle")
    else
      var e1 := e.(jumpProgress := k, bossX := Lerp(e.jumpStartX, e.jumpTargetX, p), bossY := JumpY(p));
      Emit(e1, BossPositionChanged(e1.bossX, e1.bossY))
  }

  /** `StartBossJump`: from where the boss stands to the clamped target,
      facing the way it jumps. */
  function StartBossJump(e: Engine, targetX: real): Engine {
    var e1 := e.(bossJumping := true, jumpStartX := e.bossX, jumpTargetX := Clamp(targetX), jumpProgress := 0);
    var e2 := Emit(e1, BossFlipChanged(e1.jumpTargetX < e1.bossX));
    RaiseBossAnimation(e2, "JumpStart")
  }

  /** `StartApproachingPhase`, with the boss's random target. */
  function StartApproaching(e: Engine, target: int): Engine {
    var e1 := ChangeState(e, Approaching);
    StartBossJump(e1.(bossTargetX := target as real), target as real)
  }

  /** `UpdateApproachingPhase`: a landed boss jumps again when `draw` is
      below 0.2; then the hero runs toward a boss farther than the battle
      distance, or stops and the fight starts. */
  function UpdateApproaching(e: Engine, draw: real, target: int): Engine {
    Pursue(ApproachJump(e, draw, target))
  }

  /** The landed boss's jump draw, taken before the hero moves: below 0.2
      it starts a new jump to the drawn target. It moves the boss only on
      later frames and leaves the hero's pose alone. */
  function ApproachJump(e: Engine, draw: real, target: int): (r: Engine)
    ensures r.heroX == e.heroX && r.bossX == e.bossX && r.heroVelocity == e.heroVelocity
    ensures r.state == e.state && r.heroAnimation == e.heroAnimation
    ensures |r.log| >= |e.log| && r.log[..|e.log|] == e.log && NoHeroPose(r.log[|e.log|..])
    ensures !e.bossJumping && draw < 0.2 ==> r.bossJumping && r.jumpTargetX == Clamp(target as real) && r.jumpProgress == 0
    ensures !(!e.bossJumping && draw < 0.2) ==> r == e
  {
    if !e.bossJumping && draw < 0.2 then
      var r := StartBossJump(e.(bossTargetX := target as real), target as real);
      assert r.log[|e.log|..] == [BossFlipChanged(r.jumpTargetX < e.bossX)]
                                 + if e.bossAnimation != "JumpStart" then [BossAnimationChanged("JumpStart")] else [];
      r
    else e
  }

  /** The hero's half of `UpdateApproachingPhase`. */
  function Pursue(e1: Engine): Engine {
    if Abs(e1.bossX - e1.heroX) > BattleDistance then
      var v := if e1.bossX > e1.heroX then HeroRunSpeed else -HeroRunSpeed;
      if Abs(e1.heroVelocity - v) > 0.01 then
        var e2 := RaiseHeroAnimation(e1.(heroVelocity := v), "Run");
        Emit(e2, HeroFlipChanged(e2.heroVelocity < 0.0))
      else e1.(heroVelocity := v)
    else StartFighting(e1.(heroVelocity := 0.0))
  }

  // ---------------------------------------------------------------------
  // Fighting

  /** `StartFightingPhase`: round 0, everyone still and on the ground, face
      to face, the battle timer started. */
  function StartFighting(e: Engine): Engine {
    var e1 := ChangeState(e, Fighting).(round := 0, heroVelocity := 0.0, bossJumping := false, bossY := 0.0);
    var e2 := Emit(e1, HeroFlipChanged(e1.bossX < e1.heroX));
    var e3 := Emit(e2, BossFlipChanged(e2.heroX > e2.bossX));
    e3.(battleTimer := true)
  }

  /** `OnBattleTick`: outside a fight only the timer stops; in a fight the
      round advances, and past the last round the timer stops and the boss
      retreats, else the round is fought with the draws `d1` and `d2`. */
  function BattleTick(e: Engine, d1: real, d2: real): Engine {
    if e.state != Fighting then e.(battleTimer := false)
    else NextRound(e.(round := e.round + 1), d1, d2)
  }

  /** The round just counted: past the last one the timer stops and the
      boss retreats, else it is fought. */
  function NextRound(e: Engine, d1: real, d2: real): Engine {
    if e.round > MaxBattleRounds then StartRetreating(e.(battleTimer := false))
    else ExecuteRound(e, d1, d2)
  }

  /** `ExecuteBattleRound`: below 0.7 the hero attacks (lightly below 0.6)
      and the boss is hurt; otherwise the boss charges and the hero blocks
      (below 0.5) or rolls, with the knockback or roll deferred. */
  function ExecuteRound(e: Engine, d1: real, d2: real): Engine {
    if d1 < 0.7 then
      var e1 := RaiseHeroAnimation(e, if d2 < 0.6 then "Attack1" else "Attack2");
      RaiseBossAnimation(e1, "Hurt")
    else
      var e1 := RaiseBossAnimation(e, "JumpStart");
      if d2 < 0.5 then
        var e2 := RaiseHeroAnimation(e1, "Block");
        e2.(pending := e2.pending + [Knockback])
      else
        var e2 := RaiseHeroAnimation(e1, "Roll");
        e2.(pending := e2.pending + [Roll])
  }

  /** `AnimatePosition` of the hero: a new glide from where the hero stands. */
  function AnimatePosition(e: Engine, target: real, steps: int, after: AfterGlide): Engine {
    e.(glides := e.glides + [Glide(e.heroX, target, steps, 0, after)])
  }

  /** The shared shape of `PerformKnockback` and `PerformRoll`: glide back by
      `distance` (not past the stage's left edge), then run back. */
  function Displace(e: Engine, distance: real, steps: int): Engine {
    AnimatePosition(e, Max(0.0, e.heroX - distance), steps, RunBack(e.heroX))
  }

  function PerformKnockback(e: Engine): Engine {
    Displace(e, KnockbackDistance, KnockbackSteps)
  }

  function PerformRoll(e: Engine): Engine {
    Displace(e, RollDistance, RollSteps)
  }

  // ---------------------------------------------------------------------
  // Retreat, cooldown, idle

  /** `StartRetreatingPhase`: the boss jumps back to its starting point and
      the hero stands idle. */
  function StartRetreating(e: Engine): Engine {
    var e1 := ChangeState(e, Retreating);
    var e2 := StartBossJump(e1, BossStartX);
    RaiseHeroAnimation(e2, "Idle").(heroVelocity := 0.0)
  }

  /** `UpdateRetreatingPhase`: once the boss has landed, it idles facing
      left and the cooldown starts. */
  function UpdateRetreating(e: Engine): Engine {
    if e.bossJumping then e
    else
      var e1 := RaiseBossAnimation(e, "Idle");
      StartCooldown(Emit(e1, BossFlipChanged(true)))
  }

  /** `StartCooldownPhase`: the hero runs back to its start in 30 steps. */
  function StartCooldown(e: Engine): Engine {
    var e1 := RaiseHeroAnimation(ChangeState(e, Cooldown), "Run");
    AnimatePosition(e1, HeroStartX, CooldownSteps, EndCooldown)
  }

  /** `StartIdlePhase`: idle, with the next approach deferred. */
  function StartIdle(e: Engine): Engine {
    var e1 := ChangeState(e, Idle);
    e1.(pending := e1.pending + [BeginApproach])
  }

  // ---------------------------------------------------------------------
  // Glides and deferred callbacks

  /** The hero's x after `k` of `n` steps of glide `g`. */
  function GlideX(g: Glide, k: int): real
    requires g.steps > 0
  {
    Lerp(g.start, g.target, k as real / g.steps as real)
  }

  /** One tick of glide `i`'s timer: the next interpolated x; at the last
      step the timer stops, the target is set exactly and the completion
      runs. The glide's steps are positive, as every caller passes. */
  function GlideTick(e: Engine, i: int): Engine
    requires 0 <= i < |e.glides| && e.glides[i].steps > 0
  {
    if e.glides[i].step + 1 >= e.glides[i].steps then FinishGlide(e, i) else AdvanceGlide(e, i)
  }

  /** A tick before the last step: the hero moves to the next interpolated
      x and the glide counts the step. */
  function AdvanceGlide(e: Engine, i: int): Engine
    requires 0 <= i < |e.glides| && e.glides[i].steps > 0
  {
    var g := e.glides[i];
    var x := GlideX(g, g.step + 1);
    Emit(e.(heroX := x, glides := e.glides[i := g.(step := g.step + 1)]), HeroPositionChanged(x))
  }

  /** The last tick: the hero is set to the interpolated x and then to the
      target (both announced), the timer stops, and the completion runs. */
  function FinishGlide(e: Engine, i: int): Engine
    requires 0 <= i < |e.glides| && e.glides[i].steps > 0
  {
    var g := e.glides[i];
    var e1 := e.(glides := RemoveAt(e.glides, i), heroX := g.target,
                 log := e.log + [HeroPositionChanged(GlideX(g, g.step + 1)), HeroPositionChanged(g.target)]);
    Complete(e1, g.after)
  }

  /** The completion callback of a glide. */
  function Complete(e: Engine, after: AfterGlide): Engine {
    match after
    case RunBack(x) => AnimatePosition(RaiseHeroAnimation(e, "Run"), x, ReturnSteps, SettleIdle)
    case SettleIdle => RaiseHeroAnimation(e, "Idle")
    case EndCooldown => StartIdle(Emit(RaiseHeroAnimation(e, "Idle"), HeroFlipChanged(false)))
  }

  /** Callback `i` fires: it leaves the queue, and acts only if the state it
      re-checks still holds. `target` is the boss's random target should an
      approach start. */
  function FireDeferred(e: Engine, i: int, target: int): Engine
    requires 0 <= i < |e.pending|
  {
    RunDeferred(e.(pending := RemoveAt(e.pending, i)), e.pending[i], target)
  }

  /** The body of a deferred callback, which re-checks the state first. */
  function RunDeferred(e: Engine, d: Deferred, target: int): Engine {
    match d
    case BeginApproach => if e.running && e.state == Idle then StartApproaching(e, target) else e
    case Knockback => if e.state == Fighting then PerformKnockback(e) else e
    case Roll => if e.state == Fighting then PerformRoll(e) else e
  }

  // ---------------------------------------------------------------------
  // Arithmetic of the animations

  /** `k` of `n` steps, as a fraction of the whole. */
  lemma Fraction(k: int, n: int)
    requires n > 0 && 0 <= k <= n
    ensures 0.0 <= k as real / n as real <= 1.0
    ensures k as real / n as real == 1.0 <==> k == n
    ensures k as real / n as real >= 1.0 <==> k >= n
  {
    var q, m := k as real / n as real, n as real;
    assert q * m == k as real;
    ScaleCompare(q, m);
  }

  /** How a factor compares with 0 and 1 decides how its product with a
      positive number compares with 0 and that number. */
  lemma ScaleCompare(q: real, m: real)
    requires m > 0.0
    ensures q > 1.0 ==> q * m > m
    ensures q < 1.0 ==> q * m < m
    ensures q < 0.0 ==> q * m < 0.0
  {
    if q > 1.0 {
      MulSign(q - 1.0, m);
      assert (q - 1.0) * m == q * m - m;
    }
    if q < 1.0 {
      MulSign(1.0 - q, m);
      assert (1.0 - q) * m == m - q * m;
    }
    if q < 0.0 {
      MulSign(-q, m);
      assert (-q) * m == -(q * m);
    }
  }

  lemma MulSign(a: real, b: real)
    requires a >= 0.0 && b >= 0.0
    ensures a * b >= 0.0
    ensures a > 0.0 && b > 0.0 ==> a * b > 0.0
  {
  }

  /** Interpolating at a fraction in [0, 1] stays between the endpoints, and
      is exactly them at 0 and at 1. */
  lemma LerpBetween(a: real, b: real, p: real)
    requires 0.0 <= p <= 1.0
    ensures Min(a, b) <= Lerp(a, b, p) <= Max(a, b)
    ensures p == 0.0 ==> Lerp(a, b, p) == a
    ensures p == 1.0 ==> Lerp(a, b, p) == b
  {
    if a <= b {
      MulSign(b - a, p);
      MulSign(b - a, 1.0 - p);
    } else {
      MulSign(a - b, p);
      MulSign(a - b, 1.0 - p);
    }
  }

  /** Between two points on the stage is on the stage. */
  lemma LerpOnStage(a: real, b: real, p: real)
    requires OnStage(a) && OnStage(b) && 0.0 <= p <= 1.0
    ensures OnStage(Lerp(a, b, p))
  {
    LerpBetween(a, b, p);
  }

  /** The jump arc is on the ground at its ends and at the jump height
      halfway. */
  lemma JumpArcEnds()
    ensures JumpY(0.0) == 0.0 && JumpY(1.0) == 0.0
    ensures JumpY(0.5) == JumpHeight
  {
  }

  /** Over a whole jump the boss stays between the ground and the jump
      height. */
  lemma JumpArcBounds(p: real)
    requires 0.0 <= p <= 1.0
    ensures 0.0 <= JumpY(p) <= JumpHeight
  {
    var q := p - 0.5;
    MulSign(0.5 - q, 0.5 + q);
    assert (0.5 - q) * (0.5 + q) == 0.25 - q * q;
  }

  // ---------------------------------------------------------------------
  // The boss jump

  /** `n` frames of the boss jump. */
  function Frames(e: Engine, n: nat): Engine {
    if n == 0 then e else UpdateBossJump(Frames(e, n - 1))
  }

  /** A jump follows the line and the parabola frame by frame, touches
      nothing but the boss's position, frame counter, animation and the log,
      and after exactly 30 frames has landed: on the target, on the ground,
      counter reset, idle animation. */
  lemma {:induction false} JumpTrajectory(e: Engine, n: nat)
    requires e.bossJumping && e.jumpProgress == 0 && n <= JumpFrames
    ensures var f := Frames(e, n);
            && f.jumpStartX == e.jumpStartX && f.jumpTargetX == e.jumpTargetX
            && f.heroX == e.heroX && f.state == e.state && f.glides == e.glides && f.pending == e.pending
    ensures n < JumpFrames ==>
              var f := Frames(e, n);
              && f.bossJumping && f.jumpProgress == n
              && (n > 0 ==> f.bossX == Lerp(e.jumpStartX, e.jumpTargetX, JumpFraction(n))
                            && f.bossY == JumpY(JumpFraction(n)))
    ensures n == JumpFrames ==>
              var f := Frames(e, n);
              && !f.bossJumping && f.bossX == e.jumpTargetX && f.bossY == 0.0
              && f.jumpProgress == 0 && f.bossAnimation == "Idle"
  {
    if n > 0 {
      JumpTrajectory(e, n - 1);
      Fraction(n, JumpFrames);
    }
  }

  /** The landing frame is the end of the arc: the line reaches the target
      and the parabola the ground exactly at full progress. */
  lemma LandingEndsArc(start: real, target: real)
    ensures Lerp(start, target, JumpFraction(JumpFrames)) == target
    ensures JumpY(JumpFraction(JumpFrames)) == 0.0
  {
  }

  // ---------------------------------------------------------------------
  // Event discipline

  /** An animation event is raised exactly when the requested animation
      differs from the cached one; afterwards the cache holds it, and nothing
      else changes. Asking again for the same animation raises nothing. */
  lemma AnimationDedup(e: Engine, a: string)
    ensures var r := RaiseHeroAnimation(e, a);
            && r.heroAnimation == a
            && r.log == e.log + (if e.heroAnimation != a then [HeroAnimationChanged(a)] else [])
            && r == e.(heroAnimation := a, log := r.log)
            && RaiseHeroAnimation(r, a) == r
    ensures var r := RaiseBossAnimation(e, a);
            && r.bossAnimation == a
            && r.log == e.log + (if e.bossAnimation != a then [BossAnimationChanged(a)] else [])
            && r == e.(bossAnimation := a, log := r.log)
            && RaiseBossAnimation(r, a) == r
  {
  }

  /** StateChanged is raised exactly on an actual change of state. */
  lemma StateChangeDedup(e: Engine, s: BattleState)
    ensures ChangeState(e, s).state == s
    ensures ChangeState(e, s).log == e.log + (if e.state != s then [StateChanged(s)] else [])
    ensures ChangeState(e, s) == e.(state := s, log := ChangeState(e, s).log)
  {
  }

  /** No StateChanged among `events`. */
  predicate NoStateChange(events: seq<BattleEvent>) {
    forall k :: 0 <= k < |events| ==> !events[k].StateChanged?
  }

  /** `Reset` puts both on their starting points and the engine in Idle
      without a StateChanged; it announces both positions, the idle
      animations only where the caches differ, and both facings. Running,
      timers, glides and callbacks are untouched. */
  lemma ResetEffect(e: Engine)
    ensures var r := Reset(e);
            && r.state == Idle && r.heroX == HeroStartX && r.bossX == BossStartX && r.bossY == 0.0
            && r.heroVelocity == 0.0 && !r.bossJumping
            && r.heroAnimation == "Idle" && r.bossAnimation == "Idle"
            && r.running == e.running && r.battleTimer == e.battleTimer && r.round == e.round
            && r.pending == e.pending && r.glides == e.glides
            && r.log == e.log + [HeroPositionChanged(HeroStartX), BossPositionChanged(BossStartX, 0.0)]
                       + (if e.heroAnimation != "Idle" then [HeroAnimationChanged("Idle")] else [])
                       + (if e.bossAnimation != "Idle" then [BossAnimationChanged("Idle")] else [])
                       + [HeroFlipChanged(false), BossFlipChanged(true)]
    ensures |e.log| <= |Reset(e).log| && NoStateChange(Reset(e).log[|e.log|..])
  {
    var added := Reset(e).log[|e.log|..];
    assert forall k :: 0 <= k < |added| ==> added[k] == Reset(e).log[|e.log| + k];
  }

  // ---------------------------------------------------------------------
  // Start and Stop

  /** `Start` is a no-op while running; otherwise the engine runs, idles
      with both at their starting points and the hero still, one idle delay
      is scheduled, and no event is raised. */
  lemma StartEffect(e: Engine)
    ensures e.running ==> Start(e) == e
    ensures !e.running ==>
              var r := Start(e);
              && r.running && r.state == Idle && r.heroX == HeroStartX && r.bossX == BossStartX
              && r.heroVelocity == 0.0 && r.pending == e.pending + [BeginApproach]
              && r.log == e.log && r.glides == e.glides && r.battleTimer == e.battleTimer
  {
  }

  /** `Stop` is a no-op while stopped; otherwise it stops the engine and the
      battle timer, forces Idle without a StateChanged and stills the hero.
      Glides and deferred callbacks are not cancelled. */
  lemma StopEffect(e: Engine)
    ensures !e.running ==> Stop(e) == e
    ensures e.running ==>
              var r := Stop(e);
              && !r.running && !r.battleTimer && r.state == Idle && r.heroVelocity == 0.0
              && r.log == e.log && r.glides == e.glides && r.pending == e.pending
              && r.heroX == e.heroX && r.bossX == e.bossX
  {
  }

  /** Movement ticks do nothing while stopped. */
  lemma StoppedTickIsNoOp(e: Engine, draw: real, target: int)
    requires !e.running
    ensures MovementTick(e, draw, target) == e
  {
  }

  /** Stop does not silence the engine: a glide in flight survives it, and
      its next tick still moves the hero and raises an event. */
  lemma GlidesOutliveStop(e: Engine, i: int)
    requires 0 <= i < |e.glides| && e.glides[i].steps > 0
    ensures Stop(e).glides == e.glides
    ensures |GlideTick(Stop(e), i).log| > |Stop(e).log|
  {
  }

  /** The idle delay starts an approach only if the engine still runs and
      idles; otherwise it only leaves the queue. */
  lemma ApproachCallbackGuard(e: Engine, i: int, target: int)
    requires 0 <= i < |e.pending| && e.pending[i] == BeginApproach
    ensures e.running && e.state == Idle ==>
              FireDeferred(e, i, target) == StartApproaching(e.(pending := RemoveAt(e.pending, i)), target)
    ensures !(e.running && e.state == Idle) ==>
              FireDeferred(e, i, target) == e.(pending := RemoveAt(e.pending, i))
  {
  }

  // ---------------------------------------------------------------------
  // Approaching

  /** No hero animation or facing among `events`. */
  predicate NoHeroPose(events: seq<BattleEvent>) {
    forall k :: 0 <= k < |events| ==> !events[k].HeroAnimationChanged? && !events[k].HeroFlipChanged?
  }

  /** An approach starts with StateChanged (if not approaching already) and
      a jump from where the boss stands to the drawn target, which lies in
      [50, 179] and so needs no clamping. */
  lemma ApproachStart(e: Engine, target: int)
    requires 50 <= target < 180
    ensures var r := StartApproaching(e, target);
            && r.state == Approaching && r.bossJumping && r.jumpProgress == 0
            && r.jumpStartX == e.bossX && r.jumpTargetX == target as real && r.bossTargetX == target as real
            && r.heroX == e.heroX && r.bossX == e.bossX && r.bossAnimation == "JumpStart"
            && |r.log| >= |e.log| && r.log[..|e.log|] == e.log
            && (|r.log| > |e.log| && r.log[|e.log|] == StateChanged(Approaching) <==> e.state != Approaching)
  {
  }

  /** The hero chases a boss farther than the battle distance at the run
      speed, toward it; the run animation and the facing are raised only when
      the velocity changes by more than 0.01, and then the facing is the
      direction of the run. */
  lemma ApproachChase(e: Engine, draw: real, target: int)
    requires Abs(e.bossX - e.heroX) > BattleDistance
    ensures var r := UpdateApproaching(e, draw, target);
            var v := if e.bossX > e.heroX then HeroRunSpeed else -HeroRunSpeed;
            && r.state == e.state && r.heroVelocity == v && r.heroX == e.heroX && r.bossX == e.bossX
            && (Abs(e.heroVelocity - v) > 0.01 ==>
                  r.heroAnimation == "Run" && |r.log| > 0 && r.log[|r.log| - 1] == HeroFlipChanged(v < 0.0))
            && (Abs(e.heroVelocity - v) <= 0.01 ==>
                  r.heroAnimation == e.heroAnimation && |r.log| >= |e.log| && NoHeroPose(r.log[|e.log|..]))
            && (!e.bossJumping && draw < 0.2 ==>
                  r.bossJumping && r.jumpTargetX == Clamp(target as real) && r.jumpProgress == 0)
  {
    var e1 := ApproachJump(e, draw, target);
    PursueChase(e1);
    assert UpdateApproaching(e, draw, target) == Pursue(e1);
  }

  /** The hero's half of a chase, on the engine after the boss's draw. */
  lemma PursueChase(e1: Engine)
    requires Abs(e1.bossX - e1.heroX) > BattleDistance
    ensures var r := Pursue(e1);
            var v := if e1.bossX > e1.heroX then HeroRunSpeed else -HeroRunSpeed;
            && r.state == e1.state && r.heroVelocity == v && r.heroX == e1.heroX && r.bossX == e1.bossX
            && r.bossJumping == e1.bossJumping && r.jumpTargetX == e1.jumpTargetX && r.jumpProgress == e1.jumpProgress
            && (Abs(e1.heroVelocity - v) > 0.01 ==>
                  r.heroAnimation == "Run" && |r.log| > 0 && r.log[|r.log| - 1] == HeroFlipChanged(v < 0.0))
            && (Abs(e1.heroVelocity - v) <= 0.01 ==> r == e1.(heroVelocity := v))
  {
  }

  /** Within the battle distance the hero stops and the fight starts: round
      0, the jump cancelled, the boss on the ground, the battle timer
      started. */
  lemma ApproachEngage(e: Engine, draw: real, target: int)
    requires Abs(e.bossX - e.heroX) <= BattleDistance
    ensures var r := UpdateApproaching(e, draw, target);
            && r.state == Fighting && r.round == 0 && r.heroVelocity == 0.0
            && !r.bossJumping && r.bossY == 0.0 && r.battleTimer
            && r.heroX == e.heroX && r.bossX == e.bossX
  {
    assert UpdateApproaching(e, draw, target) == Pursue(ApproachJump(e, draw, target));
  }

  // ---------------------------------------------------------------------
  // Fighting

  /** A battle tick outside a fight only stops the timer. In a fight it
      advances the round; past the fifth the timer stops and the boss
      retreats to its starting point, else the round is fought, with the
      positions, the state and the timer as they were. */
  lemma BattleTickEffect(e: Engine, d1: real, d2: real)
    ensures e.state != Fighting ==> BattleTick(e, d1, d2) == e.(battleTimer := false)
    ensures e.state == Fighting && e.round >= MaxBattleRounds ==>
              var r := BattleTick(e, d1, d2);
              && r.state == Retreating && !r.battleTimer && r.round == e.round + 1
              && r.bossJumping && r.jumpTargetX == BossStartX && r.heroVelocity == 0.0
    ensures e.state == Fighting && e.round < MaxBattleRounds ==>
              var r := BattleTick(e, d1, d2);
              && r.state == Fighting && r.round == e.round + 1 && r.round <= MaxBattleRounds
              && r.battleTimer == e.battleTimer && r.heroX == e.heroX && r.bossX == e.bossX
  {
  }

  /** Battle ticks with the given draws, in order. */
  function BattleTicks(e: Engine, draws: seq<(real, real)>): Engine {
    if draws == [] then e
    else
      var last := draws[|draws| - 1];
      BattleTick(BattleTicks(e, draws[..|draws| - 1]), last.0, last.1)
  }

  /** A fight lasts five rounds: from round `r0`, each tick fights one more
      round while the round stays at most five, and the tick after the fifth
      round ends the fight and stops the timer. */
  lemma {:induction false} FightRounds(e: Engine, draws: seq<(real, real)>)
    requires e.state == Fighting && e.battleTimer && 0 <= e.round <= MaxBattleRounds
    requires e.round + |draws| <= MaxBattleRounds + 1
    ensures e.round + |draws| <= MaxBattleRounds ==>
              var r := BattleTicks(e, draws);
              r.state == Fighting && r.battleTimer && r.round == e.round + |draws|
    ensures e.round + |draws| == MaxBattleRounds + 1 ==>
              var r := BattleTicks(e, draws);
              r.state == Retreating && !r.battleTimer
  {
    if draws != [] {
      var init := draws[..|draws| - 1];
      FightRounds(e, init);
      var last := draws[|draws| - 1];
      BattleTickEffect(BattleTicks(e, init), last.0, last.1);
    }
  }

  /** A round: below 0.7 the hero attacks (Attack1 below 0.6, else Attack2)
      and the boss is hurt, nothing deferred; otherwise the boss charges and
      the hero blocks (below 0.5) with a knockback deferred, or rolls with a
      roll deferred. Nothing moves and the state stays. */
  lemma CombatRound(e: Engine, d1: real, d2: real)
    ensures var r := ExecuteRound(e, d1, d2);
            && r.state == e.state && r.round == e.round && r.heroX == e.heroX && r.bossX == e.bossX
            && r.glides == e.glides && r.battleTimer == e.battleTimer
    ensures d1 < 0.7 ==>
              var r := ExecuteRound(e, d1, d2);
              && r.heroAnimation == (if d2 < 0.6 then "Attack1" else "Attack2")
              && r.bossAnimation == "Hurt" && r.pending == e.pending
    ensures d1 >= 0.7 ==>
              var r := ExecuteRound(e, d1, d2);
              && r.bossAnimation == "JumpStart"
              && r.heroAnimation == (if d2 < 0.5 then "Block" else "Roll")
              && r.pending == e.pending + [if d2 < 0.5 then Knockback else Roll]
  {
  }

  /** A deferred knockback or roll acts only if the fight is still on: then
      the hero glides back 30 (in 20 steps) or 50 (in 15 steps), not past
      the left edge, and will run back to where it stood. Otherwise it only
      leaves the queue. */
  lemma DeferredRecheck(e: Engine, i: int, target: int)
    requires 0 <= i < |e.pending| && e.pending[i] != BeginApproach
    ensures e.state != Fighting ==> FireDeferred(e, i, target) == e.(pending := RemoveAt(e.pending, i))
    ensures e.state == Fighting ==>
              var r := FireDeferred(e, i, target);
              var distance := if e.pending[i] == Knockback then KnockbackDistance else RollDistance;
              var steps := if e.pending[i] == Knockback then KnockbackSteps else RollSteps;
              && r.glides == e.glides + [Glide(e.heroX, Max(0.0, e.heroX - distance), steps, 0, RunBack(e.heroX))]
              && r.pending == RemoveAt(e.pending, i) && r.log == e.log && r.heroX == e.heroX
  {
  }

  // ---------------------------------------------------------------------
  // Retreat and cooldown

  /** The retreat jumps the boss back to its starting point with the hero
      idle and still; once the boss has landed, the cooldown starts with the
      hero gliding to its start in 30 steps; the cooldown's end re-enters
      Idle and schedules the next approach. */
  lemma RetreatCooldownIdle(e: Engine)
    ensures var r := StartRetreating(e);
            && r.state == Retreating && r.bossJumping && r.jumpTargetX == BossStartX && r.jumpStartX == e.bossX
            && r.heroVelocity == 0.0 && r.heroAnimation == "Idle"
    ensures e.bossJumping ==> UpdateRetreating(e) == e
    ensures !e.bossJumping ==>
              var r := UpdateRetreating(e);
              && r.state == Cooldown && r.bossAnimation == "Idle" && r.heroAnimation == "Run"
              && r.glides == e.glides + [Glide(e.heroX, HeroStartX, CooldownSteps, 0, EndCooldown)]
    ensures var r := Complete(e, EndCooldown);
            && r.state == Idle && r.heroAnimation == "Idle" && r.pending == e.pending + [BeginApproach]
            && r.glides == e.glides && r.heroX == e.heroX
  {
  }

  // ---------------------------------------------------------------------
  // Glides

  /** The last step of a glide lands exactly on its target. */
  lemma GlideEnds(g: Glide)
    requires g.steps > 0
    ensures GlideX(g, g.steps) == g.target
    ensures GlideX(g, 0) == g.start
  {
    Fraction(g.steps, g.steps);
  }

  /** What the completion of a glide adds to the glide list: the run back,
      and nothing else. */
  function Follow(g: Glide): seq<Glide> {
    if g.after.RunBack? then [Glide(g.target, g.after.originalX, ReturnSteps, 0, SettleIdle)] else []
  }

  /** One tick of a glide: before its last step it sets the next
      interpolated x and advances only its own step; at its last step it
      sets the target (twice, as the source does), leaves the list, and its
      completion runs, which moves no one. */
  lemma GlideStep(e: Engine, i: int)
    requires 0 <= i < |e.glides| && e.glides[i].steps > 0 && 0 <= e.glides[i].step
    ensures var g := e.glides[i];
            var r := GlideTick(e, i);
            g.step + 1 < g.steps ==>
              && r.heroX == GlideX(g, g.step + 1)
              && r.glides == e.glides[i := g.(step := g.step + 1)]
              && r.log == e.log + [HeroPositionChanged(r.heroX)]
              && r.state == e.state && r.pending == e.pending
    ensures var g := e.glides[i];
            var r := GlideTick(e, i);
            g.step + 1 >= g.steps ==>
              && r.heroX == g.target
              && r.glides == RemoveAt(e.glides, i) + Follow(g)
              && |r.log| >= |e.log| + 2
              && r.log[|e.log|] == HeroPositionChanged(GlideX(g, g.step + 1))
              && r.log[|e.log| + 1] == HeroPositionChanged(g.target)
  {
  }

  /** `n` ticks of glide `i`, while it is there. */
  function GlideTicks(e: Engine, i: int, n: nat): Engine {
    if n == 0 then e
    else
      var f := GlideTicks(e, i, n - 1);
      if 0 <= i < |f.glides| && f.glides[i].steps > 0 then GlideTick(f, i) else f
  }

  /** A glide of n steps sets start + (target - start) * k / n at step k,
      keeps its place and leaves the others alone; at step n the hero is
      exactly on the target, the glide is gone and its completion has run
      once, adding at most the run back. */
  lemma {:induction false} GlideTrajectory(e: Engine, i: int, n: nat)
    requires 0 <= i < |e.glides| && e.glides[i].steps > 0 && 0 <= e.glides[i].step
    requires e.glides[i].step + n <= e.glides[i].steps
    ensures var g := e.glides[i];
            var f := GlideTicks(e, i, n);
            g.step + n < g.steps ==>
              && f.glides == e.glides[i := g.(step := g.step + n)]
              && (n > 0 ==> f.heroX == GlideX(g, g.step + n))
    ensures var g := e.glides[i];
            var f := GlideTicks(e, i, n);
            g.step + n == g.steps && n > 0 ==>
              f.heroX == g.target && f.glides == RemoveAt(e.glides, i) + Follow(g)
  {
    if n > 0 {
      var g := e.glides[i];
      GlideTrajectory(e, i, n - 1);
      var f := GlideTicks(e, i, n - 1);
      assert f.glides[i] == g.(step := g.step + n - 1);
      GlideStep(f, i);
      assert RemoveAt(f.glides, i) == RemoveAt(e.glides, i);
    }
  }

  // ---------------------------------------------------------------------
  // The invariant

  /** A glide in flight: positive steps with some still to take, and its
      ends (and the place a run back returns to) on the stage. */
  predicate GlideOk(g: Glide) {
    && 0 <= g.step < g.steps
    && OnStage(g.start) && OnStage(g.target)
    && (g.after.RunBack? ==> OnStage(g.after.originalX))
  }

  predicate GlidesOk(gs: seq<Glide>) {
    forall j :: 0 <= j < |gs| ==> GlideOk(gs[j])
  }

  /** What every engine reachable from `Initial` satisfies: hero, boss and
      both jump ends on the stage; the jump counter within one jump; the boss
      between the ground and the jump height, on the ground unless jumping;
      the hero still or running at the run speed; a fight has its timer
      running and at most five rounds fought; every glide well formed. */
  predicate Inv(e: Engine) {
    && OnStage(e.heroX) && OnStage(e.bossX) && OnStage(e.jumpStartX) && OnStage(e.jumpTargetX)
    && 0 <= e.jumpProgress < JumpFrames
    && 0.0 <= e.bossY <= JumpHeight
    && (!e.bossJumping ==> e.bossY == 0.0)
    && (e.heroVelocity == 0.0 || e.heroVelocity == HeroRunSpeed || e.heroVelocity == -HeroRunSpeed)
    && 0 <= e.round
    && (e.state == Fighting ==> e.battleTimer && e.round <= MaxBattleRounds)
    && GlidesOk(e.glides)
  }

  lemma InitialInv()
    ensures Inv(Initial)
  {
  }

  lemma StartInv(e: Engine)
    ensures Inv(e) ==> Inv(Start(e))
  {
  }

  lemma StopInv(e: Engine)
    ensures Inv(e) ==> Inv(Stop(e))
  {
  }

  lemma ResetInv(e: Engine)
    ensures Inv(e) ==> Inv(Reset(e))
  {
  }

  /** A new glide from where the hero stands to a point on the stage. */
  lemma AnimateInv(e: Engine, target: real, steps: int, after: AfterGlide)
    requires Inv(e) && OnStage(target) && steps > 0 && (after.RunBack? ==> OnStage(after.originalX))
    ensures Inv(AnimatePosition(e, target, steps, after))
  {
    var r := AnimatePosition(e, target, steps, after);
    assert forall j :: 0 <= j < |e.glides| ==> r.glides[j] == e.glides[j];
  }

  lemma StartBossJumpInv(e: Engine, targetX: real)
    requires Inv(e)
    ensures Inv(StartBossJump(e, targetX))
  {
  }

  /** One frame of a jump keeps the boss on the stage and within the arc. */
  lemma UpdateBossJumpInv(e: Engine)
    requires Inv(e) && e.bossJumping
    ensures Inv(UpdateBossJump(e))
  {
    var k := e.jumpProgress + 1;
    Fraction(k, JumpFrames);
    if k < JumpFrames {
      LerpOnStage(e.jumpStartX, e.jumpTargetX, JumpFraction(k));
      JumpArcBounds(JumpFraction(k));
    }
  }

  lemma StartFightingInv(e: Engine)
    requires Inv(e)
    ensures Inv(StartFighting(e))
  {
  }

  lemma ApproachJumpInv(e: Engine, draw: real, target: int)
    requires Inv(e)
    ensures Inv(ApproachJump(e, draw, target))
  {
    if !e.bossJumping && draw < 0.2 {
      StartBossJumpInv(e.(bossTargetX := target as real), target as real);
    }
  }

  lemma PursueInv(e: Engine)
    requires Inv(e)
    ensures Inv(Pursue(e))
  {
    if Abs(e.bossX - e.heroX) <= BattleDistance {
      StartFightingInv(e.(heroVelocity := 0.0));
    } else {
      var v := if e.bossX > e.heroX then HeroRunSpeed else -HeroRunSpeed;
      assert Inv(e.(heroVelocity := v));
    }
  }

  lemma UpdateApproachingInv(e: Engine, draw: real, target: int)
    requires Inv(e)
    ensures Inv(UpdateApproaching(e, draw, target))
  {
    ApproachJumpInv(e, draw, target);
    PursueInv(ApproachJump(e, draw, target));
  }

  lemma UpdateRetreatingInv(e: Engine)
    requires Inv(e)
    ensures Inv(UpdateRetreating(e))
  {
    if !e.bossJumping {
      var e1 := Emit(RaiseBossAnimation(e, "Idle"), BossFlipChanged(true));
      var e2 := RaiseHeroAnimation(ChangeState(e1, Cooldown), "Run");
      AnimateInv(e2, HeroStartX, CooldownSteps, EndCooldown);
    }
  }

  lemma MoveHeroInv(e: Engine)
    requires Inv(e)
    ensures Inv(MoveHero(e))
  {
  }

  lemma AdvanceJumpInv(e: Engine)
    requires Inv(e)
    ensures Inv(AdvanceJump(e))
  {
    if e.bossJumping {
      UpdateBossJumpInv(e);
    }
  }

  lemma UpdatePhaseInv(e: Engine, draw: real, target: int)
    requires Inv(e)
    ensures Inv(UpdatePhase(e, draw, target))
  {
    if e.state == Approaching {
      UpdateApproachingInv(e, draw, target);
    } else if e.state == Retreating {
      UpdateRetreatingInv(e);
    }
  }

  /** A movement tick keeps the invariant. */
  lemma MovementTickInv(e: Engine, draw: real, target: int)
    ensures Inv(e) ==> Inv(MovementTick(e, draw, target))
  {
    if Inv(e) {
      MoveHeroInv(e);
      AdvanceJumpInv(MoveHero(e));
      UpdatePhaseInv(AdvanceJump(MoveHero(e)), draw, target);
    }
  }

  lemma ExecuteRoundInv(e: Engine, d1: real, d2: real)
    requires Inv(e)
    ensures Inv(ExecuteRound(e, d1, d2))
  {
    CombatRound(e, d1, d2);
  }

  /** The end of a fight: the timer stopped and the retreat started. */
  lemma FightEndInv(e: Engine)
    requires Inv(e)
    ensures Inv(StartRetreating(e.(round := e.round + 1, battleTimer := false)))
  {
    var e1 := ChangeState(e.(round := e.round + 1, battleTimer := false), Retreating);
    StartBossJumpInv(e1, BossStartX);
  }

  lemma NextRoundInv(e: Engine, d1: real, d2: real)
    requires Inv(e.(round := e.round - 1)) && e.state == Fighting
    ensures Inv(NextRound(e, d1, d2))
  {
    if e.round > MaxBattleRounds {
      FightEndInv(e.(round := e.round - 1));
      assert e.(round := e.round - 1).(round := e.round, battleTimer := false) == e.(battleTimer := false);
    } else {
      ExecuteRoundInv(e, d1, d2);
    }
  }

  /** A battle tick keeps the invariant; in particular a fight never has
      more than five rounds fought. */
  lemma BattleTickInv(e: Engine, d1: real, d2: real)
    ensures Inv(e) ==> Inv(BattleTick(e, d1, d2))
  {
    if Inv(e) && e.state == Fighting {
      NextRoundInv(e.(round := e.round + 1), d1, d2);
      assert e.(round := e.round + 1).(round := e.round) == e;
    }
  }

  /** A glide tick before the last step moves the hero between the glide's
      ends. */
  lemma GlideMidInv(e: Engine, i: int)
    requires Inv(e) && 0 <= i < |e.glides| && e.glides[i].step + 1 < e.glides[i].steps
    ensures Inv(GlideTick(e, i))
  {
    var g := e.glides[i];
    var k := g.step + 1;
    Fraction(k, g.steps);
    LerpOnStage(g.start, g.target, k as real / g.steps as real);
    assert GlidesOk(e.glides[i := g.(step := k)]);
  }

  /** A completion keeps the invariant: a run back starts from where the
      hero stands toward a point on the stage. */
  lemma CompleteInv(e: Engine, after: AfterGlide)
    requires Inv(e) && (after.RunBack? ==> OnStage(after.originalX))
    ensures Inv(Complete(e, after))
  {
    if after.RunBack? {
      AnimateInv(RaiseHeroAnimation(e, "Run"), after.originalX, ReturnSteps, SettleIdle);
    }
  }

  /** The last glide tick puts the hero on the target, and a run back
      starts from there. */
  lemma GlideLastInv(e: Engine, i: int)
    requires Inv(e) && 0 <= i < |e.glides| && e.glides[i].step + 1 >= e.glides[i].steps
    ensures Inv(GlideTick(e, i))
  {
    var g := e.glides[i];
    var rest := RemoveAt(e.glides, i);
    assert GlidesOk(rest);
    var e1 := e.(glides := rest, heroX := g.target,
                 log := e.log + [HeroPositionChanged(GlideX(g, g.step + 1)), HeroPositionChanged(g.target)]);
    CompleteInv(e1, g.after);
    assert GlideTick(e, i) == Complete(e1, g.after);
  }

  /** A glide tick keeps the invariant. */
  lemma GlideTickInv(e: Engine, i: int)
    requires 0 <= i < |e.glides|
    ensures Inv(e) ==> e.glides[i].steps > 0 && Inv(GlideTick(e, i))
  {
    if Inv(e) {
      if e.glides[i].step + 1 < e.glides[i].steps {
        GlideMidInv(e, i);
      } else {
        GlideLastInv(e, i);
      }
    }
  }

  /** A deferred callback keeps the invariant: a knockback or roll glides
      to a point on the stage and back. */
  lemma RunDeferredInv(e: Engine, d: Deferred, target: int)
    requires Inv(e)
    ensures Inv(RunDeferred(e, d, target))
  {
    match d {
      case BeginApproach =>
        if e.running && e.state == Idle {
          StartBossJumpInv(ChangeState(e, Approaching).(bossTargetX := target as real), target as real);
        }
      case Knockback =>
        if e.state == Fighting {
          AnimateInv(e, Max(0.0, e.heroX - KnockbackDistance), KnockbackSteps, RunBack(e.heroX));
        }
      case Roll =>
        if e.state == Fighting {
          AnimateInv(e, Max(0.0, e.heroX - RollDistance), RollSteps, RunBack(e.heroX));
        }
    }
  }

  lemma FireDeferredInv(e: Engine, i: int, target: int)
    requires 0 <= i < |e.pending|
    ensures Inv(e) ==> Inv(FireDeferred(e, i, target))
  {
    if Inv(e) {
      RunDeferredInv(e.(pending := RemoveAt(e.pending, i)), e.pending[i], target);
    }
  }
}
