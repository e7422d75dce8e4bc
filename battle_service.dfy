/**
 * `BattleSystemService` (Services/BattleSystemService.cs) as a class. The
 * service's private fields are kept, grouped by the sprite they describe:
 * `hero` holds `_heroX`, `_heroVelocityX` and `_currentHeroAnimation`;
 * `boss` holds `_bossX`, `_bossY`, `_bossTargetX` and `_currentBossAnimation`;
 * `jump` holds `_bossIsJumping` and the three `_bossJump…` fields. Each
 * method changes them as the source does and is proved to move the snapshot
 * `Model()` exactly as the matching function of module `Battle` does; the
 * entry points (the public methods, the two timer ticks, a glide timer's
 * tick and a deferred callback) also keep the engine invariant `Battle.Inv`.
 */
module BattleSystem {
  import opened Battle

  datatype Hero = Hero(x: real, velocity: real, animation: string)
  datatype Boss = Boss(x: real, y: real, targetX: real, animation: string)
  datatype Jump = Jump(active: bool, startX: real, targetX: real, progress: int)

  class BattleSystemService {
    var hero: Hero
    var boss: Boss
    var jump: Jump
    var round: int
    var state: BattleState
    var running: bool
    /** Whether the one-second battle timer is started. */
    var battleTimer: bool
    /** The `DelayedAction` callbacks still waiting. */
    var pending: seq<Deferred>
    /** The `AnimatePosition` timers still ticking. */
    var glides: seq<Glide>
    /** Every event raised so far, in order. */
    var log: seq<BattleEvent>

    function Model(): Engine
      reads this
    {
      Engine(hero.x, boss.x, boss.y, hero.velocity, boss.targetX, jump.active, jump.startX, jump.targetX,
             jump.progress, round, state, running, hero.animation, boss.animation, battleTimer,
             pending, glides, log)
    }

    ghost predicate Valid()
      reads this
    {
      Inv(Model())
    }

    constructor()
      ensures Model() == Battle.Initial && Valid()
    {
      hero := Hero(HeroStartX, 0.0, "Idle");
      boss := Boss(BossStartX, 0.0, BossStartX, "Idle");
      jump := Jump(false, 0.0, 0.0, 0);
      round, state, running := 0, Idle, false;
      battleTimer, pending, glides, log := false, [], [], [];
      InitialInv();
    }

    // -------------------------------------------------------------------
    // Public operations

    method Start()
      modifies this
      ensures Model() == Battle.Start(old(Model()))
      ensures old(Valid()) ==> Valid()
    {
      StartInv(old(Model()));
      if running {
        return;
      }
      running := true;
      state := Idle;
      hero := hero.(x := HeroStartX, velocity := 0.0);
      boss := boss.(x := BossStartX);
      pending := pending + [BeginApproach];
    }

    method Stop()
      modifies this
      ensures Model() == Battle.Stop(old(Model()))
      ensures old(Valid()) ==> Valid()
    {
      StopInv(old(Model()));
      if !running {
        return;
      }
      running := false;
      battleTimer := false;
      state := Idle;
      hero := hero.(velocity := 0.0);
    }

    method Reset()
      modifies this
      ensures Model() == Battle.Reset(old(Model()))
      ensures old(Valid()) ==> Valid()
    {
      ResetInv(old(Model()));
      hero := hero.(x := HeroStartX, velocity := 0.0);
      boss := boss.(x := BossStartX, y := 0.0);
      jump := jump.(active := false);
      state := Idle;
      RaiseHeroPositionChanged(hero.x);
      RaiseBossPositionChanged(boss.x, boss.y);
      RaiseHeroAnimationChanged("Idle");
      RaiseBossAnimationChanged("Idle");
      RaiseHeroFlipChanged(false);
      RaiseBossFlipChanged(true);
    }

    // -------------------------------------------------------------------
    // Movement

    /** A tick of the movement timer; `draw` and `target` are the random
        draws the approaching phase may take. */
    method OnMovementTick(draw: real, target: int)
      modifies this
      ensures Model() == Battle.MovementTick(old(Model()), draw, target)
      ensures old(Valid()) ==> Valid()
    {
      MovementTickInv(old(Model()), draw, target);
      if !running {
        return;
      }
      hero := hero.(x := hero.x + hero.velocity);
      hero := hero.(x := Max(0.0, Min(BossStartX, hero.x)));
      if hero.velocity != 0.0 {
        RaiseHeroPositionChanged(hero.x);
      }
      assert Model() == Battle.MoveHero(old(Model()));
      ghost var e1 := Model();
      if jump.active {
        UpdateBossJump();
      }
      assert Model() == Battle.AdvanceJump(e1);
      match state {
        case Approaching => UpdateApproachingPhase(draw, target);
        case Retreating => UpdateRetreatingPhase();
        case _ =>
      }
    }

    method UpdateBossJump()
      modifies this
      ensures Model() == Battle.UpdateBossJump(old(Model()))
    {
      jump := jump.(progress := jump.progress + 1);
      var progress := jump.progress as real / JumpDuration;
      assert progress == JumpFraction(old(jump.progress) + 1);
      if progress >= 1.0 {
        jump := jump.(active := false);
        boss := boss.(x := jump.targetX, y := 0.0);
        jump := jump.(progress := 0);
        assert Model() == old(Model()).(bossJumping := false, bossX := old(jump.targetX), bossY := 0.0, jumpProgress := 0);
        RaiseBossPositionChanged(boss.x, boss.y);
        RaiseBossAnimationChanged("Idle");
        return;
      }
      boss := boss.(x := jump.startX + (jump.targetX - jump.startX) * progress);
      boss := boss.(y := -4.0 * JumpHeight * ((progress - 0.5) * (progress - 0.5)) + JumpHeight);
      assert Model() == old(Model()).(jumpProgress := old(jump.progress) + 1,
                                      bossX := Lerp(old(jump.startX), old(jump.targetX), progress), bossY := JumpY(progress));
      RaiseBossPositionChanged(boss.x, boss.y);
    }

    method StartBossJump(targetX: real)
      modifies this
      ensures Model() == Battle.StartBossJump(old(Model()), targetX)
    {
      jump := Jump(true, boss.x, Max(0.0, Min(BossStartX, targetX)), 0);
      RaiseBossFlipChanged(jump.targetX < boss.x);
      RaiseBossAnimationChanged("JumpStart");
    }

    method StartApproachingPhase(target: int)
      modifies this
      ensures Model() == Battle.StartApproaching(old(Model()), target)
    {
      ChangeState(Approaching);
      boss := boss.(targetX := target as real);
      StartBossJump(boss.targetX);
    }

    method UpdateApproachingPhase(draw: real, target: int)
      modifies this
      ensures Model() == Battle.UpdateApproaching(old(Model()), draw, target)
    {
      BossJumpDraw(draw, target);
      ChaseBoss();
    }

    /** The boss's half of `UpdateApproachingPhase`: a landed boss jumps
        again when `draw` is below 0.2. */
    method BossJumpDraw(draw: real, target: int)
      modifies this
      ensures Model() == Battle.ApproachJump(old(Model()), draw, target)
    {
      if !jump.active && draw < 0.2 {
        boss := boss.(targetX := target as real);
        StartBossJump(boss.targetX);
      }
    }

    /** The hero's half of `UpdateApproachingPhase`. */
    method ChaseBoss()
      modifies this
      ensures Model() == Battle.Pursue(old(Model()))
    {
      var distance := Abs(boss.x - hero.x);
      if distance > BattleDistance {
        var newVelocity := if boss.x > hero.x then HeroRunSpeed else -HeroRunSpeed;
        if Abs(hero.velocity - newVelocity) > 0.01 {
          hero := hero.(velocity := newVelocity);
          RaiseHeroAnimationChanged("Run");
          RaiseHeroFlipChanged(hero.velocity < 0.0);
        } else {
          hero := hero.(velocity := newVelocity);
        }
      } else {
        hero := hero.(velocity := 0.0);
        StartFightingPhase();
      }
    }

    // -------------------------------------------------------------------
    // Fighting

    method StartFightingPhase()
      modifies this
      ensures Model() == Battle.StartFighting(old(Model()))
    {
      ChangeState(Fighting);
      round := 0;
      hero := hero.(velocity := 0.0);
      jump := jump.(active := false);
      boss := boss.(y := 0.0);
      RaiseHeroFlipChanged(boss.x < hero.x);
      RaiseBossFlipChanged(hero.x > boss.x);
      battleTimer := true;
    }

    /** A tick of the battle timer, with the round's two random draws. */
    method OnBattleTick(d1: real, d2: real)
      modifies this
      ensures Model() == Battle.BattleTick(old(Model()), d1, d2)
      ensures old(Valid()) ==> Valid()
    {
      BattleTickInv(old(Model()), d1, d2);
      if state != Fighting {
        battleTimer := false;
        return;
      }
      round := round + 1;
      ghost var e1 := Model();
      if round > MaxBattleRounds {
        battleTimer := false;
        ghost var e2 := Model();
        assert e2 == e1.(battleTimer := false);
        StartRetreatingPhase();
      } else {
        ExecuteBattleRound(d1, d2);
      }
      assert Model() == Battle.NextRound(e1, d1, d2);
    }

    method ExecuteBattleRound(d1: real, d2: real)
      modifies this
      ensures Model() == Battle.ExecuteRound(old(Model()), d1, d2)
    {
      if d1 < 0.7 {
        if d2 < 0.6 {
          RaiseHeroAnimationChanged("Attack1");
        } else {
          RaiseHeroAnimationChanged("Attack2");
        }
        RaiseBossAnimationChanged("Hurt");
      } else {
        RaiseBossAnimationChanged("JumpStart");
        if d2 < 0.5 {
          RaiseHeroAnimationChanged("Block");
          pending := pending + [Knockback];
        } else {
          RaiseHeroAnimationChanged("Roll");
          pending := pending + [Roll];
        }
      }
    }

    method PerformKnockback()
      modifies this
      ensures Model() == Battle.PerformKnockback(old(Model()))
    {
      var originalX := hero.x;
      var targetX := Max(0.0, hero.x - KnockbackDistance);
      AnimatePosition(targetX, KnockbackSteps, RunBack(originalX));
    }

    method PerformRoll()
      modifies this
      ensures Model() == Battle.PerformRoll(old(Model()))
    {
      var originalX := hero.x;
      var targetX := Max(0.0, hero.x - RollDistance);
      AnimatePosition(targetX, RollSteps, RunBack(originalX));
    }

    // -------------------------------------------------------------------
    // Retreat, cooldown, idle

    method StartRetreatingPhase()
      modifies this
      ensures Model() == Battle.StartRetreating(old(Model()))
    {
      ChangeState(Retreating);
      StartBossJump(BossStartX);
      RaiseHeroAnimationChanged("Idle");
      hero := hero.(velocity := 0.0);
    }

    method UpdateRetreatingPhase()
      modifies this
      ensures Model() == Battle.UpdateRetreating(old(Model()))
    {
      if !jump.active {
        RaiseBossAnimationChanged("Idle");
        RaiseBossFlipChanged(true);
        StartCooldownPhase();
      }
    }

    method StartCooldownPhase()
      modifies this
      ensures Model() == Battle.StartCooldown(old(Model()))
    {
      ChangeState(Cooldown);
      RaiseHeroAnimationChanged("Run");
      AnimatePosition(HeroStartX, CooldownSteps, EndCooldown);
    }

    method StartIdlePhase()
      modifies this
      ensures Model() == Battle.StartIdle(old(Model()))
    {
      ChangeState(Idle);
      pending := pending + [BeginApproach];
    }

    // -------------------------------------------------------------------
    // Glide timers and deferred callbacks

    /** Starts a glide of the hero from where it stands. */
    method AnimatePosition(target: real, steps: int, after: AfterGlide)
      modifies this
      ensures Model() == Battle.AnimatePosition(old(Model()), target, steps, after)
    {
      glides := glides + [Glide(hero.x, target, steps, 0, after)];
    }

    /** A tick of glide `i`'s timer. */
    method GlideTimerTick(i: int)
      requires 0 <= i < |glides| && glides[i].steps > 0
      modifies this
      ensures Model() == Battle.GlideTick(old(Model()), i)
      ensures old(Valid()) ==> Valid()
    {
      GlideTickInv(old(Model()), i);
      var g := glides[i];
      var step := g.step + 1;
      var progress := step as real / g.steps as real;
      var x := g.start + (g.target - g.start) * progress;
      assert x == GlideX(g, g.step + 1);
      hero := hero.(x := x);
      RaiseHeroPositionChanged(x);
      if step >= g.steps {
        glides := RemoveAt(glides, i);
        hero := hero.(x := g.target);
        RaiseHeroPositionChanged(g.target);
        ghost var e1 := Model();
        assert e1 == old(Model()).(glides := RemoveAt(old(glides), i), heroX := g.target,
                                   log := old(log) + [HeroPositionChanged(x), HeroPositionChanged(g.target)]);
        OnGlideComplete(g.after);
        assert Model() == Battle.FinishGlide(old(Model()), i);
      } else {
        glides := glides[i := g.(step := step)];
        assert Model() == Battle.AdvanceGlide(old(Model()), i);
      }
    }

    method OnGlideComplete(after: AfterGlide)
      modifies this
      ensures Model() == Battle.Complete(old(Model()), after)
    {
      match after {
        case RunBack(originalX) =>
          RaiseHeroAnimationChanged("Run");
          AnimatePosition(originalX, ReturnSteps, SettleIdle);
        case SettleIdle =>
          RaiseHeroAnimationChanged("Idle");
        case EndCooldown =>
          RaiseHeroAnimationChanged("Idle");
          RaiseHeroFlipChanged(false);
          StartIdlePhase();
      }
    }

    /** Deferred callback `i` fires; `target` is the boss's random target
        should an approach start. */
    method RunDelayedAction(i: int, target: int)
      requires 0 <= i < |pending|
      modifies this
      ensures Model() == Battle.FireDeferred(old(Model()), i, target)
      ensures old(Valid()) ==> Valid()
    {
      FireDeferredInv(old(Model()), i, target);
      var action := pending[i];
      pending := RemoveAt(pending, i);
      match action {
        case BeginApproach =>
          if running && state == Idle {
            StartApproachingPhase(target);
          }
        case Knockback =>
          if state == Fighting {
            PerformKnockback();
          }
        case Roll =>
          if state == Fighting {
            PerformRoll();
          }
      }
    }

    // -------------------------------------------------------------------
    // State and events

    method ChangeState(newState: BattleState)
      modifies this
      ensures Model() == Battle.ChangeState(old(Model()), newState)
    {
      if state != newState {
        state := newState;
        log := log + [StateChanged(newState)];
      }
    }

    method RaiseHeroPositionChanged(x: real)
      modifies this
      ensures Model() == Emit(old(Model()), HeroPositionChanged(x))
    {
      log := log + [HeroPositionChanged(x)];
    }

    method RaiseBossPositionChanged(x: real, y: real)
      modifies this
      ensures Model() == Emit(old(Model()), BossPositionChanged(x, y))
    {
      log := log + [BossPositionChanged(x, y)];
    }

    method RaiseHeroAnimationChanged(animation: string)
      modifies this
      ensures Model() == RaiseHeroAnimation(old(Model()), animation)
    {
      if hero.animation != animation {
        hero := hero.(animation := animation);
        log := log + [HeroAnimationChanged(animation)];
      }
    }

    method RaiseBossAnimationChanged(animation: string)
      modifies this
      ensures Model() == RaiseBossAnimation(old(Model()), animation)
    {
      if boss.animation != animation {
        boss := boss.(animation := animation);
        log := log + [BossAnimationChanged(animation)];
      }
    }

    method RaiseHeroFlipChanged(flipped: bool)
      modifies this
      ensures Model() == Emit(old(Model()), HeroFlipChanged(flipped))
    {
      log := log + [HeroFlipChanged(flipped)];
    }

    method RaiseBossFlipChanged(flipped: bool)
      modifies this
      ensures Model() == Emit(old(Model()), BossFlipChanged(flipped))
    {
      log := log + [BossFlipChanged(flipped)];
    }
  }
}
