/**
 * The Samurai class: a fighter whose methods update its fields in place.
 * The source's flat attributes are grouped into the records of FighterSpec
 * (Body, Pose, Stats); each method is proved to leave the fighter in the
 * state the matching function of FighterSpec describes.
 */
module Fighters {
  import opened Options
  import opened Tuning
  import opened Geometry
  import opened Projectiles
  import opened FighterSpec

  class Fighter {
    var body: Body
    var pose: Pose
    var stats: Stats
    var projectiles: seq<Projectile>
    const frames: Frames

    /** The fighter's fields as one value. */
    function State(): FighterState
      reads this
    {
      FighterState(body, pose, stats, projectiles, frames)
    }

    /** Samurai(x, y, ...): a fighter at pixel (px, py) whose sprite is w x h. */
    constructor (px: int, py: int, w: int, h: int, frames: Frames)
      ensures State() == Initial(px, py, w, h, frames)
    {
      body := Body(px * SCALE, py * SCALE, 0, 0, true, false, Rect(px, py, w, h));
      pose := Pose(Idle, DEFAULT_RATE, 0, false, false, false);
      stats := Stats(MAX_HEALTH, 0, 0, false, 0, 0, 0);
      projectiles := [];
      this.frames := frames;
    }

    /** Samurai.handle_keys with the held controls k. */
    method HandleKeys(k: Intent)
      modifies this
      ensures State() == FighterSpec.HandleKeys(old(State()), k)
    {
      if stats.health <= 0 {
        return;
      }
      body := body.(velX := 0);
      if !pose.isAttacking && !pose.isHurting {
        SteerStep(k);
        JumpStep(k);
        ShootStep(k);
        SpecialStep(k);
      }
    }

    /** Movement: left is tested before right. */
    method SteerStep(k: Intent)
      modifies this
      ensures State() == Steer(old(State()), k)
    {
      if k.left {
        body := body.(velX := -RUN_SPEED, facingRight := false);
        pose := pose.(anim := Run, animRate := RUN_RATE);
      } else if k.right {
        body := body.(velX := RUN_SPEED, facingRight := true);
        pose := pose.(anim := Run, animRate := RUN_RATE);
      } else {
        pose := pose.(anim := Idle, animRate := IDLE_RATE);
      }
    }

    /** A jump, allowed only when grounded and not already jumping. */
    method JumpStep(k: Intent)
      modifies this
      ensures State() == JumpStage(old(State()), k)
    {
      if k.jump && body.onGround && !pose.isJumping {
        body := body.(velY := JUMP_POWER, onGround := false);
        pose := pose.(isJumping := true, anim := Jump, animRate := JUMP_RATE);
      }
    }

    /** The normal attack, gated by the cooldown: one projectile ahead of the sprite. */
    method ShootStep(k: Intent)
      modifies this
      ensures State() == ShootStage(old(State()), k)
    {
      if k.attack && stats.cooldown == 0 {
        pose := pose.(isAttacking := true, anim := Attack, animRate := ATTACK_RATE, index := 0);
        stats := stats.(cooldown := ATTACK_COOLDOWN);
        var muzzleX := CenterX(body.rect) + (if body.facingRight then MUZZLE_OFFSET else -MUZZLE_OFFSET);
        projectiles := projectiles + [Spawn(muzzleX, CenterY(body.rect), body.facingRight)];
      }
    }

    /** The special attack, gated by a full meter: the loop over i in -1, 0, 1 fires the spread. */
    method SpecialStep(k: Intent)
      modifies this
      ensures State() == SpecialStage(old(State()), k)
    {
      if k.special && stats.meter >= MAX_SPECIAL {
        pose := pose.(isAttacking := true, anim := Attack, animRate := SPECIAL_RATE, index := 0);
        stats := stats.(meter := 0, specialReady := false);
        var muzzleX := CenterX(body.rect) + (if body.facingRight then MUZZLE_OFFSET else -MUZZLE_OFFSET);
        var centerY := CenterY(body.rect);
        var fired: seq<Projectile> := [];
        for i := -1 to 2
          invariant fired == Spread(muzzleX, centerY, body.facingRight, i + 1)
        {
          assert Spread(muzzleX, centerY, body.facingRight, i + 2)
            == Spread(muzzleX, centerY, body.facingRight, i + 1) + [Spawn(muzzleX, centerY + i * SPREAD, body.facingRight)];
          fired := fired + [Spawn(muzzleX, centerY + i * SPREAD, body.facingRight)];
        }
        projectiles := projectiles + fired;
      }
    }

    /** Samurai.apply_gravity. */
    method ApplyGravity()
      modifies this
      ensures State() == FighterSpec.ApplyGravity(old(State()))
    {
      body := body.(velY := body.velY + GRAVITY);
      if body.velY > TERMINAL_VEL {
        body := body.(velY := TERMINAL_VEL);
      }
    }

    /** Samurai.handle_collision: the loop over the platforms in their listed order. */
    method HandleCollision(platforms: seq<Rect>)
      modifies this
      ensures State() == FighterSpec.HandleCollision(old(State()), platforms)
    {
      var collided := false;
      var i := 0;
      while i < |platforms|
        invariant 0 <= i <= |platforms|
        invariant collided <==> old(body.velY) > 0 && FirstOverlap(old(body.rect), platforms[..i]).Some?
        invariant !collided ==> State() == old(State())
        invariant collided ==> State() == Land(old(State()), platforms[FirstOverlap(old(body.rect), platforms[..i]).value])
      {
        assert platforms[..i + 1][..i] == platforms[..i];
        if body.velY > 0 && Overlaps(body.rect, platforms[i]) {
          body := body.(rect := body.rect.(y := platforms[i].y - body.rect.h));
          body := body.(y := body.rect.y * SCALE, velY := 0, onGround := true);
          pose := pose.(isJumping := false);
          collided := true;
        }
        i := i + 1;
      }
      assert platforms[..|platforms|] == platforms;
      if !collided {
        body := body.(onGround := false);
      }
    }

    /** The group update of this fighter's projectiles: each advances, the out-of-range ones kill themselves. */
    method UpdateProjectiles()
      modifies this
      ensures State() == old(State()).(projectiles := AdvanceAll(old(projectiles)))
    {
      var flight := projectiles;
      var kept: seq<Projectile> := [];
      for i := 0 to |flight|
        invariant kept == AdvanceAll(flight[..i])
      {
        assert flight[..i + 1][..i] == flight[..i];
        var p := flight[i];
        var moved := p.(box := p.box.(x := p.box.x + (if p.facingRight then PROJECTILE_SPEED else -PROJECTILE_SPEED)));
        if Abs(moved.box.x - moved.originX) <= WIDTH {
          kept := kept + [moved];
        }
      }
      assert flight[..|flight|] == flight;
      projectiles := kept;
    }

    /** Samurai.update at clock reading now (milliseconds). */
    method Update(now: int)
      modifies this
      ensures State() == FighterSpec.Update(old(State()), now)
    {
      MoveStep();
      AnimateStep();
      // with no attack, jump or hurt in progress, run or idle follows velX
      if !pose.isAttacking && !pose.isJumping && !pose.isHurting {
        if body.velX != 0 {
          pose := pose.(anim := Run, animRate := RUN_RATE);
        } else {
          pose := pose.(anim := Idle, animRate := IDLE_RATE);
        }
      }
      TimerStep(now);
      body := body.(rect := body.rect.(x := ToPixel(body.x), y := ToPixel(body.y)));
      UpdateProjectiles();
      RechargeStep();
    }

    /** Velocity applied and position clamped to the arena, unless hurting. */
    method MoveStep()
      modifies this
      ensures State() == old(State()).(body := Move(old(body), old(pose.isHurting)))
    {
      if !pose.isHurting {
        body := body.(x := body.x + body.velX, y := body.y + body.velY);
        body := body.(x := Max(0, Min(body.x, (WIDTH - body.rect.w) * SCALE)),
                      y := Max(0, Min(body.y, (HEIGHT - body.rect.h) * SCALE)));
      }
    }

    /** Animation progress and the end of the attack, jump and hurt cycles. */
    method AnimateStep()
      modifies this
      ensures State() == old(State()).(pose := Animate(old(pose), old(body.velY), frames))
    {
      pose := pose.(index := pose.index + pose.animRate);
      if pose.isAttacking {
        if pose.index >= frames.Length(pose.anim) * SCALE {
          pose := pose.(index := 0, isAttacking := false, anim := Idle, animRate := IDLE_RATE);
        }
      } else if pose.isJumping {
        if pose.index >= frames.Length(pose.anim) * SCALE {
          pose := pose.(index := 0);
          if body.velY > 0 {
            pose := pose.(anim := Idle, animRate := IDLE_RATE, isJumping := false);
          }
        }
      } else if pose.isHurting {
        if pose.index >= frames.Length(pose.anim) * SCALE {
          pose := pose.(index := 0, isHurting := false, animRate := IDLE_RATE);
        }
      }
    }

    /** The cooldown counts down; the combo lapses after the combo window. */
    method TimerStep(now: int)
      modifies this
      ensures State() == old(State()).(stats := Timers(old(stats), now))
    {
      if stats.cooldown > 0 {
        stats := stats.(cooldown := stats.cooldown - 1);
      }
      if stats.combo > 0 && now - stats.lastHitTime > COMBO_WINDOW {
        stats := stats.(combo := 0);
      }
    }

    /** Passive meter charge while below the maximum. */
    method RechargeStep()
      modifies this
      ensures State() == old(State()).(stats := Recharge(old(stats)))
    {
      if stats.meter < MAX_SPECIAL {
        stats := stats.(meter := stats.meter + METER_REGEN);
        if stats.meter >= MAX_SPECIAL && !stats.specialReady {
          stats := stats.(specialReady := true);
        }
      }
    }

    /**
     * Samurai.take_damage(amount, hit_by): this fighter takes the hit when
     * vulnerable, and then the attacker hitBy, if any, is credited.
     */
    method TakeDamage(amount: int, hitBy: Fighter?, now: int)
      modifies this, hitBy
      ensures hitBy == null ==> State() == FighterSpec.TakeDamage(old(State()), amount, now)
      ensures hitBy != null && hitBy != this ==>
        && State() == FighterSpec.TakeDamage(old(State()), amount, now)
        && hitBy.State() == (if Vulnerable(old(State())) then CreditHit(old(hitBy.State()), now) else old(hitBy.State()))
      ensures hitBy == this ==>
        State() == (if Vulnerable(old(State()))
                    then CreditHit(FighterSpec.TakeDamage(old(State()), amount, now), now)
                    else old(State()))
    {
      if !pose.isHurting && stats.health > 0 {
        stats := stats.(health := Max(0, stats.health - amount), hurtTimer := now);
        pose := pose.(isHurting := true, index := 0, anim := Hurt, animRate := HURT_RATE);
        if hitBy != null {
          hitBy.stats := hitBy.stats.(combo := hitBy.stats.combo + 1, lastHitTime := now,
                                      meter := Min(MAX_SPECIAL, hitBy.stats.meter + HIT_METER_GAIN));
        }
      }
    }
  }
}
