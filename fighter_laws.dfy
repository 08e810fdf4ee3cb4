/** What the fighter operations of FighterSpec guarantee. */
module FighterLaws {
  import opened Options
  import opened Tuning
  import opened Geometry
  import opened Projectiles
  import opened FighterSpec

  /** Two states with the same position, sprite rectangle, health, combo and cycle lengths. */
  predicate SamePlace(a: FighterState, b: FighterState)
  {
    && a.body.x == b.body.x && a.body.y == b.body.y && a.body.rect == b.body.rect
    && a.stats.health == b.stats.health && a.stats.combo == b.stats.combo && a.frames == b.frames
  }

  // ---------------------------------------------------------------- input

  /** A knocked-out fighter ignores its controls entirely. */
  lemma KeysIgnoredWhenKnockedOut(s: FighterState, k: Intent)
    requires s.stats.health <= 0
    ensures HandleKeys(s, k) == s
  {
  }

  /** During an attack or a hurt animation the only effect of input handling is velX = 0. */
  lemma KeysWhileBusy(s: FighterState, k: Intent)
    requires s.stats.health > 0 && !Free(s)
    ensures HandleKeys(s, k) == s.(body := s.body.(velX := 0))
  {
  }

  /** Steering: left wins over right; with neither held the fighter stops and keeps its facing. */
  lemma KeysSteering(s: FighterState, k: Intent)
    requires s.stats.health > 0 && Free(s)
    ensures HandleKeys(s, k).body.velX == (if k.left then -RUN_SPEED else if k.right then RUN_SPEED else 0)
    ensures HandleKeys(s, k).body.facingRight == (if k.left then false else if k.right then true else s.body.facingRight)
  {
  }

  /** Input handling never moves the sprite or touches health, combo or the cycle lengths. */
  lemma {:induction false} KeysKeepPlace(s: FighterState, k: Intent)
    ensures var r := HandleKeys(s, k);
      r.body.x == s.body.x && r.body.y == s.body.y && r.body.rect == s.body.rect
      && r.stats.health == s.stats.health && r.stats.combo == s.stats.combo && r.frames == s.frames
  {
    var s1 := s.(body := s.body.(velX := 0));
    if s.stats.health > 0 && Free(s1) {
      var s2 := Steer(s1, k);
      assert SamePlace(s2, s);
      var s3 := JumpStage(s2, k);
      assert SamePlace(s3, s);
      var s4 := ShootStage(s3, k);
      assert SamePlace(s4, s);
      KeysKeepMuzzle(s, k);
      assert SamePlace(SpecialStage(s4, k), s);
    }
  }

  /** A jump starts exactly when the fighter is alive, free, grounded, not already jumping and jump is held. */
  lemma KeysJump(s: FighterState, k: Intent)
    ensures var r := HandleKeys(s, k);
      (r.pose.isJumping && !s.pose.isJumping)
      <==> (s.stats.health > 0 && Free(s) && k.jump && s.body.onGround && !s.pose.isJumping)
    ensures var r := HandleKeys(s, k);
      r.pose.isJumping && !s.pose.isJumping ==> r.body.velY == JUMP_POWER && !r.body.onGround
    ensures var r := HandleKeys(s, k);
      !(r.pose.isJumping && !s.pose.isJumping) ==>
        r.body.velY == s.body.velY && r.body.onGround == s.body.onGround && r.pose.isJumping == s.pose.isJumping
  {
  }

  /** The attacker's muzzle and centre line do not move while the keys are handled. */
  lemma KeysKeepMuzzle(s: FighterState, k: Intent)
    requires s.stats.health > 0 && Free(s)
    ensures var s2 := Steer(s.(body := s.body.(velX := 0)), k);
      var s4 := ShootStage(JumpStage(s2, k), k);
      s4.body.rect == s.body.rect && s4.body.facingRight == s2.body.facingRight
      && HandleKeys(s, k) == SpecialStage(s4, k)
  {
  }

  /**
   * Attacks: the normal attack adds exactly one projectile, the special
   * exactly three, and the fighter's earlier projectiles are kept in order.
   */
  lemma {:induction false} KeysAttacks(s: FighterState, k: Intent)
    ensures var r, n := HandleKeys(s, k), |s.projectiles|;
      |r.projectiles| == n + (if Shoots(s, k) then 1 else 0) + (if Specials(s, k) then 3 else 0)
    ensures var r, n := HandleKeys(s, k), |s.projectiles|;
      n <= |r.projectiles| && r.projectiles[..n] == s.projectiles
  {
    if s.stats.health > 0 && Free(s) {
      var s2 := Steer(s.(body := s.body.(velX := 0)), k);
      var s3 := JumpStage(s2, k);
      assert s3.stats == s.stats && s3.projectiles == s.projectiles;
      var s4 := ShootStage(s3, k);
      assert |s4.projectiles| == |s.projectiles| + (if Shoots(s, k) then 1 else 0);
      assert s4.projectiles[..|s.projectiles|] == s.projectiles;
      KeysKeepMuzzle(s, k);
      var r := SpecialStage(s4, k);
      assert Specials(s, k) <==> k.special && s4.stats.meter >= MAX_SPECIAL;
      assert r.projectiles[..|s4.projectiles|] == s4.projectiles;
      assert r.projectiles[..|s.projectiles|] == s4.projectiles[..|s.projectiles|];
    }
  }

  /** The normal attack arms the cooldown, the special empties the meter, and either restarts the attack animation. */
  lemma {:induction false} KeysAttackGauges(s: FighterState, k: Intent)
    ensures var r := HandleKeys(s, k);
      r.stats.cooldown == (if Shoots(s, k) then ATTACK_COOLDOWN else s.stats.cooldown)
    ensures var r := HandleKeys(s, k);
      r.stats.meter == (if Specials(s, k) then 0 else s.stats.meter)
      && r.stats.specialReady == (if Specials(s, k) then false else s.stats.specialReady)
    ensures var r := HandleKeys(s, k);
      Shoots(s, k) || Specials(s, k) ==> r.pose.isAttacking && r.pose.index == 0
  {
    if s.stats.health > 0 && Free(s) {
      var s2 := Steer(s.(body := s.body.(velX := 0)), k);
      var s3 := JumpStage(s2, k);
      assert s3.stats == s.stats;
      var s4 := ShootStage(s3, k);
      assert s4.stats.meter == s.stats.meter && s4.stats.specialReady == s.stats.specialReady;
      KeysKeepMuzzle(s, k);
    }
  }

  /** The normal attack's projectile: 40 pixels ahead of the sprite's centre, flying the way the fighter faces. */
  lemma {:induction false} KeysShotPlacement(s: FighterState, k: Intent)
    requires Shoots(s, k)
    ensures var r, n := HandleKeys(s, k), |s.projectiles|;
      && n < |r.projectiles|
      && r.projectiles[n] == Spawn(MuzzleX(r.body), CenterY(s.body.rect), r.body.facingRight)
  {
    var s2 := Steer(s.(body := s.body.(velX := 0)), k);
    var s3 := JumpStage(s2, k);
    assert s3.stats == s.stats && s3.projectiles == s.projectiles;
    var s4 := ShootStage(s3, k);
    assert s4.projectiles == s.projectiles + [Spawn(MuzzleX(s3.body), CenterY(s.body.rect), s2.body.facingRight)];
    KeysKeepMuzzle(s, k);
    var r := SpecialStage(s4, k);
    assert r.projectiles[..|s4.projectiles|] == s4.projectiles;
    assert r.projectiles[|s.projectiles|] == s4.projectiles[|s.projectiles|];
  }

  /** The special's spread: the last three projectiles, at y offsets -20, 0 and +20 from the centre line. */
  lemma {:induction false} KeysSpreadPlacement(s: FighterState, k: Intent)
    requires Specials(s, k)
    ensures var r := HandleKeys(s, k);
      var m, mx, cy, f := |r.projectiles|, MuzzleX(r.body), CenterY(s.body.rect), r.body.facingRight;
      && 3 <= m
      && r.projectiles[m - 3] == Spawn(mx, cy - SPREAD, f)
      && r.projectiles[m - 2] == Spawn(mx, cy, f)
      && r.projectiles[m - 1] == Spawn(mx, cy + SPREAD, f)
  {
    var s2 := Steer(s.(body := s.body.(velX := 0)), k);
    var s3 := JumpStage(s2, k);
    var s4 := ShootStage(s3, k);
    KeysKeepMuzzle(s, k);
    assert s4.stats.meter == s.stats.meter;
    var sp := Spread(MuzzleX(s4.body), CenterY(s.body.rect), s4.body.facingRight, 3);
    var r := SpecialStage(s4, k);
    assert r.projectiles == s4.projectiles + sp;
    assert sp[0] == Spawn(MuzzleX(s4.body), CenterY(s.body.rect) - SPREAD, s4.body.facingRight);
  }

  lemma {:induction false} KeysKeepInv(s: FighterState, k: Intent)
    requires Inv(s)
    ensures Inv(HandleKeys(s, k))
  {
    var s1 := s.(body := s.body.(velX := 0));
    assert Inv(s1);
    if s.stats.health > 0 && Free(s1) {
      var s2 := Steer(s1, k);
      assert Inv(s2);
      var s3 := JumpStage(s2, k);
      assert Inv(s3);
      var s4 := ShootStage(s3, k);
      assert Inv(s4);
      KeysKeepMuzzle(s, k);
      assert Inv(SpecialStage(s4, k));
    }
  }

  // -------------------------------------------------------------- physics

  /** Gravity adds 0.8 to the vertical velocity, capped at the terminal velocity 10; nothing else changes. */
  lemma GravityStep(s: FighterState)
    ensures ApplyGravity(s) == s.(body := s.body.(velY := Min(s.body.velY + GRAVITY, TERMINAL_VEL)))
    ensures ApplyGravity(s).body.velY <= TERMINAL_VEL
  {
  }

  /** The fighter after gravity has been applied n times. */
  function Falling(s: FighterState, n: nat): FighterState
  {
    if n == 0 then s else ApplyGravity(Falling(s, n - 1))
  }

  /** n frames of gravity raise the vertical velocity by 0.8 each, up to the terminal clamp, and change nothing else. */
  lemma {:induction false} FallingVelocity(s: FighterState, n: nat)
    requires s.body.velY <= TERMINAL_VEL
    ensures Falling(s, n).body.velY == Min(s.body.velY + GRAVITY * n, TERMINAL_VEL)
    ensures Falling(s, n) == s.(body := s.body.(velY := Falling(s, n).body.velY))
  {
    if n > 0 {
      FallingVelocity(s, n - 1);
    }
  }

  /** When the fighter is descending and overlaps some platform, it lands on the first one it overlaps. */
  lemma CollisionLands(s: FighterState, plats: seq<Rect>, i: nat)
    requires s.body.velY > 0 && i < |plats| && Overlaps(s.body.rect, plats[i])
    requires forall j :: 0 <= j < i ==> !Overlaps(s.body.rect, plats[j])
    ensures var r := HandleCollision(s, plats);
      r == Land(s, plats[i])
      && r.body.rect.y + r.body.rect.h == plats[i].y && r.body.y == r.body.rect.y * SCALE
      && r.body.velY == 0 && r.body.onGround && !r.pose.isJumping
  {
  }

  /** Without a descent onto some platform the fighter is left ungrounded and otherwise untouched. */
  lemma CollisionMisses(s: FighterState, plats: seq<Rect>)
    requires s.body.velY <= 0 || forall j :: 0 <= j < |plats| ==> !Overlaps(s.body.rect, plats[j])
    ensures HandleCollision(s, plats) == s.(body := s.body.(onGround := false))
  {
  }

  /** Once landed, the rest of the platform loop changes nothing: vertical velocity is then 0. */
  lemma {:induction false} SweepAfterLanding(s: FighterState, plats: seq<Rect>)
    requires s.body.velY <= 0
    ensures Sweep(s, plats, true) == s
    ensures Sweep(s, plats, false) == Unground(s)
    decreases |plats|
  {
    if plats != [] {
      SweepAfterLanding(s, plats[1..]);
    }
  }

  /** Skipping a platform the fighter does not overlap shifts the first overlap by one. */
  lemma FirstOverlapTail(box: Rect, plats: seq<Rect>)
    requires plats != [] && !Overlaps(box, plats[0])
    ensures var f, g := FirstOverlap(box, plats), FirstOverlap(box, plats[1..]);
      (f.None? <==> g.None?) && (f.Some? ==> f.value == g.value + 1)
  {
    var f, g := FirstOverlap(box, plats), FirstOverlap(box, plats[1..]);
    if f.Some? {
      assert Overlaps(box, plats[1..][f.value - 1]);
    }
    if g.Some? {
      assert Overlaps(box, plats[g.value + 1]);
    }
  }

  /**
   * The source's loop tests every platform, but only the first qualifying
   * one can resolve, because landing zeroes the vertical velocity: its result
   * is the first-overlap rule of HandleCollision.
   */
  lemma {:induction false} SweepResolvesFirstOnly(s: FighterState, plats: seq<Rect>)
    ensures Sweep(s, plats, false) == HandleCollision(s, plats)
    decreases |plats|
  {
    if plats == [] {
    } else if s.body.velY > 0 && Overlaps(s.body.rect, plats[0]) {
      SweepAfterLanding(Land(s, plats[0]), plats[1..]);
      CollisionLands(s, plats, 0);
    } else if s.body.velY <= 0 {
      SweepAfterLanding(s, plats);
    } else {
      SweepResolvesFirstOnly(s, plats[1..]);
      FirstOverlapTail(s.body.rect, plats);
      var g := FirstOverlap(s.body.rect, plats[1..]);
      if g.Some? {
        assert plats[1..][g.value] == plats[g.value + 1];
      }
    }
  }

  lemma GravityAndCollisionKeepInv(s: FighterState, plats: seq<Rect>)
    requires Inv(s)
    ensures Inv(ApplyGravity(s)) && Inv(HandleCollision(s, plats))
  {
  }

  // --------------------------------------------------------------- update

  /**
   * The position changes only when the fighter is not hurting, and then ends
   * inside the arena: 0 <= x <= WIDTH - w and 0 <= y <= HEIGHT - h (in pixels);
   * the sprite rectangle follows the truncated position.
   */
  lemma UpdatePosition(s: FighterState, now: int)
    ensures var r := Update(s, now);
      s.pose.isHurting ==> r.body.x == s.body.x && r.body.y == s.body.y
    ensures var r := Update(s, now);
      !s.pose.isHurting && s.body.rect.w <= WIDTH ==> 0 <= r.body.x <= (WIDTH - s.body.rect.w) * SCALE
    ensures var r := Update(s, now);
      !s.pose.isHurting && s.body.rect.h <= HEIGHT ==> 0 <= r.body.y <= (HEIGHT - s.body.rect.h) * SCALE
    ensures var r := Update(s, now);
      r.body.rect == Rect(ToPixel(r.body.x), ToPixel(r.body.y), s.body.rect.w, s.body.rect.h)
    ensures var r := Update(s, now);
      r.body.velX == s.body.velX && r.body.velY == s.body.velY && r.body.onGround == s.body.onGround
  {
  }

  /** The cooldown decreases by one per frame and never goes below 0. */
  lemma UpdateCooldown(s: FighterState, now: int)
    requires s.stats.cooldown >= 0
    ensures Update(s, now).stats.cooldown == Max(0, s.stats.cooldown - 1)
  {
  }

  /** The combo lapses exactly when more than 2000 ms have passed since the last landed hit. */
  lemma UpdateCombo(s: FighterState, now: int)
    requires s.stats.combo >= 0
    ensures Update(s, now).stats.combo == (if now - s.stats.lastHitTime > COMBO_WINDOW then 0 else s.stats.combo)
    ensures Update(s, now).stats.health == s.stats.health
  {
  }

  /**
   * Passive charge: the meter gains 0.1 only while below the maximum and never
   * passes it, and special_ready turns on when a charge step reaches the maximum.
   */
  lemma UpdateMeter(s: FighterState, now: int)
    requires Inv(s)
    ensures var r := Update(s, now);
      r.stats.meter == (if s.stats.meter < MAX_SPECIAL then s.stats.meter + METER_REGEN else s.stats.meter)
      && r.stats.meter <= MAX_SPECIAL
    ensures var r := Update(s, now);
      r.stats.specialReady == (s.stats.specialReady || (s.stats.meter < MAX_SPECIAL && r.stats.meter == MAX_SPECIAL))
  {
  }

  /** Attack, jump and hurt animations end when the index reaches the cycle length. */
  lemma UpdateEndsCycles(s: FighterState, now: int)
    ensures var r, p := Update(s, now).pose, s.pose;
      var done := p.index + p.animRate >= s.frames.Length(p.anim) * SCALE;
      p.isAttacking ==> (r.isAttacking <==> !done) && (done ==> r.index == 0)
    ensures var r, p := Update(s, now).pose, s.pose;
      var done := p.index + p.animRate >= s.frames.Length(p.anim) * SCALE;
      !p.isAttacking && p.isJumping ==> (r.isJumping <==> !(done && s.body.velY > 0)) && (done ==> r.index == 0)
    ensures var r, p := Update(s, now).pose, s.pose;
      var done := p.index + p.animRate >= s.frames.Length(p.anim) * SCALE;
      !p.isAttacking && !p.isJumping && p.isHurting ==> (r.isHurting <==> !done) && (done ==> r.index == 0)
    ensures var r, p := Update(s, now).pose, s.pose;
      (r.isAttacking ==> p.isAttacking) && (r.isJumping ==> p.isJumping) && (r.isHurting ==> p.isHurting)
  {
  }

  /** With nothing in progress the fighter runs exactly when it moves horizontally. */
  lemma UpdateIdleOrRun(s: FighterState, now: int)
    requires !s.pose.isAttacking && !s.pose.isJumping && !s.pose.isHurting
    ensures Update(s, now).pose.anim == (if s.body.velX != 0 then Run else Idle)
  {
  }

  /** Every projectile still in the fighter's group after an update is within range. */
  lemma UpdateProjectiles(s: FighterState, now: int)
    ensures Update(s, now).projectiles == AdvanceAll(s.projectiles)
    ensures forall j :: 0 <= j < |Update(s, now).projectiles| ==> !OutOfRange(Update(s, now).projectiles[j])
  {
  }

  /** The stats part of the invariant survives the timers and the passive charge. */
  lemma StatsKeepInv(st: Stats, now: int)
    requires 0 <= st.health <= MAX_HEALTH && 0 <= st.combo
    requires 0 <= st.meter <= MAX_SPECIAL && st.meter % METER_REGEN == 0
    requires 0 <= st.cooldown <= ATTACK_COOLDOWN
    ensures var r := Recharge(Timers(st, now));
      && 0 <= r.health <= MAX_HEALTH && 0 <= r.combo
      && 0 <= r.meter <= MAX_SPECIAL && r.meter % METER_REGEN == 0
      && 0 <= r.cooldown <= ATTACK_COOLDOWN
  {
  }

  /** The pose part of the invariant survives the animation and the idle/run choice. */
  lemma PoseKeepsInv(p: Pose, velY: int, velX: int, frames: Frames)
    requires 0 <= p.index && 0 < p.animRate
    ensures var r := Settle(Animate(p, velY, frames), velX);
      0 <= r.index && 0 < r.animRate
  {
  }

  lemma {:induction false} UpdateKeepsInv(s: FighterState, now: int)
    requires Inv(s)
    ensures Inv(Update(s, now))
  {
    StatsKeepInv(s.stats, now);
    PoseKeepsInv(s.pose, s.body.velY, s.body.velX, s.frames);
  }

  /** The fighter after one update per clock reading in nows. */
  function Updates(s: FighterState, nows: seq<int>): FighterState
    decreases |nows|
  {
    if nows == [] then s else Updates(Update(s, nows[0]), nows[1..])
  }

  /** After n updates an armed cooldown c has come down to max(0, c - n). */
  lemma {:induction false} CooldownCountsDown(s: FighterState, nows: seq<int>)
    requires s.stats.cooldown >= 0
    ensures Updates(s, nows).stats.cooldown == Max(0, s.stats.cooldown - |nows|)
    decreases |nows|
  {
    if nows != [] {
      UpdateCooldown(s, nows[0]);
      CooldownCountsDown(Update(s, nows[0]), nows[1..]);
    }
  }

  // --------------------------------------------------------------- damage

  /**
   * A hit on a fighter that is hurting or knocked out changes nothing; otherwise
   * health becomes max(0, health - amount) and the hurt animation starts from
   * index 0, and nothing but health, the hurt time and the pose changes.
   */
  lemma TakeDamageEffect(s: FighterState, amount: int, now: int)
    ensures !Vulnerable(s) ==> TakeDamage(s, amount, now) == s
    ensures var r := TakeDamage(s, amount, now);
      Vulnerable(s) ==>
        && r.stats.health == Max(0, s.stats.health - amount)
        && r.pose.isHurting && r.pose.index == 0 && r.pose.anim == Hurt
        && r.body == s.body && r.projectiles == s.projectiles
        && r.stats == s.stats.(health := r.stats.health, hurtTimer := now)
  {
  }

  /** A second hit while the first one is still hurting has no effect. */
  lemma TakeDamageIdempotent(s: FighterState, amount: int, now: int, later: int)
    ensures TakeDamage(TakeDamage(s, amount, now), amount, later) == TakeDamage(s, amount, now)
  {
  }

  /** The attacker's credit: combo + 1 and the meter raised by 10, never past the maximum; special_ready is not touched. */
  lemma CreditEffect(a: FighterState, now: int)
    requires Inv(a)
    ensures var r := CreditHit(a, now);
      r.stats.combo == a.stats.combo + 1 && r.stats.lastHitTime == now
      && r.stats.meter == Min(MAX_SPECIAL, a.stats.meter + HIT_METER_GAIN) && r.stats.meter <= MAX_SPECIAL
      && r.stats.specialReady == a.stats.specialReady
      && r.body == a.body && r.pose == a.pose && r.projectiles == a.projectiles
  {
  }

  lemma DamageKeepsInv(s: FighterState, a: FighterState, amount: int, now: int)
    requires Inv(s) && Inv(a) && amount >= 0
    ensures Inv(TakeDamage(s, amount, now)) && Inv(CreditHit(a, now))
  {
  }

  /** The attacker after n credited hits. */
  function Credits(a: FighterState, n: nat, now: int): FighterState
  {
    if n == 0 then a else CreditHit(Credits(a, n - 1, now), now)
  }

  /** n landed hits raise the meter by 10 each, up to the maximum, and leave health and pose alone. */
  lemma {:induction false} CreditsChargeMeter(a: FighterState, n: nat, now: int)
    requires 0 <= a.stats.meter <= MAX_SPECIAL
    ensures Credits(a, n, now).stats.meter == Min(MAX_SPECIAL, a.stats.meter + HIT_METER_GAIN * n)
    ensures Credits(a, n, now).stats.combo == a.stats.combo + n
    ensures Credits(a, n, now).stats.health == a.stats.health && Credits(a, n, now).pose == a.pose
  {
    if n > 0 {
      CreditsChargeMeter(a, n - 1, now);
    }
  }

  /** Ten landed hits from an empty meter arm the special attack. */
  lemma TenHitsArmSpecial(a: FighterState, k: Intent, now: int)
    requires a.stats.meter == 0 && a.stats.health > 0 && Free(a) && k.special
    ensures Specials(Credits(a, 10, now), k)
  {
    CreditsChargeMeter(a, 10, now);
  }

  /** A fresh fighter hit by one projectile of a fresh opponent: 90 health left; the opponent has combo 1 and meter 10. */
  lemma FirstHitScenario(px: int, py: int, qx: int, qy: int, w: int, h: int, frames: Frames, now: int)
    ensures var d := TakeDamage(Initial(px, py, w, h, frames), PROJECTILE_DAMAGE, now);
      d.stats.health == 90 && d.pose.isHurting
    ensures var a := CreditHit(Initial(qx, qy, w, h, frames), now);
      a.stats.combo == 1 && a.stats.meter == 10 * SCALE
  {
  }
}
