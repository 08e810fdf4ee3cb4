/**
 * The fighter (the game's Samurai) as a value: one function per operation,
 * each giving the state the operation leaves behind. The class in module
 * Fighters is proved to change its fields exactly as these functions say.
 */
module FighterSpec {
  import opened Options
  import opened Tuning
  import opened Geometry
  import opened Projectiles

  /** The five controls of one player, as held down this frame. */
  datatype Intent = Intent(left: bool, right: bool, jump: bool, attack: bool, special: bool)

  /** Which image list is current (current_imgs). */
  datatype Anim = Idle | Run | Attack | Jump | Hurt

  /** The number of images in each animation: the cycle lengths. */
  datatype Frames = Frames(idle: int, run: int, attack: int, jump: int, hurt: int)
  {
    predicate Valid()
    {
      idle > 0 && run > 0 && attack > 0 && jump > 0 && hurt > 0
    }

    function Length(a: Anim): int
    {
      match a
      case Idle => idle
      case Run => run
      case Attack => attack
      case Jump => jump
      case Hurt => hurt
    }
  }

  /** Position and motion. x, y, velX and velY are in hundredths; rect is the sprite rectangle in pixels. */
  datatype Body = Body(x: int, y: int, velX: int, velY: int, facingRight: bool, onGround: bool, rect: Rect)

  /** The state machine: current animation, its progress (hundredths of an image) and the action flags. */
  datatype Pose = Pose(anim: Anim, animRate: int, index: int, isJumping: bool, isAttacking: bool, isHurting: bool)

  /** Health, attack cooldown (frames), special meter (hundredths), combo and the clock readings of the last hits. */
  datatype Stats = Stats(health: int, cooldown: int, meter: int, specialReady: bool, combo: int,
                         lastHitTime: int, hurtTimer: int)

  /** Everything about a fighter that the simulation reads or writes. */
  datatype FighterState = FighterState(body: Body, pose: Pose, stats: Stats,
                                       projectiles: seq<Projectile>, frames: Frames)

  /** A fighter as created at pixel (px, py) with a w x h sprite. */
  function Initial(px: int, py: int, w: int, h: int, frames: Frames): FighterState
  {
    FighterState(
      Body(px * SCALE, py * SCALE, 0, 0, true, false, Rect(px, py, w, h)),
      Pose(Idle, DEFAULT_RATE, 0, false, false, false),
      Stats(MAX_HEALTH, 0, 0, false, 0, 0, 0),
      [], frames)
  }

  /** The ranges every field stays in, frame after frame. */
  predicate Inv(s: FighterState)
  {
    && 0 <= s.stats.health <= MAX_HEALTH
    && 0 <= s.stats.meter <= MAX_SPECIAL && s.stats.meter % METER_REGEN == 0
    && 0 <= s.stats.cooldown <= ATTACK_COOLDOWN
    && 0 <= s.stats.combo
    && -RUN_SPEED <= s.body.velX <= RUN_SPEED
    && s.body.velY <= TERMINAL_VEL
    && s.body.rect.w > 0 && s.body.rect.h > 0
    && 0 <= s.pose.index && 0 < s.pose.animRate
    && s.frames.Valid()
  }

  lemma InitialInv(px: int, py: int, w: int, h: int, frames: Frames)
    requires w > 0 && h > 0 && frames.Valid()
    ensures Inv(Initial(px, py, w, h, frames))
  {
  }

  // ---------------------------------------------------------------- input

  /** Free to act: neither in an attack nor in a hurt animation. */
  predicate Free(s: FighterState)
  {
    !s.pose.isAttacking && !s.pose.isHurting
  }

  /** Steering: left is tested first, so it wins over right. */
  function Steer(s: FighterState, k: Intent): FighterState
  {
    if k.left then
      s.(body := s.body.(velX := -RUN_SPEED, facingRight := false), pose := s.pose.(anim := Run, animRate := RUN_RATE))
    else if k.right then
      s.(body := s.body.(velX := RUN_SPEED, facingRight := true), pose := s.pose.(anim := Run, animRate := RUN_RATE))
    else s.(pose := s.pose.(anim := Idle, animRate := IDLE_RATE))
  }

  function StartJump(s: FighterState): FighterState
  {
    s.(body := s.body.(velY := JUMP_POWER, onGround := false),
       pose := s.pose.(isJumping := true, anim := Jump, animRate := JUMP_RATE))
  }

  /** x at which attacks are fired: 40 pixels ahead of the sprite's centre. */
  function MuzzleX(b: Body): int
  {
    CenterX(b.rect) + (if b.facingRight then MUZZLE_OFFSET else -MUZZLE_OFFSET)
  }

  /** The first n projectiles of the special's spread, at y offsets -20, 0, +20. */
  function Spread(mx: int, cy: int, facingRight: bool, n: nat): seq<Projectile>
  {
    seq(n, j => Spawn(mx, cy + (j - 1) * SPREAD, facingRight))
  }

  /** A normal attack: restarts the attack animation, arms the cooldown, fires one projectile. */
  function Shoot(s: FighterState): FighterState
  {
    s.(pose := s.pose.(isAttacking := true, anim := Attack, animRate := ATTACK_RATE, index := 0),
       stats := s.stats.(cooldown := ATTACK_COOLDOWN),
       projectiles := s.projectiles + [Spawn(MuzzleX(s.body), CenterY(s.body.rect), s.body.facingRight)])
  }

  /** A special attack: empties the meter and fires the three-projectile spread. */
  function Special(s: FighterState): FighterState
  {
    s.(pose := s.pose.(isAttacking := true, anim := Attack, animRate := SPECIAL_RATE, index := 0),
       stats := s.stats.(meter := 0, specialReady := false),
       projectiles := s.projectiles + Spread(MuzzleX(s.body), CenterY(s.body.rect), s.body.facingRight, 3))
  }

  /** The normal attack fires this frame. */
  predicate Shoots(s: FighterState, k: Intent)
  {
    s.stats.health > 0 && Free(s) && k.attack && s.stats.cooldown == 0
  }

  /** The special attack fires this frame. */
  predicate Specials(s: FighterState, k: Intent)
  {
    s.stats.health > 0 && Free(s) && k.special && s.stats.meter >= MAX_SPECIAL
  }

  /** The jump stage: only a grounded fighter that is not already jumping can jump. */
  function JumpStage(s: FighterState, k: Intent): FighterState
  {
    if k.jump && s.body.onGround && !s.pose.isJumping then StartJump(s) else s
  }

  /** The attack stage: gated by the cooldown. */
  function ShootStage(s: FighterState, k: Intent): FighterState
  {
    if k.attack && s.stats.cooldown == 0 then Shoot(s) else s
  }

  /** The special stage: gated by a full meter; tested after the normal attack, so both can fire together. */
  function SpecialStage(s: FighterState, k: Intent): FighterState
  {
    if k.special && s.stats.meter >= MAX_SPECIAL then Special(s) else s
  }

  /**
   * Samurai.handle_keys: nothing for a knocked-out fighter; otherwise velX is
   * reset and, unless attacking or hurting, the stages run in source order.
   */
  function HandleKeys(s: FighterState, k: Intent): FighterState
  {
    if s.stats.health <= 0 then s
    else
      var s1 := s.(body := s.body.(velX := 0));
      if !Free(s1) then s1
      else SpecialStage(ShootStage(JumpStage(Steer(s1, k), k), k), k)
  }

  // -------------------------------------------------------------- physics

  /** Samurai.apply_gravity. */
  function ApplyGravity(s: FighterState): FighterState
  {
    var v := s.body.velY + GRAVITY;
    s.(body := s.body.(velY := if v > TERMINAL_VEL then TERMINAL_VEL else v))
  }

  /** Index of the first platform box overlaps, in the order the platforms are listed. */
  function FirstOverlap(box: Rect, plats: seq<Rect>): (r: Option<nat>)
    ensures r.Some? ==> r.value < |plats| && Overlaps(box, plats[r.value])
    ensures r.Some? ==> forall j :: 0 <= j < r.value ==> !Overlaps(box, plats[j])
    ensures r.None? ==> forall j :: 0 <= j < |plats| ==> !Overlaps(box, plats[j])
  {
    if plats == [] then None
    else
      var f := FirstOverlap(box, plats[..|plats| - 1]);
      if f.Some? then f
      else if Overlaps(box, plats[|plats| - 1]) then Some(|plats| - 1)
      else None
  }

  /** Standing on platform p: the sprite's bottom on p's top, vertical motion stopped. */
  function Land(s: FighterState, p: Rect): FighterState
  {
    var top := p.y - s.body.rect.h;
    s.(body := s.body.(rect := s.body.rect.(y := top), y := top * SCALE, velY := 0, onGround := true),
       pose := s.pose.(isJumping := false))
  }

  /** Ungrounded: no platform stopped the fighter this frame. */
  function Unground(s: FighterState): FighterState
  {
    s.(body := s.body.(onGround := false))
  }

  /** Samurai.handle_collision: a descending fighter lands on the first platform it overlaps. */
  function HandleCollision(s: FighterState, plats: seq<Rect>): FighterState
  {
    if s.body.velY > 0 then
      match FirstOverlap(s.body.rect, plats)
      case Some(i) => Land(s, plats[i])
      case None => Unground(s)
    else Unground(s)
  }

  /**
   * The platform loop exactly as written: every platform is tested against
   * the state the previous platforms left, and collided records a landing.
   */
  function Sweep(s: FighterState, plats: seq<Rect>, collided: bool): FighterState
    decreases |plats|
  {
    if plats == [] then (if collided then s else Unground(s))
    else if s.body.velY > 0 && Overlaps(s.body.rect, plats[0]) then Sweep(Land(s, plats[0]), plats[1..], true)
    else Sweep(s, plats[1..], collided)
  }

  // --------------------------------------------------------------- update

  /** Velocity is applied and the position clamped to the arena, unless hurting. */
  function Move(b: Body, hurting: bool): Body
  {
    if hurting then b
    else b.(x := Clamp(b.x + b.velX, (WIDTH - b.rect.w) * SCALE),
            y := Clamp(b.y + b.velY, (HEIGHT - b.rect.h) * SCALE))
  }

  /**
   * The animation advances; an attack, jump or hurt ends when the index
   * reaches the cycle length, a jump only once the fighter is falling.
   */
  function Animate(p: Pose, velY: int, frames: Frames): Pose
  {
    var t := p.(index := p.index + p.animRate);
    var done := t.index >= frames.Length(t.anim) * SCALE;
    if t.isAttacking then
      (if done then t.(index := 0, isAttacking := false, anim := Idle, animRate := IDLE_RATE) else t)
    else if t.isJumping then
      (if !done then t
       else if velY > 0 then t.(index := 0, anim := Idle, animRate := IDLE_RATE, isJumping := false)
       else t.(index := 0))
    else if t.isHurting then
      (if done then t.(index := 0, isHurting := false, animRate := IDLE_RATE) else t)
    else t
  }

  /** With no attack, jump or hurt in progress, the run or idle cycle is chosen from velX. */
  function Settle(p: Pose, velX: int): Pose
  {
    if !p.isAttacking && !p.isJumping && !p.isHurting then
      (if velX != 0 then p.(anim := Run, animRate := RUN_RATE) else p.(anim := Idle, animRate := IDLE_RATE))
    else p
  }

  /** The cooldown counts down; the combo lapses 2000 ms after the last landed hit. */
  function Timers(st: Stats, now: int): Stats
  {
    var c := if st.cooldown > 0 then st.cooldown - 1 else st.cooldown;
    var combo := if st.combo > 0 && now - st.lastHitTime > COMBO_WINDOW then 0 else st.combo;
    st.(cooldown := c, combo := combo)
  }

  /** The sprite rectangle follows the position: int(x), int(y). */
  function Place(b: Body): Body
  {
    b.(rect := b.rect.(x := ToPixel(b.x), y := ToPixel(b.y)))
  }

  /** Passive meter charge while below the maximum. */
  function Recharge(st: Stats): Stats
  {
    if st.meter < MAX_SPECIAL then
      var m := st.meter + METER_REGEN;
      st.(meter := m, specialReady := if m >= MAX_SPECIAL && !st.specialReady then true else st.specialReady)
    else st
  }

  /**
   * Samurai.update, at clock reading now (milliseconds). The phases touch
   * disjoint parts of the state; the one cross-reading (the jump ending on
   * velY, the idle/run choice on velX) reads velocities no phase changes.
   */
  function Update(s: FighterState, now: int): FighterState
  {
    s.(body := Place(Move(s.body, s.pose.isHurting)),
       pose := Settle(Animate(s.pose, s.body.velY, s.frames), s.body.velX),
       stats := Recharge(Timers(s.stats, now)),
       projectiles := AdvanceAll(s.projectiles))
  }

  // --------------------------------------------------------------- damage

  /** A hit takes effect only on a fighter that is alive and not already hurting. */
  predicate Vulnerable(s: FighterState)
  {
    !s.pose.isHurting && s.stats.health > 0
  }

  /** The defender's side of Samurai.take_damage. */
  function TakeDamage(s: FighterState, amount: int, now: int): FighterState
  {
    if Vulnerable(s) then
      s.(stats := s.stats.(health := Max(0, s.stats.health - amount), hurtTimer := now),
         pose := s.pose.(isHurting := true, index := 0, anim := Hurt, animRate := HURT_RATE))
    else s
  }

  /** The attacker's side of Samurai.take_damage: one more combo hit and 10 meter, capped. */
  function CreditHit(a: FighterState, now: int): FighterState
  {
    a.(stats := a.stats.(combo := a.stats.combo + 1, lastHitTime := now,
                         meter := Min(MAX_SPECIAL, a.stats.meter + HIT_METER_GAIN)))
  }
}
