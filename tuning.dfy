/**
 * The game's tuning constants. Every fractional quantity of the game (positions,
 * velocities, gravity, the special meter, animation progress) is kept in
 * integer hundredths, so 0.8 px/frame is 80 and a meter of 100 is 10000.
 */
module Tuning {
  /** Arena size in pixels. */
  const WIDTH: int := 1280
  const HEIGHT: int := 720

  /** One whole unit expressed in hundredths. */
  const SCALE: int := 100

  /** Vertical acceleration per frame (0.8) and the terminal fall speed (10). */
  const GRAVITY: int := 80
  const TERMINAL_VEL: int := 1000

  /** Horizontal run speed (6) and the upward jump velocity (-16). */
  const RUN_SPEED: int := 600
  const JUMP_POWER: int := -1600

  const MAX_HEALTH: int := 100

  /** Frames between two normal attacks. */
  const ATTACK_COOLDOWN: int := 25

  /** Special meter: its maximum (100), passive gain per frame (0.1), gain per landed hit (10). */
  const MAX_SPECIAL: int := 10000
  const METER_REGEN: int := 10
  const HIT_METER_GAIN: int := 1000

  /** Projectiles: pixels per update, damage per hit, box size, spawn offsets. */
  const PROJECTILE_SPEED: int := 10
  const PROJECTILE_DAMAGE: int := 10
  const PROJECTILE_W: int := 20
  const PROJECTILE_H: int := 10
  const MUZZLE_OFFSET: int := 40
  const SPREAD: int := 20

  /** Milliseconds after the last landed hit before the combo counter resets. */
  const COMBO_WINDOW: int := 2000

  /** Animation rates in hundredths of an image per frame. */
  const IDLE_RATE: int := 15
  const RUN_RATE: int := 20
  const ATTACK_RATE: int := 30
  const JUMP_RATE: int := 20
  const HURT_RATE: int := 25
  /** A special attack plays the attack animation 1.5 times faster (0.3 * 1.5). */
  const SPECIAL_RATE: int := 45
  /** Rate used before any rate has been chosen. */
  const DEFAULT_RATE: int := 20
}
