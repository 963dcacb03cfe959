/** The tuning constants of settings.py:69-92 that the physics reads. */
module Settings {

  /** Friction on the ground when not accelerating. */
  const GROUND_FRICT: real := 0.3
  /** Friction on the ground while accelerating. */
  const MOVING_FRICT: real := 0.07
  const GRAVITY: real := 3.0
  /** Gravity while ascending: a lighter pull makes the jump feel floatier. */
  const GRAVITY_JUMPING: real := 2.0
  /** Largest downward speed. */
  const TERMINAL_VEL: real := 30.0

  const BOX_W: int := 30
  const ENEMY_W: int := 20
  const ENEMY_H: int := 20
  const GOLD_W: int := 20
  const GOLD_H: int := 20
  const PLAYER_W: int := 30
  const PLAYER_H: int := 30
  const PLAYER_SPEED: real := 1.0
  const JUMP_STRENGTH: real := 15.0
  /** Frames after leaving the ground during which a jump still starts. */
  const COYOTE: int := 10
  /** Frames after leaving the ground during which holding jump keeps lifting. */
  const LONG_JUMP: int := 10
}
