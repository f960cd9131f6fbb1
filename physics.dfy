/**
 * Movement rules the two `Player` classes share: the horizontal screen clamp and one
 * frame of gravity followed by the ground clamp. Python's float arithmetic on `y` and
 * `vel_y` is modelled with exact reals.
 */
module Physics {
  import Worlds
  import Sprites

  const GRAVITY: real := 0.8
  const JUMP_FORCE := -15
  const PLAYER_SPEED := 5
  /** The largest `x` that keeps the 32-pixel-wide player on the screen. */
  const MAX_X := Worlds.SCREEN_WIDTH - Sprites.CHARACTER_WIDTH
  /** The `y` at which the 48-pixel-tall player stands on the bottom of the screen. */
  const FLOOR_Y := Worlds.SCREEN_HEIGHT - Sprites.CHARACTER_HEIGHT

  /** `if x < 0: x = 0` then `if x > SCREEN_WIDTH - width: x = SCREEN_WIDTH - width`. */
  function ClampX(v: int): (r: int)
    ensures 0 <= r <= MAX_X
    ensures 0 <= v <= MAX_X ==> r == v
    ensures v < 0 ==> r == 0
    ensures v > MAX_X ==> r == MAX_X
  {
    var kept := if v < 0 then 0 else v;
    if kept > MAX_X then MAX_X else kept
  }

  /** The outcome of one frame of vertical motion. */
  datatype Fall = Fall(y: real, velY: real, landed: bool)

  /**
   * `vel_y += GRAVITY; y += vel_y`, then the ground collision: passing below the floor puts
   * the player back on it with no vertical speed.
   */
  function ApplyGravity(y: real, velY: real): (f: Fall)
    ensures f.y <= FLOOR_Y as real
    ensures f.landed <==> y + velY + GRAVITY > FLOOR_Y as real
    ensures f.landed ==> f.y == FLOOR_Y as real && f.velY == 0.0
    ensures !f.landed ==> f.velY == velY + GRAVITY && f.y == y + f.velY
  {
    var v := velY + GRAVITY;
    var y' := y + v;
    if y' > FLOOR_Y as real then Fall(FLOOR_Y as real, 0.0, true) else Fall(y', v, false)
  }

  /** A player standing on the floor stays there, frame after frame. */
  lemma {:induction false} StandingIsStable(frames: nat)
    ensures FallFrames(FLOOR_Y as real, 0.0, frames) == (FLOOR_Y as real, 0.0)
    decreases frames
  {
    if frames > 0 {
      StandingIsStable(frames - 1);
    }
  }

  /** Position and speed after `frames` frames of gravity with the ground clamp. */
  function FallFrames(y: real, velY: real, frames: nat): (real, real)
    decreases frames
  {
    if frames == 0 then (y, velY)
    else var f := ApplyGravity(y, velY); FallFrames(f.y, f.velY, frames - 1)
  }
}
