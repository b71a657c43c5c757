/**
 * The input-to-velocity step at the top of every per-frame update from 04 on:
 * `change_x` is reset to 0 and set from the left/right flags, and `change_y`
 * is set only by a jump (or, in the variants that have it, by DOWN).
 */
module Velocity {
  import opened Keys
  import opened Sprites

  /**
   * The constants of one variant: PLAYER_MOVEMENT_SPEED, PLAYER_JUMP_SPEED,
   * and whether the vertical `if` has the `elif down and not up` branch
   * (the final game's does not).
   */
  datatype Tuning = Tuning(speed: real, jumpSpeed: real, downBranch: bool)

  /** `change_x`: reset to 0, then `-speed` or `+speed` by the `if`/`elif` on the flags. */
  function ChangeX(f: Flags, speed: real): (vx: real)
    requires 0.0 < speed
    ensures vx == -speed <==> f.left && !f.right
    ensures vx == speed <==> f.right && !f.left
    ensures vx == 0.0 <==> f.left == f.right
  {
    if f.left && !f.right then -speed
    else if f.right && !f.left then speed
    else 0.0
  }

  /** The player after input resolution, and whether a jump (and its sound) happened. */
  datatype Resolved = Resolved(player: Sprite, jumped: bool)

  /** The whole input step: velocity from the flags and the physics engine's `can_jump()`. */
  function Resolve(t: Tuning, f: Flags, canJump: bool, p: Sprite): (r: Resolved)
    requires 0.0 < t.speed
    ensures r.player == p.(changeX := r.player.changeX, changeY := r.player.changeY)
    ensures r.player.changeX == ChangeX(f, t.speed)
    ensures r.jumped <==> f.up && !f.down && canJump
    ensures r.jumped ==> r.player.changeY == t.jumpSpeed
    ensures t.downBranch && f.down && !f.up ==> r.player.changeY == -t.speed
    ensures !r.jumped && !(t.downBranch && f.down && !f.up) ==> r.player.changeY == p.changeY
  {
    var jumped := f.up && !f.down && canJump;
    var vy :=
      if f.up && !f.down then (if canJump then t.jumpSpeed else p.changeY)
      else if t.downBranch && f.down && !f.up then -t.speed
      else p.changeY;
    Resolved(p.(changeX := ChangeX(f, t.speed), changeY := vy), jumped)
  }

  /**
   * No latching: with the same flags and the same starting velocity, a
   * frame where `can_jump()` is false injects nothing, whatever the frame
   * before did.
   */
  lemma NoJumpWithoutGround(t: Tuning, f: Flags, p: Sprite)
    requires 0.0 < t.speed
    ensures !Resolve(t, f, false, p).jumped
    ensures Resolve(t, f, false, p).player.changeY == (if t.downBranch && f.down && !f.up then -t.speed else p.changeY)
  {
  }
}
