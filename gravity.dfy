/**
 * The 04 gravity tutorial step: a `Player` sprite class whose `update` keeps
 * the sprite on the screen, and `MyGame` with key flags and velocity from
 * them.  The window is SCREEN_WIDTH x SCREEN_HEIGHT (1000 x 650) and never
 * scrolls.
 */
module Gravity {
  import opened Keys
  import opened Sprites
  import opened Velocity
  import opened Camera

  const PlayerMovementSpeed: real := 5.0
  const PlayerJumpSpeed: real := 20.0

  const Controls := Tuning(PlayerMovementSpeed, PlayerJumpSpeed, true)

  /** The largest x and y a sprite edge may have: SCREEN_WIDTH - 1 and SCREEN_HEIGHT - 1. */
  const MaxX: real := ScreenWidth as real - 1.0
  const MaxY: real := ScreenHeight as real - 1.0

  /**
   * What `Player.update` does to a sprite.  Each axis is an `if`/`elif`: the
   * right (top) edge is pulled in only when the left (bottom) edge was not
   * already out.  Setting an edge moves the centre by the distance the edge
   * has to travel.
   */
  function Clamped(s: Sprite): (r: Sprite)
    ensures r.width == s.width && r.height == s.height && r.changeX == s.changeX && r.changeY == s.changeY
    ensures s.Left() < 0.0 ==> r.Left() == 0.0
    ensures 0.0 <= s.Left() && s.Right() > MaxX ==> r.Right() == MaxX
    ensures 0.0 <= s.Left() && s.Right() <= MaxX ==> r.centerX == s.centerX
    ensures s.Bottom() < 0.0 ==> r.Bottom() == 0.0
    ensures 0.0 <= s.Bottom() && s.Top() > MaxY ==> r.Top() == MaxY
    ensures 0.0 <= s.Bottom() && s.Top() <= MaxY ==> r.centerY == s.centerY
    ensures 0.0 <= s.width <= MaxX ==> 0.0 <= r.Left()
    ensures 0.0 <= s.height <= MaxY ==> 0.0 <= r.Bottom()
  {
    var x :=
      if s.Left() < 0.0 then s.centerX + (0.0 - s.Left())
      else if s.Right() > MaxX then s.centerX + (MaxX - s.Right())
      else s.centerX;
    var y :=
      if s.Bottom() < 0.0 then s.centerY + (0.0 - s.Bottom())
      else if s.Top() > MaxY then s.centerY + (MaxY - s.Top())
      else s.centerY;
    s.At(x, y)
  }

  /** A sprite already on the screen is left where it is. */
  lemma OnScreenUnchanged(s: Sprite)
    requires 0.0 <= s.Left() && s.Right() <= MaxX && 0.0 <= s.Bottom() && s.Top() <= MaxY
    ensures Clamped(s) == s
  {
  }

  /** For a sprite that fits on the screen, clamping twice is clamping once. */
  lemma ClampIdempotent(s: Sprite)
    requires 0.0 <= s.width <= MaxX && 0.0 <= s.height <= MaxY
    ensures Clamped(Clamped(s)) == Clamped(s)
  {
    OnScreenUnchanged(Clamped(s));
  }

  /**
   * Because of the `elif`, a sprite wider than the screen that sticks out on
   * both sides only gets its left edge pulled in: its right edge stays out.
   */
  lemma WideSpriteStaysOutOnTheRight()
    ensures var s := Sprite(500.0, 300.0, 0.0, 0.0, 1200.0, 10.0);
            s.Left() < 0.0 && Clamped(s).Left() == 0.0 && Clamped(s).Right() > MaxX
  {
  }

  /** `class Player(arcade.Sprite)`: the player sprite of this step. */
  class Player {
    var centerX: real
    var centerY: real
    var changeX: real
    var changeY: real
    var width: real
    var height: real

    function AsSprite(): Sprite
      reads this
    {
      Sprite(centerX, centerY, changeX, changeY, width, height)
    }

    /** A new sprite of the given size, at the origin and still. */
    constructor (width: real, height: real)
      ensures AsSprite() == NewSprite(0.0, 0.0, width, height)
    {
      centerX, centerY, changeX, changeY := 0.0, 0.0, 0.0, 0.0;
      this.width, this.height := width, height;
    }

    /** `Player.update`: keep the sprite on the screen. */
    method Update()
      modifies this
      ensures AsSprite() == Clamped(old(AsSprite()))
    {
      if AsSprite().Left() < 0.0 {
        centerX := centerX + (0.0 - AsSprite().Left());
      } else if AsSprite().Right() > MaxX {
        centerX := centerX + (MaxX - AsSprite().Right());
      }
      if AsSprite().Bottom() < 0.0 {
        centerY := centerY + (0.0 - AsSprite().Bottom());
      } else if AsSprite().Top() > MaxY {
        centerY := centerY + (MaxY - AsSprite().Top());
      }
    }

    /** What the physics engine leaves in the sprite after its step. */
    method Assign(s: Sprite)
      modifies this
      ensures AsSprite() == s
    {
      centerX, centerY, changeX, changeY, width, height := s.centerX, s.centerY, s.changeX, s.changeY, s.width, s.height;
    }
  }

  class Game {
    /** Size of the player image at CHARACTER_SCALING. */
    const playerWidth: real
    const playerHeight: real

    var upPressed: bool
    var downPressed: bool
    var leftPressed: bool
    var rightPressed: bool
    var player: Player

    function Held(): Flags
      reads this
    {
      Flags(upPressed, downPressed, leftPressed, rightPressed)
    }

    /** `__init__`, then the `setup()` call that `main()` makes. */
    constructor (playerWidth: real, playerHeight: real)
      ensures this.playerWidth == playerWidth && this.playerHeight == playerHeight
      ensures Held() == NoKeys
      ensures fresh(player) && player.AsSprite() == NewSprite(64.0, 128.0, playerWidth, playerHeight)
    {
      this.playerWidth := playerWidth;
      this.playerHeight := playerHeight;
      upPressed, downPressed, leftPressed, rightPressed := false, false, false, false;
      player := new Player(playerWidth, playerHeight);
      new;
      Setup();
    }

    /** `setup()`: a new `Player` at (64, 128). */
    method Setup()
      modifies this`player
      ensures fresh(player) && player.AsSprite() == NewSprite(64.0, 128.0, playerWidth, playerHeight)
    {
      player := new Player(playerWidth, playerHeight);
      player.centerX := 64.0;
      player.centerY := 128.0;
    }

    /** `on_key_press`: UP/W/SPACE, DOWN/S, LEFT/A, RIGHT/D. */
    method OnKeyPress(key: Key)
      modifies this`upPressed, this`downPressed, this`leftPressed, this`rightPressed
      ensures Held() == Press(old(Held()), key, true)
    {
      if key == Up || key == W || key == Space {
        upPressed := true;
      } else if key == Down || key == S {
        downPressed := true;
      } else if key == Left || key == A {
        leftPressed := true;
      } else if key == Right || key == D {
        rightPressed := true;
      }
    }

    /** `on_key_release`: UP/W, DOWN/S, LEFT/A, RIGHT/D; SPACE is not among them. */
    method OnKeyRelease(key: Key)
      modifies this`upPressed, this`downPressed, this`leftPressed, this`rightPressed
      ensures Held() == Release(old(Held()), key, true)
    {
      if key == Up || key == W {
        upPressed := false;
      } else if key == Down || key == S {
        downPressed := false;
      } else if key == Left || key == A {
        leftPressed := false;
      } else if key == Right || key == D {
        rightPressed := false;
      }
    }

    /**
     * `on_update(delta_time)`: velocity from the flags, then
     * `player_list.update()` (which runs `Player.update`), then the physics
     * engine's step, a parameter standing for the library.
     */
    method OnUpdate(canJump: bool, physics: Sprite -> Sprite)
      modifies player
      ensures player.AsSprite() == physics(Clamped(Resolve(Controls, Held(), canJump, old(player.AsSprite())).player))
    {
      player.changeX := 0.0;
      if upPressed && !downPressed {
        if canJump {
          player.changeY := PlayerJumpSpeed;
        }
      } else if downPressed && !upPressed {
        player.changeY := -PlayerMovementSpeed;
      }
      if leftPressed && !rightPressed {
        player.changeX := -PlayerMovementSpeed;
      } else if rightPressed && !leftPressed {
        player.changeX := PlayerMovementSpeed;
      }
      player.Update();
      player.Assign(physics(player.AsSprite()));
    }
  }
}
