/**
 * `MyGame` of the 05 scrolling tutorial step: key flags with DOWN, velocity
 * from the flags, and the margin-following camera with margins
 * 250/250/50/100.  No coins, score or levels yet.
 */
module Scrolling {
  import opened Options
  import opened Numbers
  import opened Keys
  import opened Sprites
  import opened Velocity
  import opened Camera

  const PlayerMovementSpeed: real := 3.0
  const PlayerJumpSpeed: real := 15.0
  const LeftViewportMargin: real := 250.0
  const RightViewportMargin: real := 250.0
  const BottomViewportMargin: real := 50.0
  const TopViewportMargin: real := 100.0

  const Controls := Tuning(PlayerMovementSpeed, PlayerJumpSpeed, true)
  const ViewMargins := Margins(LeftViewportMargin, RightViewportMargin, BottomViewportMargin, TopViewportMargin)

  class Game {
    /** Size of the player image at CHARACTER_SCALING. */
    const playerWidth: real
    const playerHeight: real

    var upPressed: bool
    var downPressed: bool
    var leftPressed: bool
    var rightPressed: bool
    var player: Sprite
    var viewLeft: real
    var viewBottom: real

    function Held(): Flags
      reads this
    {
      Flags(upPressed, downPressed, leftPressed, rightPressed)
    }

    /** The camera offsets are whole numbers between frames. */
    ghost predicate Valid()
      reads this
    {
      IsIntegral(viewLeft) && IsIntegral(viewBottom)
    }

    /** `__init__`, then the `setup()` call that `main()` makes. */
    constructor (playerWidth: real, playerHeight: real)
      ensures Valid()
      ensures this.playerWidth == playerWidth && this.playerHeight == playerHeight
      ensures Held() == NoKeys && viewLeft == 0.0 && viewBottom == 0.0
      ensures player == NewSprite(64.0, 96.0, playerWidth, playerHeight)
    {
      this.playerWidth := playerWidth;
      this.playerHeight := playerHeight;
      upPressed, downPressed, leftPressed, rightPressed := false, false, false, false;
      viewBottom, viewLeft := 0.0, 0.0;
      new;
      Setup();
    }

    /** `setup()`: camera back to (0, 0), a new player at (64, 96). */
    method Setup()
      modifies this`viewLeft, this`viewBottom, this`player
      ensures Valid()
      ensures viewLeft == 0.0 && viewBottom == 0.0
      ensures player == NewSprite(64.0, 96.0, playerWidth, playerHeight)
    {
      viewBottom := 0.0;
      viewLeft := 0.0;
      player := NewSprite(64.0, 96.0, playerWidth, playerHeight);
    }

    /** `on_key_press`: UP/W/SPACE, DOWN/S, LEFT/A, RIGHT/D. */
    method OnKeyPress(key: Key)
      modifies this`upPressed, this`downPressed, this`leftPressed, this`rightPressed
      ensures Held() == Press(old(Held()), key, true)
    {
      if key == Up || key == W || key == Space {
        upPressed := true;
      } else if key == Down || key == S {
        downPressed := true;
      } else if key == Left || key == A {
        leftPressed := true;
      } else if key == Right || key == D {
        rightPressed := true;
      }
    }

    /** `on_key_release`: UP/W, DOWN/S, LEFT/A, RIGHT/D; SPACE is not among them. */
    method OnKeyRelease(key: Key)
      modifies this`upPressed, this`downPressed, this`leftPressed, this`rightPressed
      ensures Held() == Release(old(Held()), key, true)
    {
      if key == Up || key == W {
        upPressed := false;
      } else if key == Down || key == S {
        downPressed := false;
      } else if key == Left || key == A {
        leftPressed := false;
      } else if key == Right || key == D {
        rightPressed := false;
      }
    }

    /**
     * `on_update(delta_time)`: velocity from the flags, the physics step
     * (a parameter standing for the library), then the camera.
     */
    method OnUpdate(canJump: bool, physics: Sprite -> Sprite) returns (published: Option<Rect>)
      requires Valid()
      modifies this`player, this`viewLeft, this`viewBottom
      ensures Valid()
      ensures player == physics(Resolve(Controls, Held(), canJump, old(player)).player)
      ensures var sc := Scroll(ViewMargins, old(View(viewLeft, viewBottom)), player, false);
              View(viewLeft, viewBottom) == Settle(sc) && published == Publish(sc)
    {
      player := player.(changeX := 0.0);
      if upPressed && !downPressed {
        if canJump {
          player := player.(changeY := PlayerJumpSpeed);
        }
      } else if downPressed && !upPressed {
        player := player.(changeY := -PlayerMovementSpeed);
      }
      if leftPressed && !rightPressed {
        player := player.(changeX := -PlayerMovementSpeed);
      } else if rightPressed && !leftPressed {
        player := player.(changeX := PlayerMovementSpeed);
      }
      player := physics(player);
      published := ScrollViewport();
    }

    /** The four camera rules, then truncation and `set_viewport` if any of them fired. */
    method ScrollViewport() returns (published: Option<Rect>)
      modifies this`viewLeft, this`viewBottom
      ensures var sc := Scroll(ViewMargins, old(View(viewLeft, viewBottom)), player, false);
              View(viewLeft, viewBottom) == Settle(sc) && published == Publish(sc)
    {
      var changed := false;
      var leftBoundary := viewLeft + LeftViewportMargin;
      if player.Left() < leftBoundary {
        viewLeft := viewLeft - (leftBoundary - player.Left());
        changed := true;
      }
      var rightBoundary := viewLeft + ScreenWidth as real - RightViewportMargin;
      if player.Right() > rightBoundary {
        viewLeft := viewLeft + (player.Right() - rightBoundary);
        changed := true;
      }
      var topBoundary := viewBottom + ScreenHeight as real - TopViewportMargin;
      if player.Top() > topBoundary {
        viewBottom := viewBottom + (player.Top() - topBoundary);
        changed := true;
      }
      var bottomBoundary := viewBottom + BottomViewportMargin;
      if player.Bottom() < bottomBoundary {
        viewBottom := viewBottom - (bottomBoundary - player.Bottom());
        changed := true;
      }
      if changed {
        var b := Trunc(viewBottom);
        viewBottom := b as real;
        var l := Trunc(viewLeft);
        viewLeft := l as real;
        published := Some(Rect(l, ScreenWidth + l, b, ScreenHeight + b));
      } else {
        published := None;
      }
    }
  }

  /**
   * The camera of this script, rule by rule: a rule that fires moves the
   * offset only in its own direction and puts the crossed edge of the player
   * exactly on its boundary (left 250, right 750, top 550, bottom 50 pixels
   * from the offset).
   */
  lemma RulesLandOnBoundaries(v: View, p: Sprite)
    ensures var l := ScrollLeft(ViewMargins, v.left, p);
            p.Left() < v.left + 250.0 ==> l < v.left && l + 250.0 == p.Left()
    ensures var r := ScrollRight(ViewMargins, v.left, p);
            p.Right() > v.left + 750.0 ==> r > v.left && r + 750.0 == p.Right()
    ensures var u := ScrollUp(ViewMargins, v.bottom, p);
            p.Top() > v.bottom + 550.0 ==> u > v.bottom && u + 550.0 == p.Top()
    ensures var d := ScrollDown(ViewMargins, v.bottom, p);
            p.Bottom() < v.bottom + 50.0 ==> d < v.bottom && d + 50.0 == p.Bottom()
  {
  }
}
