/**
 * `MyGame` of the 06 coins-and-sound tutorial step: the 05 controller plus a
 * row of five coins that disappear (with a sound) when touched, and a jump
 * sound.  There is no score yet.
 */
module CoinsAndSound {
  import opened Options
  import opened Numbers
  import opened Keys
  import opened Sprites
  import opened Velocity
  import opened Camera
  import opened Audio
  import opened Coins

  const PlayerMovementSpeed: real := 3.0
  const PlayerJumpSpeed: real := 15.0
  const LeftViewportMargin: real := 250.0
  const RightViewportMargin: real := 250.0
  const BottomViewportMargin: real := 50.0
  const TopViewportMargin: real := 100.0

  const Controls := Tuning(PlayerMovementSpeed, PlayerJumpSpeed, true)
  const ViewMargins := Margins(LeftViewportMargin, RightViewportMargin, BottomViewportMargin, TopViewportMargin)

  class Game {
    /** Size of the player image at CHARACTER_SCALING. */
    const playerWidth: real
    const playerHeight: real

    var upPressed: bool
    var downPressed: bool
    var leftPressed: bool
    var rightPressed: bool
    var player: Sprite
    var viewLeft: real
    var viewBottom: real
    var coins: set<Coin>
    var sounds: seq<Sound>

    function Held(): Flags
      reads this
    {
      Flags(upPressed, downPressed, leftPressed, rightPressed)
    }

    /** The camera offsets are whole numbers between frames. */
    ghost predicate Valid()
      reads this
    {
      IsIntegral(viewLeft) && IsIntegral(viewBottom)
    }

    /** `__init__`, then the `setup()` call that `main()` makes. */
    constructor (playerWidth: real, playerHeight: real)
      ensures Valid()
      ensures this.playerWidth == playerWidth && this.playerHeight == playerHeight
      ensures Held() == NoKeys && viewLeft == 0.0 && viewBottom == 0.0
      ensures player == NewSprite(64.0, 128.0, playerWidth, playerHeight)
      ensures coins == FiveCoins && sounds == []
    {
      this.playerWidth := playerWidth;
      this.playerHeight := playerHeight;
      upPressed, downPressed, leftPressed, rightPressed := false, false, false, false;
      viewBottom, viewLeft := 0.0, 0.0;
      sounds := [];
      new;
      Setup();
    }

    /** `setup()`: camera back to (0, 0), a new player at (64, 128), a coin every 256 pixels from x = 128. */
    method Setup()
      modifies this`viewLeft, this`viewBottom, this`player, this`coins
      ensures Valid()
      ensures viewLeft == 0.0 && viewBottom == 0.0
      ensures player == NewSprite(64.0, 128.0, playerWidth, playerHeight)
      ensures coins == FiveCoins
    {
      viewBottom := 0.0;
      viewLeft := 0.0;
      player := NewSprite(64.0, 128.0, playerWidth, playerHeight);
      coins := PlaceCoins();
    }

    /** `on_key_press`: UP/W/SPACE, DOWN/S, LEFT/A, RIGHT/D. */
    method OnKeyPress(key: Key)
      modifies this`upPressed, this`downPressed, this`leftPressed, this`rightPressed
      ensures Held() == Press(old(Held()), key, true)
    {
      if key == Up || key == W || key == Space {
        upPressed := true;
      } else if key == Down || key == S {
        downPressed := true;
      } else if key == Left || key == A {
        leftPressed := true;
      } else if key == Right || key == D {
        rightPressed := true;
      }
    }

    /** `on_key_release`: UP/W, DOWN/S, LEFT/A, RIGHT/D; SPACE is not among them. */
    method OnKeyRelease(key: Key)
      modifies this`upPressed, this`downPressed, this`leftPressed, this`rightPressed
      ensures Held() == Release(old(Held()), key, true)
    {
      if key == Up || key == W {
        upPressed := false;
      } else if key == Down || key == S {
        downPressed := false;
      } else if key == Left || key == A {
        leftPressed := false;
      } else if key == Right || key == D {
        rightPressed := false;
      }
    }

    /**
     * `update(delta_time)`: velocity from the flags (with the jump sound),
     * the physics step, the coins hit, then the camera.  The physics step
     * and the coin hit list are parameters standing for the library.
     */
    method Update(canJump: bool, physics: Sprite -> Sprite, coinHitList: seq<Coin>) returns (published: Option<Rect>)
      requires Valid()
      modifies this`player, this`viewLeft, this`viewBottom, this`coins, this`sounds
      ensures Valid()
      ensures var r := Resolve(Controls, Held(), canJump, old(player));
              && player == physics(r.player)
              && sounds == old(sounds) + (if r.jumped then [JumpSound] else []) + Repeat(CoinSound, |coinHitList|)
      ensures coins == Remaining(old(coins), coinHitList)
      ensures var sc := Scroll(ViewMargins, old(View(viewLeft, viewBottom)), player, false);
              View(viewLeft, viewBottom) == Settle(sc) && published == Publish(sc)
    {
      ResolveInput(canJump);
      player := physics(player);
      CollectCoins(coinHitList);
      published := ScrollViewport();
    }

    /** Top of `update`: velocity from the flags, and the jump sound when the jump fires. */
    method ResolveInput(canJump: bool)
      modifies this`player, this`sounds
      ensures var r := Resolve(Controls, Held(), canJump, old(player));
              player == r.player && sounds == old(sounds) + (if r.jumped then [JumpSound] else [])
    {
      player := player.(changeX := 0.0);
      if upPressed && !downPressed {
        if canJump {
          player := player.(changeY := PlayerJumpSpeed);
          sounds := sounds + [JumpSound];
        }
      } else if downPressed && !upPressed {
        player := player.(changeY := -PlayerMovementSpeed);
      }
      if leftPressed && !rightPressed {
        player := player.(changeX := -PlayerMovementSpeed);
      } else if rightPressed && !leftPressed {
        player := player.(changeX := PlayerMovementSpeed);
      }
    }

    /** The loop over `coin_hit_list`: remove the coin and play the coin sound. */
    method CollectCoins(coinHitList: seq<Coin>)
      modifies this`coins, this`sounds
      ensures coins == Remaining(old(coins), coinHitList)
      ensures sounds == old(sounds) + Repeat(CoinSound, |coinHitList|)
      ensures HitsFromList(old(coins), coinHitList) ==> |old(coins) - coins| == |coinHitList|
    {
      RemovedCountIf(coins, coinHitList);
      for i := 0 to |coinHitList|
        invariant coins == old(coins) - (set c | c in coinHitList[..i])
        invariant sounds == old(sounds) + Repeat(CoinSound, i)
      {
        var coin := coinHitList[i];
        assert coinHitList[..i + 1] == coinHitList[..i] + [coin];
        coins := coins - {coin};
        sounds := sounds + [CoinSound];
      }
      assert coinHitList[..|coinHitList|] == coinHitList;
    }

    /** The four camera rules, then truncation and `set_viewport` if any of them fired. */
    method ScrollViewport() returns (published: Option<Rect>)
      modifies this`viewLeft, this`viewBottom
      ensures var sc := Scroll(ViewMargins, old(View(viewLeft, viewBottom)), player, false);
              View(viewLeft, viewBottom) == Settle(sc) && published == Publish(sc)
    {
      var changed := false;
      var leftBoundary := viewLeft + LeftViewportMargin;
      if player.Left() < leftBoundary {
        viewLeft := viewLeft - (leftBoundary - player.Left());
        changed := true;
      }
      var rightBoundary := viewLeft + ScreenWidth as real - RightViewportMargin;
      if player.Right() > rightBoundary {
        viewLeft := viewLeft + (player.Right() - rightBoundary);
        changed := true;
      }
      var topBoundary := viewBottom + ScreenHeight as real - TopViewportMargin;
      if player.Top() > topBoundary {
        viewBottom := viewBottom + (player.Top() - topBoundary);
        changed := true;
      }
      var bottomBoundary := viewBottom + BottomViewportMargin;
      if player.Bottom() < bottomBoundary {
        viewBottom := viewBottom - (bottomBoundary - player.Bottom());
        changed := true;
      }
      if changed {
        var b := Trunc(viewBottom);
        viewBottom := b as real;
        var l := Trunc(viewLeft);
        viewLeft := l as real;
        published := Some(Rect(l, ScreenWidth + l, b, ScreenHeight + b));
      } else {
        published := None;
      }
    }
  }

  /** The coins `for x in range(x, 1250, 256)` places, at height 96. */
  function CoinRow(x: int): set<Coin>
    decreases 1250 - x
  {
    if x >= 1250 then {} else {Coin(x as real, 96.0)} + CoinRow(x + 256)
  }

  /** The coin loop of `setup`: one coin every 256 pixels from x = 128 while x < 1250, all at y = 96. */
  method PlaceCoins() returns (coins: set<Coin>)
    ensures coins == FiveCoins
  {
    coins := {};
    var x := 128;
    while x < 1250
      invariant coins + CoinRow(x) == CoinRow(128)
      decreases 1250 - x
    {
      coins := coins + {Coin(x as real, 96.0)};
      x := x + 256;
    }
    CoinRowIsFiveCoins();
  }

  const FiveCoins: set<Coin> :=
    {Coin(128.0, 96.0), Coin(384.0, 96.0), Coin(640.0, 96.0), Coin(896.0, 96.0), Coin(1152.0, 96.0)}

  /** `range(128, 1250, 256)` is 128, 384, 640, 896, 1152: exactly five coins. */
  lemma CoinRowIsFiveCoins()
    ensures CoinRow(128) == FiveCoins && |FiveCoins| == 5
  {
    assert CoinRow(1408) == {};
    assert CoinRow(1152) == {Coin(1152.0, 96.0)};
  }

  /**
   * Collecting with a hit list as the collision test returns it plays one
   * coin sound per coin that leaves the layer, and a coin that left cannot
   * sound again in a later frame.
   */
  lemma OneSoundPerCoin(coins: set<Coin>, hits: seq<Coin>)
    requires HitsFromList(coins, hits)
    ensures |Repeat(CoinSound, |hits|)| == |coins - Remaining(coins, hits)|
    ensures forall later: seq<Coin> :: HitsFromList(Remaining(coins, hits), later) ==>
              forall x :: x in hits ==> x !in later
  {
    RemovedCount(coins, hits);
  }
}
