/**
 * `MyGame` of the 09 "endgame" tutorial step: the same frame logic as the
 * final game, but the key handlers and the velocity step also handle DOWN/S.
 */
module Endgame {
  import opened Options
  import opened Numbers
  import opened Keys
  import opened Sprites
  import opened Velocity
  import opened Camera
  import opened Audio
  import opened Coins
  import opened Platformer

  const PlayerMovementSpeed: real := 3.0
  const PlayerJumpSpeed: real := 13.0
  const LeftViewportMargin: real := 200.0
  const RightViewportMargin: real := 200.0
  const BottomViewportMargin: real := 150.0
  const TopViewportMargin: real := 100.0
  const PlayerStartX: real := 64.0
  const PlayerStartY: real := 225.0

  /** This script's constants, for a player image of the given size. */
  function Settings(playerWidth: real, playerHeight: real): Config {
    Config(Tuning(PlayerMovementSpeed, PlayerJumpSpeed, true),
           Margins(LeftViewportMargin, RightViewportMargin, BottomViewportMargin, TopViewportMargin),
           PlayerStartX, PlayerStartY, playerWidth, playerHeight)
  }

  class Game {
    /** The level files `tmx_map/funhouse_level_<n>.tmx`, by level number. */
    const maps: int -> LevelMap
    /** Size of `images/player_1/female_stand.png` at CHARACTER_SCALING. */
    const playerWidth: real
    const playerHeight: real

    var upPressed: bool
    var downPressed: bool
    var leftPressed: bool
    var rightPressed: bool
    var player: Sprite
    var viewLeft: real
    var viewBottom: real
    var score: nat
    var endOfMap: real
    var level: int
    var coins: set<Coin>
    var sounds: seq<Sound>

    function Held(): Flags
      reads this
    {
      Flags(upPressed, downPressed, leftPressed, rightPressed)
    }

    function State(): Session
      reads this
    {
      Session(Held(), player, View(viewLeft, viewBottom), score, level, endOfMap, coins, sounds)
    }

    function Cfg(): Config {
      Settings(playerWidth, playerHeight)
    }

    /** The camera offsets are whole numbers between frames; the level number starts at 1 and only grows. */
    ghost predicate Valid()
      reads this
    {
      IsIntegral(viewLeft) && IsIntegral(viewBottom) && 1 <= level
    }

    /** `__init__`, then the `setup(self.level)` call that `main()` makes before the game runs. */
    constructor (playerWidth: real, playerHeight: real, maps: int -> LevelMap)
      ensures Valid()
      ensures this.maps == maps && this.playerWidth == playerWidth && this.playerHeight == playerHeight
      ensures State() == Platformer.Setup(Cfg(), maps(1), Initial)
    {
      this.maps := maps;
      this.playerWidth := playerWidth;
      this.playerHeight := playerHeight;
      upPressed, downPressed, leftPressed, rightPressed := false, false, false, false;
      viewBottom, viewLeft := 0.0, 0.0;
      score := 0;
      endOfMap := 0.0;
      level := 1;
      sounds := [];
      new;
      Setup(level);
    }

    /** `setup(level)`. */
    method Setup(level: int)
      modifies this`viewLeft, this`viewBottom, this`score, this`player, this`endOfMap, this`coins
      ensures State() == Platformer.Setup(Cfg(), maps(level), old(State()))
    {
      viewBottom := 0.0;
      viewLeft := 0.0;
      score := 0;
      player := NewSprite(PlayerStartX, PlayerStartY, playerWidth, playerHeight);
      var tiles := maps(level);
      endOfMap := tiles.widthTiles as real * GridPixelSize;
      coins := tiles.coins;
    }

    /** `on_key_press`: UP/W/SPACE, DOWN/S, LEFT/A, RIGHT/D. */
    method OnKeyPress(key: Key)
      requires Valid()
      modifies this`upPressed, this`downPressed, this`leftPressed, this`rightPressed
      ensures Valid()
      ensures Held() == Press(old(Held()), key, true)
    {
      if key == Up || key == W || key == Space {
        upPressed := true;
      } else if key == Down || key == S {
        downPressed := true;
      } else if key == Left || key == A {
        leftPressed := true;
      } else if key == Right || key == D {
        rightPressed := true;
      }
    }

    /** `on_key_release`: UP/W, DOWN/S, LEFT/A, RIGHT/D; SPACE is not among them. */
    method OnKeyRelease(key: Key)
      requires Valid()
      modifies this`upPressed, this`downPressed, this`leftPressed, this`rightPressed
      ensures Valid()
      ensures Held() == Release(old(Held()), key, true)
    {
      if key == Up || key == W {
        upPressed := false;
      } else if key == Down || key == S {
        downPressed := false;
      } else if key == Left || key == A {
        leftPressed := false;
      } else if key == Right || key == D {
        rightPressed := false;
      }
    }

    /**
     * `update(delta_time)`.  The library's answers for this frame are
     * parameters: `can_jump()`, the physics step, the coin hit list and
     * whether the player touches the "Don't Touch" layer.  Returns the
     * rectangle passed to `set_viewport`, if it is called.
     */
    method Update(canJump: bool, physics: Sprite -> Sprite, coinHitList: seq<Coin>, hazardHit: bool)
      returns (published: Option<Rect>)
      requires Valid()
      modifies this
      ensures Valid()
      ensures Tick(State(), published) == Step(Cfg(), maps, old(State()), Frame(canJump, physics, coinHitList, hazardHit))
    {
      ghost var before := State();
      ResolveInput(canJump);
      player := physics(player);
      CollectCoins(coinHitList);
      var changedViewport := CheckOutcomes(hazardHit);
      assert (State(), changedViewport) == Outcomes(Cfg(), maps, before, Frame(canJump, physics, coinHitList, hazardHit));
      published := ScrollViewport(changedViewport);
    }

    /** Top of `update`: `change_x` from the flags, a jump when UP is held and the engine allows it, a push down for DOWN. */
    method ResolveInput(canJump: bool)
      modifies this`player, this`sounds
      ensures var r := Resolve(Cfg().tuning, Held(), canJump, old(player));
              player == r.player && sounds == old(sounds) + (if r.jumped then [JumpSound] else [])
    {
      player := player.(changeX := 0.0);
      if upPressed && !downPressed {
        if canJump {
          player := player.(changeY := PlayerJumpSpeed);
          sounds := sounds + [JumpSound];
        }
      } else if downPressed && !upPressed {
        player := player.(changeY := -PlayerMovementSpeed);
      }
      if leftPressed && !rightPressed {
        player := player.(changeX := -PlayerMovementSpeed);
      } else if rightPressed && !leftPressed {
        player := player.(changeX := PlayerMovementSpeed);
      }
    }

    /** The loop over `coin_hit_list`: remove the coin, play the coin sound, add one to the score. */
    method CollectCoins(coinHitList: seq<Coin>)
      modifies this`coins, this`score, this`sounds
      ensures State() == Collect(old(State()), coinHitList)
    {
      for i := 0 to |coinHitList|
        invariant coins == old(coins) - (set c | c in coinHitList[..i])
        invariant score == old(score) + i
        invariant sounds == old(sounds) + Repeat(CoinSound, i)
      {
        var coin := coinHitList[i];
        assert coinHitList[..i + 1] == coinHitList[..i] + [coin];
        coins := coins - {coin};
        sounds := sounds + [CoinSound];
        score := score + 1;
      }
      assert coinHitList[..|coinHitList|] == coinHitList;
    }

    /** The three independent checks: fell off the map, touched a hazard, reached the end of the map. */
    method CheckOutcomes(hazardHit: bool) returns (changedViewport: bool)
      modifies this
      ensures var fallen := Fall(Cfg(), old(State()));
              var hazarded := Hazard(Cfg(), fallen, hazardHit);
              && State() == Advance(Cfg(), maps, hazarded)
              && changedViewport == (Falls(old(State())) || hazardHit || ReachesEnd(hazarded))
    {
      changedViewport := false;
      if player.centerY < -100.0 {
        player := player.(centerX := PlayerStartX, centerY := PlayerStartY);
        viewLeft := 0.0;
        viewBottom := 0.0;
        changedViewport := true;
        sounds := sounds + [GameOverSound];
      }
      if hazardHit {
        player := player.(changeX := 0.0);
        player := player.(changeY := 0.0);
        player := player.(centerX := PlayerStartX, centerY := PlayerStartY);
        viewLeft := 0.0;
        viewBottom := 0.0;
        changedViewport := true;
        sounds := sounds + [GameOverSound];
      }
      if player.centerX >= endOfMap {
        level := level + 1;
        Setup(level);
        viewLeft := 0.0;
        viewBottom := 0.0;
        changedViewport := true;
      }
    }

    /** The four camera rules, then truncation and `set_viewport` when anything marked the viewport dirty. */
    method ScrollViewport(changed: bool) returns (published: Option<Rect>)
      modifies this`viewLeft, this`viewBottom
      ensures var sc := Scroll(Cfg().margins, old(View(viewLeft, viewBottom)), player, changed);
              View(viewLeft, viewBottom) == Settle(sc) && published == Publish(sc)
    {
      var changedViewport := changed;
      var leftBoundary := viewLeft + LeftViewportMargin;
      if player.Left() < leftBoundary {
        viewLeft := viewLeft - (leftBoundary - player.Left());
        changedViewport := true;
      }
      var rightBoundary := viewLeft + ScreenWidth as real - RightViewportMargin;
      if player.Right() > rightBoundary {
        viewLeft := viewLeft + (player.Right() - rightBoundary);
        changedViewport := true;
      }
      var topBoundary := viewBottom + ScreenHeight as real - TopViewportMargin;
      if player.Top() > topBoundary {
        viewBottom := viewBottom + (player.Top() - topBoundary);
        changedViewport := true;
      }
      var bottomBoundary := viewBottom + BottomViewportMargin;
      if player.Bottom() < bottomBoundary {
        viewBottom := viewBottom - (bottomBoundary - player.Bottom());
        changedViewport := true;
      }
      if changedViewport {
        var b := Trunc(viewBottom);
        viewBottom := b as real;
        var l := Trunc(viewLeft);
        viewLeft := l as real;
        published := Some(Rect(l, ScreenWidth + l, b, ScreenHeight + b));
      } else {
        published := None;
      }
    }
  }

  /**
   * With this script's margins (200/200/150/100), a player at most 600 wide
   * and 400 tall is inside the margins once the four rules have run (before
   * truncation).
   */
  lemma FramedBeforeTruncation(v: View, p: Sprite, dirty: bool)
    requires 0.0 <= p.width <= 600.0 && 0.0 <= p.height <= 400.0
    ensures var w := Scroll(Settings(p.width, p.height).margins, v, p, dirty).view;
            && w.left + 200.0 <= p.Left() && p.Right() <= w.left + 800.0
            && w.bottom + 150.0 <= p.Bottom() && p.Top() <= w.bottom + 550.0
  {
    MarginsHold(Settings(p.width, p.height).margins, v, p, dirty);
  }
}
