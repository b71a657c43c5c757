/**
 * One frame of the two complete games (the final game and the 09 "endgame"
 * tutorial step), as a function of the state before the frame and of what
 * the library reports during it.  The classes in `Funhouse` and `Endgame`
 * are proved to compute exactly this.
 *
 * Order within a frame: resolve velocity, run the physics step, collect
 * coins, then three independent checks (fell, touched a hazard, reached the
 * end of the map), then the four camera rules, then truncation and
 * publication of the viewport.
 */
module Platformer {
  import opened Options
  import opened Numbers
  import opened Keys
  import opened Sprites
  import opened Velocity
  import opened Camera
  import opened Audio
  import opened Coins

  /** SPRITE_PIXEL_SIZE * TILE_SCALING = 128 * 0.5. */
  const GridPixelSize: real := 64.0

  /** A player whose centre is below this height has fallen off the map. */
  const FallLimit: real := -100.0

  /** What the tile map of one level contributes: its width in tiles and its coin layer. */
  datatype LevelMap = LevelMap(widthTiles: nat, coins: set<Coin>)

  /**
   * The constants of one script, plus the size of the player's image, which
   * every `setup` loads again.
   */
  datatype Config = Config(tuning: Tuning, margins: Margins, startX: real, startY: real, playerWidth: real, playerHeight: real)

  predicate ValidConfig(c: Config) {
    0.0 < c.tuning.speed
  }

  /** The fields of `MyGame` that the frame logic reads or writes. */
  datatype Session = Session(
    flags: Flags,
    player: Sprite,
    view: View,
    score: nat,
    level: int,
    endOfMap: real,
    coins: set<Coin>,
    sounds: seq<Sound>)

  /** What the library answers during one frame. */
  datatype Frame = Frame(
    canJump: bool,
    physics: Sprite -> Sprite,   // player_list.update() followed by the physics engine's update()
    coinHits: seq<Coin>,         // check_for_collision_with_list(player, coin_list)
    hazardHit: bool)             // any collision with the "Don't Touch" layer

  /**
   * The fields as `__init__` leaves them: no keys, camera at (0, 0), score 0,
   * level 1.  `player_sprite` and `coin_list` are still `None` there; a
   * still sprite of size 0 and an empty coin set stand in for them until
   * `setup` replaces both.
   */
  const Initial := Session(NoKeys, NewSprite(0.0, 0.0, 0.0, 0.0), View(0.0, 0.0), 0, 1, 0.0, {}, [])

  /** `setup(level)`: camera and score reset, a new player sprite at the start, the level's map loaded. */
  function Setup(c: Config, tiles: LevelMap, s: Session): (r: Session)
    ensures r.view == View(0.0, 0.0) && r.score == 0
    ensures r.player == NewSprite(c.startX, c.startY, c.playerWidth, c.playerHeight)
    ensures r.endOfMap == tiles.widthTiles as real * GridPixelSize && r.coins == tiles.coins
    ensures r.flags == s.flags && r.level == s.level && r.sounds == s.sounds
  {
    s.(view := View(0.0, 0.0),
       score := 0,
       player := NewSprite(c.startX, c.startY, c.playerWidth, c.playerHeight),
       endOfMap := tiles.widthTiles as real * GridPixelSize,
       coins := tiles.coins)
  }

  /**
   * The coin loop: every hit coin leaves the coin list, scores a point and
   * plays a sound.  For a hit list as the collision test returns it, the
   * points gained are the coins removed.
   */
  function Collect(s: Session, hits: seq<Coin>): (r: Session)
    ensures r.coins <= s.coins
    ensures forall c :: c in hits ==> c !in r.coins
    ensures forall c :: c in s.coins && c !in hits ==> c in r.coins
    ensures r.score == s.score + |hits| && r.sounds == s.sounds + Repeat(CoinSound, |hits|)
    ensures HitsFromList(s.coins, hits) ==> r.score == s.score + |s.coins - r.coins|
    ensures r.player == s.player && r.view == s.view && r.level == s.level && r.flags == s.flags
  {
    RemovedCountIf(s.coins, hits);
    s.(coins := Remaining(s.coins, hits),
       score := s.score + |hits|,
       sounds := s.sounds + Repeat(CoinSound, |hits|))
  }

  predicate Falls(s: Session) {
    s.player.centerY < FallLimit
  }

  /** The fall branch: back to the start, camera to (0, 0), game-over sound; velocity untouched. */
  function Fall(c: Config, s: Session): (r: Session)
    ensures Falls(s) ==> r.player == s.player.At(c.startX, c.startY)
    ensures Falls(s) ==> r.view == View(0.0, 0.0) && r.sounds == s.sounds + [GameOverSound]
    ensures !Falls(s) ==> r == s
    ensures r.score == s.score && r.coins == s.coins && r.level == s.level && r.endOfMap == s.endOfMap
  {
    if Falls(s) then
      s.(player := s.player.At(c.startX, c.startY), view := View(0.0, 0.0), sounds := s.sounds + [GameOverSound])
    else s
  }

  /** The hazard branch: velocity zeroed, back to the start, camera to (0, 0), game-over sound. */
  function Hazard(c: Config, s: Session, hit: bool): (r: Session)
    ensures hit ==> r.player.changeX == 0.0 && r.player.changeY == 0.0
    ensures hit ==> r.player.centerX == c.startX && r.player.centerY == c.startY
    ensures hit ==> r.view == View(0.0, 0.0) && r.sounds == s.sounds + [GameOverSound]
    ensures r.player.width == s.player.width && r.player.height == s.player.height
    ensures !hit ==> r == s
    ensures r.score == s.score && r.coins == s.coins && r.level == s.level && r.endOfMap == s.endOfMap
  {
    if hit then
      s.(player := s.player.(changeX := 0.0, changeY := 0.0).At(c.startX, c.startY),
         view := View(0.0, 0.0),
         sounds := s.sounds + [GameOverSound])
    else s
  }

  predicate ReachesEnd(s: Session) {
    s.player.centerX >= s.endOfMap
  }

  /** The level-end branch: next level number, `setup` of that level, camera to (0, 0). */
  function Advance(c: Config, maps: int -> LevelMap, s: Session): (r: Session)
    ensures ReachesEnd(s) ==> r.level == s.level + 1 && r == Setup(c, maps(r.level), s.(level := r.level))
    ensures !ReachesEnd(s) ==> r == s
    ensures r.sounds == s.sounds && r.flags == s.flags
  {
    if ReachesEnd(s) then
      var next := s.(level := s.level + 1);
      Setup(c, maps(next.level), next).(view := View(0.0, 0.0))
    else s
  }

  /** The session as it stands when the camera rules start, and whether the viewport is already dirty. */
  function Outcomes(c: Config, maps: int -> LevelMap, s: Session, fr: Frame): (r: (Session, bool))
    requires ValidConfig(c)
    ensures r.0.level == s.level || r.0.level == s.level + 1
    ensures r.1 <==> Fell(c, s, fr) || fr.hazardHit || r.0.level != s.level
    ensures r.0.flags == s.flags
  {
    var r := Resolve(c.tuning, s.flags, fr.canJump, s.player);
    var moved := s.(player := fr.physics(r.player),
                    sounds := s.sounds + (if r.jumped then [JumpSound] else []));
    var collected := Collect(moved, fr.coinHits);
    var fallen := Fall(c, collected);
    var hazarded := Hazard(c, fallen, fr.hazardHit);
    (Advance(c, maps, hazarded), Falls(collected) || fr.hazardHit || ReachesEnd(hazarded))
  }

  /** A whole frame: the new session and the viewport published, if any. */
  datatype Tick = Tick(session: Session, published: Option<Rect>)

  function Step(c: Config, maps: int -> LevelMap, s: Session, fr: Frame): (r: Tick)
    requires ValidConfig(c)
    ensures r.session.flags == s.flags
    ensures r.published.None? ==> r.session.view == s.view
    ensures r.published.Some? ==>
              && r.published.value.right - r.published.value.left == ScreenWidth
              && r.published.value.top - r.published.value.bottom == ScreenHeight
  {
    var (t, dirty) := Outcomes(c, maps, s, fr);
    var sc := Scroll(c.margins, t.view, t.player, dirty);
    Tick(t.(view := Settle(sc)), Publish(sc))
  }

  /** The player as the physics step leaves it, before the outcome checks. */
  function Moved(c: Config, s: Session, fr: Frame): Sprite
    requires ValidConfig(c)
  {
    fr.physics(Resolve(c.tuning, s.flags, fr.canJump, s.player).player)
  }

  /** Did the player fall this frame (tested after the physics step)? */
  predicate Fell(c: Config, s: Session, fr: Frame)
    requires ValidConfig(c)
  {
    Moved(c, s, fr).centerY < FallLimit
  }

  /**
   * The x-coordinate the level-end test sees: after a fall or a hazard it is
   * already the start position.
   */
  function CheckedX(c: Config, s: Session, fr: Frame): real
    requires ValidConfig(c)
  {
    if Fell(c, s, fr) || fr.hazardHit then c.startX else Moved(c, s, fr).centerX
  }

  /**
   * The level goes up by exactly one when the checked x-coordinate is at or
   * beyond `end_of_map` (inclusive), and otherwise stays.
   */
  lemma StepLevel(c: Config, maps: int -> LevelMap, s: Session, fr: Frame)
    requires ValidConfig(c)
    ensures var l := Step(c, maps, s, fr).session.level;
            && (l == s.level + 1 <==> CheckedX(c, s, fr) >= s.endOfMap)
            && (l == s.level <==> CheckedX(c, s, fr) < s.endOfMap)
  {
  }

  /**
   * Within a level, the score rises by the number of coins hit and exactly
   * the hit coins disappear.  On a level change, `setup` has reset the
   * score, loaded the next map, and put a new, still player at the start.
   */
  lemma StepScoreAndCoins(c: Config, maps: int -> LevelMap, s: Session, fr: Frame)
    requires ValidConfig(c)
    ensures var t := Step(c, maps, s, fr).session;
            && (t.level == s.level ==>
                  && t.score == s.score + |fr.coinHits|
                  && t.coins == s.coins - (set x | x in fr.coinHits)
                  && t.endOfMap == s.endOfMap)
            && (t.level == s.level + 1 ==>
                  && t.score == 0
                  && t.coins == maps(t.level).coins
                  && t.endOfMap == maps(t.level).widthTiles as real * GridPixelSize
                  && t.player == NewSprite(c.startX, c.startY, c.playerWidth, c.playerHeight))
  {
    StepLevel(c, maps, s, fr);
  }

  /**
   * With a hit list as the collision test returns it, a frame on the same
   * level scores one point per coin it removes from the layer, and the
   * coins it removes can never be hit again.
   */
  lemma StepCountsCoins(c: Config, maps: int -> LevelMap, s: Session, fr: Frame)
    requires ValidConfig(c)
    requires HitsFromList(s.coins, fr.coinHits)
    ensures var t := Step(c, maps, s, fr).session;
            t.level == s.level ==>
              && t.score == s.score + |s.coins - t.coins|
              && |s.coins - t.coins| == |fr.coinHits|
              && (forall later: seq<Coin> :: HitsFromList(t.coins, later) ==>
                    forall x :: x in fr.coinHits ==> x !in later)
  {
    StepScoreAndCoins(c, maps, s, fr);
    RemovedCount(s.coins, fr.coinHits);
  }

  /**
   * The sounds of one frame, in order: one jump sound if the jump fired, one
   * coin sound per coin hit, one game-over sound for a fall and another for
   * a hazard.
   */
  lemma StepSounds(c: Config, maps: int -> LevelMap, s: Session, fr: Frame)
    requires ValidConfig(c)
    ensures Step(c, maps, s, fr).session.sounds ==
            s.sounds
            + (if s.flags.up && !s.flags.down && fr.canJump then [JumpSound] else [])
            + Repeat(CoinSound, |fr.coinHits|)
            + (if Fell(c, s, fr) then [GameOverSound] else [])
            + (if fr.hazardHit then [GameOverSound] else [])
  {
  }

  /**
   * Where the player ends a frame that stays on the same level: a hazard
   * puts it at the start and stops it; a fall alone puts it at the start but
   * keeps its velocity; otherwise it is where physics left it.
   */
  lemma StepRespawn(c: Config, maps: int -> LevelMap, s: Session, fr: Frame)
    requires ValidConfig(c)
    ensures var t := Step(c, maps, s, fr).session;
            var m := Moved(c, s, fr);
            t.level == s.level ==>
              && (fr.hazardHit ==> t.player == m.(changeX := 0.0, changeY := 0.0).At(c.startX, c.startY))
              && (!fr.hazardHit && Fell(c, s, fr) ==> t.player == m.At(c.startX, c.startY))
              && (!fr.hazardHit && !Fell(c, s, fr) ==> t.player == m)
  {
    StepLevel(c, maps, s, fr);
  }

  /**
   * The camera between frames: whole-pixel offsets are kept whole; a fall,
   * a hazard or a level change always publishes a viewport; a published
   * viewport is exactly the screen's size at the new offsets; and a frame
   * that publishes nothing leaves the offsets alone.
   */
  lemma StepCamera(c: Config, maps: int -> LevelMap, s: Session, fr: Frame)
    requires ValidConfig(c)
    requires IsIntegral(s.view.left) && IsIntegral(s.view.bottom)
    ensures var t := Step(c, maps, s, fr);
            && IsIntegral(t.session.view.left) && IsIntegral(t.session.view.bottom)
            && (Fell(c, s, fr) || fr.hazardHit || t.session.level != s.level ==> t.published.Some?)
            && (t.published.None? ==> t.session.view == s.view)
            && (t.published.Some? ==>
                  var r := t.published.value;
                  && r.left as real == t.session.view.left && r.bottom as real == t.session.view.bottom
                  && r.right - r.left == ScreenWidth && r.top - r.bottom == ScreenHeight)
  {
    StepLevel(c, maps, s, fr);
    var (u, dirty) := Outcomes(c, maps, s, fr);
    var sc := Scroll(c.margins, u.view, u.player, dirty);
    if sc.changed {
      TruncOfIntegral(Settle(sc).left);
      TruncOfIntegral(Settle(sc).bottom);
    }
  }

  /**
   * Whatever resets the camera to (0, 0) in a frame, the four rules run
   * afterwards in the same frame, so what is published is the camera
   * scrolled to frame the player at the start, not (0, 0).
   */
  lemma ResetThenScroll(c: Config, maps: int -> LevelMap, s: Session, fr: Frame)
    requires ValidConfig(c)
    requires Fell(c, s, fr) || fr.hazardHit || CheckedX(c, s, fr) >= s.endOfMap
    ensures var t := Step(c, maps, s, fr);
            var start := t.session.player;
            && start.centerX == c.startX && start.centerY == c.startY
            && t.published == Publish(Scroll(c.margins, View(0.0, 0.0), start, true))
  {
    StepLevel(c, maps, s, fr);
  }

  /** Something the window delivers: a key event or a frame. */
  datatype Input = KeyInput(event: KeyEvent) | FrameInput(frame: Frame)

  /** The session after a sequence of inputs, oldest first. */
  function Play(c: Config, maps: int -> LevelMap, downKeys: bool, s: Session, inputs: seq<Input>): Session
    requires ValidConfig(c)
    decreases |inputs|
  {
    if inputs == [] then s
    else
      var before := Play(c, maps, downKeys, s, inputs[..|inputs| - 1]);
      match inputs[|inputs| - 1]
      case KeyInput(Pressed(k)) => before.(flags := Press(before.flags, k, downKeys))
      case KeyInput(Released(k)) => before.(flags := Release(before.flags, k, downKeys))
      case FrameInput(fr) => Step(c, maps, before, fr).session
  }

  /**
   * Over any run of key events and frames: the level number never goes
   * down, whole-pixel camera offsets stay whole, and without a DOWN key
   * branch `down_pressed` is never set.
   */
  lemma {:induction false} PlayInvariants(c: Config, maps: int -> LevelMap, downKeys: bool, s: Session, inputs: seq<Input>)
    requires ValidConfig(c)
    requires IsIntegral(s.view.left) && IsIntegral(s.view.bottom)
    ensures var t := Play(c, maps, downKeys, s, inputs);
            && s.level <= t.level
            && IsIntegral(t.view.left) && IsIntegral(t.view.bottom)
            && (!downKeys && !s.flags.down ==> !t.flags.down)
    decreases |inputs|
  {
    if inputs != [] {
      var before := Play(c, maps, downKeys, s, inputs[..|inputs| - 1]);
      PlayInvariants(c, maps, downKeys, s, inputs[..|inputs| - 1]);
      match inputs[|inputs| - 1]
      case KeyInput(e) =>
      case FrameInput(fr) =>
        StepLevel(c, maps, before, fr);
        StepCamera(c, maps, before, fr);
    }
  }
}
