/**
 * The 03 user-control tutorial step: keys set the player's velocity directly.
 * A press sets one component to +/- PLAYER_MOVEMENT_SPEED, a release sets it
 * back to 0; there are no key flags yet.
 */
module UserControl {
  import opened Keys
  import opened Sprites

  const PlayerMovementSpeed: real := 5.0

  /** `on_key_press`. */
  function KeyDown(p: Sprite, k: Key): (r: Sprite)
    ensures IsUpKey(k) ==> r == p.(changeY := PlayerMovementSpeed)
    ensures IsDownKey(k) ==> r == p.(changeY := -PlayerMovementSpeed)
    ensures IsLeftKey(k) ==> r == p.(changeX := -PlayerMovementSpeed)
    ensures IsRightKey(k) ==> r == p.(changeX := PlayerMovementSpeed)
    ensures k.Other? ==> r == p
  {
    if k == Up || k == W || k == Space then p.(changeY := PlayerMovementSpeed)
    else if k == Down || k == S then p.(changeY := -PlayerMovementSpeed)
    else if k == Left || k == A then p.(changeX := -PlayerMovementSpeed)
    else if k == Right || k == D then p.(changeX := PlayerMovementSpeed)
    else p
  }

  /** `on_key_release`: SPACE is not among the keys it tests. */
  function KeyUp(p: Sprite, k: Key): (r: Sprite)
    ensures (k == Up || k == W || IsDownKey(k)) ==> r == p.(changeY := 0.0)
    ensures (IsLeftKey(k) || IsRightKey(k)) ==> r == p.(changeX := 0.0)
    ensures (k == Space || k.Other?) ==> r == p
  {
    if k == Up || k == W then p.(changeY := 0.0)
    else if k == Down || k == S then p.(changeY := 0.0)
    else if k == Left || k == A then p.(changeX := 0.0)
    else if k == Right || k == D then p.(changeX := 0.0)
    else p
  }

  function Apply(p: Sprite, e: KeyEvent): Sprite
  {
    if e.Pressed? then KeyDown(p, e.key) else KeyUp(p, e.key)
  }

  /** The player after a sequence of key events, oldest first: only the velocity moves. */
  function ReplayKeys(p: Sprite, events: seq<KeyEvent>): (r: Sprite)
    ensures r.centerX == p.centerX && r.centerY == p.centerY
    ensures r.width == p.width && r.height == p.height
    decreases |events|
  {
    if events == [] then p
    else Apply(ReplayKeys(p, events[..|events| - 1]), events[|events| - 1])
  }

  /** An event that sets `change_x`. */
  predicate SetsX(e: KeyEvent)
  {
    IsLeftKey(e.key) || IsRightKey(e.key)
  }

  /** An event that sets `change_y`: a release of SPACE does not. */
  predicate SetsY(e: KeyEvent)
  {
    if e.Pressed? then IsUpKey(e.key) || IsDownKey(e.key)
    else e.key == Up || e.key == W || IsDownKey(e.key)
  }

  /** The value an event gives the velocity component it sets. */
  function Sets(e: KeyEvent): real
  {
    if e.Released? then 0.0
    else if IsUpKey(e.key) || IsRightKey(e.key) then PlayerMovementSpeed
    else -PlayerMovementSpeed
  }

  /**
   * The last event that touches `change_x` decides it, whatever came
   * before; the same for `change_y`.
   */
  lemma {:induction false} LastXEventDecides(p: Sprite, events: seq<KeyEvent>, i: nat)
    requires i < |events| && SetsX(events[i])
    requires forall j :: i < j < |events| ==> !SetsX(events[j])
    ensures ReplayKeys(p, events).changeX == Sets(events[i])
    decreases |events|
  {
    if i < |events| - 1 {
      var prefix := events[..|events| - 1];
      assert forall j :: i < j < |prefix| ==> prefix[j] == events[j];
      LastXEventDecides(p, prefix, i);
    }
  }

  lemma {:induction false} LastYEventDecides(p: Sprite, events: seq<KeyEvent>, i: nat)
    requires i < |events| && SetsY(events[i])
    requires forall j :: i < j < |events| ==> !SetsY(events[j])
    ensures ReplayKeys(p, events).changeY == Sets(events[i])
    decreases |events|
  {
    if i < |events| - 1 {
      var prefix := events[..|events| - 1];
      assert forall j :: i < j < |prefix| ==> prefix[j] == events[j];
      LastYEventDecides(p, prefix, i);
    }
  }

  /** Events that touch neither component leave the velocity as it was. */
  lemma {:induction false} UntouchedVelocity(p: Sprite, events: seq<KeyEvent>)
    ensures (forall j :: 0 <= j < |events| ==> !SetsX(events[j])) ==> ReplayKeys(p, events).changeX == p.changeX
    ensures (forall j :: 0 <= j < |events| ==> !SetsY(events[j])) ==> ReplayKeys(p, events).changeY == p.changeY
    decreases |events|
  {
    if events != [] {
      var prefix := events[..|events| - 1];
      assert forall j :: 0 <= j < |prefix| ==> prefix[j] == events[j];
      UntouchedVelocity(p, prefix);
    }
  }

  /** A velocity component that keys can produce: -5, 0 or 5. */
  predicate OnGrid(v: real)
  {
    v == -PlayerMovementSpeed || v == 0.0 || v == PlayerMovementSpeed
  }

  /** Starting from rest, key events only ever give each component -5, 0 or 5. */
  lemma {:induction false} VelocityOnGrid(p: Sprite, events: seq<KeyEvent>)
    requires OnGrid(p.changeX) && OnGrid(p.changeY)
    ensures OnGrid(ReplayKeys(p, events).changeX) && OnGrid(ReplayKeys(p, events).changeY)
    decreases |events|
  {
    if events != [] {
      VelocityOnGrid(p, events[..|events| - 1]);
    }
  }

  /**
   * Holding RIGHT and then pressing LEFT moves left; letting go of RIGHT
   * afterwards stops the player although LEFT is still held.
   */
  lemma LastKeyWins(p: Sprite)
    ensures ReplayKeys(p, [Pressed(Right), Pressed(Left)]).changeX == -PlayerMovementSpeed
    ensures ReplayKeys(p, [Pressed(Right), Pressed(Left), Released(Right)]).changeX == 0.0
  {
    assert [Pressed(Right), Pressed(Left), Released(Right)][..2] == [Pressed(Right), Pressed(Left)];
    assert [Pressed(Right), Pressed(Left)][..1] == [Pressed(Right)];
  }

  class Game {
    /** Size of the player image at CHARACTER_SCALING. */
    const playerWidth: real
    const playerHeight: real

    var player: Sprite

    /** `__init__`, then the `setup()` call that `main()` makes. */
    constructor (playerWidth: real, playerHeight: real)
      ensures this.playerWidth == playerWidth && this.playerHeight == playerHeight
      ensures player == NewSprite(64.0, 128.0, playerWidth, playerHeight)
    {
      this.playerWidth := playerWidth;
      this.playerHeight := playerHeight;
      player := NewSprite(0.0, 0.0, playerWidth, playerHeight);
      new;
      Setup();
    }

    /** `setup()`: the player at (64, 128), standing still. */
    method Setup()
      modifies this`player
      ensures player == NewSprite(64.0, 128.0, playerWidth, playerHeight)
    {
      player := NewSprite(64.0, 128.0, playerWidth, playerHeight);
    }

    method OnKeyPress(key: Key)
      modifies this`player
      ensures player == KeyDown(old(player), key)
    {
      if key == Up || key == W || key == Space {
        player := player.(changeY := PlayerMovementSpeed);
      } else if key == Down || key == S {
        player := player.(changeY := -PlayerMovementSpeed);
      } else if key == Left || key == A {
        player := player.(changeX := -PlayerMovementSpeed);
      } else if key == Right || key == D {
        player := player.(changeX := PlayerMovementSpeed);
      }
    }

    method OnKeyRelease(key: Key)
      modifies this`player
      ensures player == KeyUp(old(player), key)
    {
      if key == Up || key == W {
        player := player.(changeY := 0.0);
      } else if key == Down || key == S {
        player := player.(changeY := 0.0);
      } else if key == Left || key == A {
        player := player.(changeX := 0.0);
      } else if key == Right || key == D {
        player := player.(changeX := 0.0);
      }
    }

    /**
     * `on_update(delta_time)`: the simple physics engine's step, a parameter
     * standing for the library.
     */
    method OnUpdate(physics: Sprite -> Sprite)
      modifies this`player
      ensures player == physics(old(player))
    {
      player := physics(player);
    }
  }
}
