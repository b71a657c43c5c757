/**
 * Keyboard input.  Every variant from 04 on keeps four flags that the key
 * handlers set and clear and the per-frame update reads.  The handlers are
 * `if`/`elif` chains over arcade key codes; since the key groups are
 * disjoint, each chain touches at most one flag.
 */
module Keys {

  /** The arcade key codes the scripts test for; `Other` is any other key. */
  datatype Key = Up | Down | Left | Right | W | A | S | D | Space | Other(code: int)

  predicate IsUpKey(k: Key) { k == Up || k == W || k == Space }
  predicate IsDownKey(k: Key) { k == Down || k == S }
  predicate IsLeftKey(k: Key) { k == Left || k == A }
  predicate IsRightKey(k: Key) { k == Right || k == D }

  /** One keyboard event, as the window delivers it. */
  datatype KeyEvent = Pressed(key: Key) | Released(key: Key)

  /** `up_pressed`, `down_pressed`, `left_pressed`, `right_pressed`. */
  datatype Flags = Flags(up: bool, down: bool, left: bool, right: bool)

  /** The flags as `__init__` leaves them. */
  const NoKeys := Flags(false, false, false, false)

  /**
   * `on_key_press`.  `downKeys` says whether the variant has the DOWN/S
   * branch (04, 05, 06 and 09 do; the final game does not).
   */
  function Press(f: Flags, k: Key, downKeys: bool): (g: Flags)
    ensures g.up == (f.up || IsUpKey(k))
    ensures g.down == (f.down || (downKeys && IsDownKey(k)))
    ensures g.left == (f.left || IsLeftKey(k))
    ensures g.right == (f.right || IsRightKey(k))
  {
    if k == Up || k == W || k == Space then f.(up := true)
    else if downKeys && (k == Down || k == S) then f.(down := true)
    else if k == Left || k == A then f.(left := true)
    else if k == Right || k == D then f.(right := true)
    else f
  }

  /**
   * `on_key_release`.  The UP branch tests UP and W only, so releasing SPACE
   * leaves `up_pressed` as it was.
   */
  function Release(f: Flags, k: Key, downKeys: bool): (g: Flags)
    ensures g.up == (f.up && !(k == Up || k == W))
    ensures g.down == (f.down && !(downKeys && IsDownKey(k)))
    ensures g.left == (f.left && !IsLeftKey(k))
    ensures g.right == (f.right && !IsRightKey(k))
  {
    if k == Up || k == W then f.(up := false)
    else if downKeys && (k == Down || k == S) then f.(down := false)
    else if k == Left || k == A then f.(left := false)
    else if k == Right || k == D then f.(right := false)
    else f
  }

  /** The flags after a sequence of key events, oldest first. */
  function Replay(f: Flags, events: seq<KeyEvent>, downKeys: bool): Flags
    decreases |events|
  {
    if events == [] then f
    else
      var e := events[|events| - 1];
      var g := Replay(f, events[..|events| - 1], downKeys);
      if e.Pressed? then Press(g, e.key, downKeys) else Release(g, e.key, downKeys)
  }

  /** Pressing and then releasing a key restores its flag, except for SPACE, which stays stuck. */
  lemma PressThenRelease(f: Flags, k: Key, downKeys: bool)
    ensures k != Space ==> Release(Press(f, k, downKeys), k, downKeys) == Release(f, k, downKeys)
    ensures k == Space ==> Release(Press(f, k, downKeys), k, downKeys) == f.(up := true)
  {
  }

  /**
   * Without a DOWN branch no sequence of events can set `down_pressed`:
   * it stays as `__init__` left it.
   */
  lemma {:induction false} DownNeverPressed(f: Flags, events: seq<KeyEvent>)
    requires !f.down
    ensures !Replay(f, events, false).down
    decreases |events|
  {
    if events != [] {
      DownNeverPressed(f, events[..|events| - 1]);
    }
  }
}
