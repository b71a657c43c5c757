# Priya's 2D Funhouse: the per-frame controller logic

The repository is a series of tutorial steps for one `arcade` platformer
window class, `MyGame`, ending in the final game "Priya's 2D Funhouse".
Most of each script is library wiring. The logic the scripts compute
themselves is modelled here:

- **key flags**: `on_key_press` and `on_key_release` set and clear
  `up_pressed`, `down_pressed`, `left_pressed` and `right_pressed`. SPACE
  sets `up_pressed` on press, but its release clears nothing. The final game
  has no DOWN branch at all.
- **velocity resolution** at the top of the per-frame update. `change_x` is
  reset and set from the left/right flags. `change_y` is set by a jump when
  the physics engine allows one, and by DOWN in the variants that have it.
- **outcomes of one frame** in the final game and the 09 step:
  - coins collected raise the score;
  - a fall below y = -100 respawns the player at the start;
  - touching the "Don't Touch" layer respawns the player and stops it;
  - reaching `end_of_map` goes to the next level through `setup(level)`.
- **the margin-following camera**: four ordered rules move `view_left` and
  `view_bottom`, each reading the value the rule before it wrote. On a dirty
  frame both offsets are truncated toward zero with Python's `int()` and a
  1000 x 650 viewport is published.
- **the screen-edge clamp** of `Player.update` in the 04 gravity step.
- **direct key-to-velocity handlers** of the 03 user-control step.

Shared specification modules:

- `Keys`: key codes, the four flags, press and release.
- `Velocity`: velocity resolution.
- `Camera`: the scroll rules, truncation and the published rectangle.
- `Platformer`: one whole frame of the two complete games, as a function
  `Step` of the state before it and of what the library reports.
- `Coins`: removing a frame's hit list from the coin layer.
- `Numbers`: `Trunc`, Python's `int()` on a real.
- `Sprites`, `Audio` and `Options`: values these are built on.

Each script's `MyGame` is a Dafny `class` with the script's fields:

| module | script |
|---|---|
| `Funhouse` | `priyas_2d_funhouse_annotated.py` |
| `Endgame` | `learning_code_work_with_annotations/09_endgame_better_control_annotations.py` |
| `Scrolling` | `05_scrolling_better_control_annotations.py` |
| `CoinsAndSound` | `learning_code_work_with_annotations/06_coins_and_sound_better_control_annotations.py` |
| `Gravity` | `learning_code_work_with_annotations/04_add_gravity_better_control_annotations.py` |
| `UserControl` | `03_user_control_annotations.py` |

Each class's methods are proved to compute what the specification functions
say. The properties are proved as lemmas about those functions.

What the library computes becomes a parameter:

- `can_jump()` is a `bool`;
- `player_list.update()` plus the physics engine's `update()` is a function
  from the player sprite to the player sprite (in 04, `player_list.update()`
  is the modelled `Player.Update`, which replaces the sprite's own movement,
  so there the parameter is the engine's step alone);
- `check_for_collision_with_list` on the coin layer is the sequence of coins
  hit. Any sequence is accepted. The counting properties (one point and one
  sound per coin removed, no coin collected twice) are stated for a hit list
  of distinct coins still in the layer, which is what the collision test
  returns (`Coins.HitsFromList`);
- a hit on the "Don't Touch" layer is a `bool`;
- the level's tile map is a value giving its width in tiles and its coin
  layer.

Sounds played are appended to a log. The rectangle passed to
`arcade.set_viewport` is returned, or `None` when it is not called.
Coordinates are exact reals.

## Model

| member | source | states |
|---|---|---|
| Coins.Remaining | priyas_2d_funhouse_annotated.py:391-393 | removing the hit list leaves a subset of the layer holding no hit coin and every coin not hit |
| Coins.RemovedCount | priyas_2d_funhouse_annotated.py:387-397 | a hit list of distinct coins all in the layer removes exactly as many coins as it has entries |
| Coins.CollectedOnce | priyas_2d_funhouse_annotated.py:387-393 | a coin removed in one frame is not in any genuine hit list of a later frame, so it cannot score or sound again |
| Numbers.Trunc | priyas_2d_funhouse_annotated.py:489-490 | Python `int()` on a real truncates toward zero: the result is the greatest integer at or below a non-negative value and the least integer at or above a negative one |
| Numbers.TruncOfIntegral | priyas_2d_funhouse_annotated.py:489-490 | truncating an offset that is already a whole number leaves it unchanged |
| Keys.Press | learning_code_work_with_annotations/09_endgame_better_control_annotations.py:178-189 | each flag after a press is its old value or'ed with "this key is one of its keys": UP/W/SPACE set only `up`, DOWN/S only `down` (when the script has that branch), LEFT/A only `left`, RIGHT/D only `right`, others nothing |
| Keys.Release | learning_code_work_with_annotations/09_endgame_better_control_annotations.py:191-202 | each flag after a release is its old value unless the key is one of its keys; for `up` those keys are UP and W only, so a SPACE release clears nothing |
| Keys.PressThenRelease | priyas_2d_funhouse_annotated.py:330-335 | pressing then releasing any key but SPACE leaves the flags as a release alone would; pressing then releasing SPACE leaves `up_pressed` set |
| Keys.DownNeverPressed | priyas_2d_funhouse_annotated.py:94-97 | in the final game, whose handlers have no DOWN branch (330-335, 353-358), no sequence of key events sets `down_pressed` |
| Velocity.ChangeX | priyas_2d_funhouse_annotated.py:366-378 | `change_x` is -speed iff left and not right, +speed iff right and not left, and 0 iff both flags are equal |
| Velocity.Resolve | learning_code_work_with_annotations/09_endgame_better_control_annotations.py:208-219 | only the velocity changes; a jump (and its sound) happens iff up, not down and `can_jump`, and sets the jump speed; down and not up sets -speed in variants with that branch; every other combination leaves `change_y` as it was |
| Velocity.NoJumpWithoutGround | priyas_2d_funhouse_annotated.py:370-373 | when `can_jump()` is false no jump happens, and `change_y` keeps its value unless the DOWN branch fires |
| Camera.ScrollLeft | priyas_2d_funhouse_annotated.py:460-465 | the left rule fires iff the player's left edge is left of `view_left` + margin; it then only decreases `view_left` and lands the player's left edge on the new boundary; otherwise `view_left` is unchanged |
| Camera.ScrollRight | priyas_2d_funhouse_annotated.py:467-471 | the right rule only increases `view_left` and lands the player's right edge on `view_left` + 1000 - margin; otherwise `view_left` is unchanged |
| Camera.ScrollUp | priyas_2d_funhouse_annotated.py:473-477 | the up rule only increases `view_bottom` and lands the player's top on `view_bottom` + 650 - margin; otherwise `view_bottom` is unchanged |
| Camera.ScrollDown | priyas_2d_funhouse_annotated.py:479-483 | the down rule only decreases `view_bottom` and lands the player's bottom on `view_bottom` + margin; otherwise `view_bottom` is unchanged |
| Camera.Scroll | priyas_2d_funhouse_annotated.py:458-483 | the four rules in order: the frame is dirty afterwards iff it was dirty before or some rule fired, and when no rule fires the camera is unchanged |
| Camera.Settle | priyas_2d_funhouse_annotated.py:486-490 | on a dirty frame both offsets become whole numbers, each moving by less than one pixel; on a clean frame they are unchanged |
| Camera.Publish | priyas_2d_funhouse_annotated.py:486-496 | a viewport is published iff the frame is dirty; it is exactly 1000 x 650 and its left and bottom are the settled offsets |
| Camera.MarginsHold | learning_code_work_with_annotations/09_endgame_better_control_annotations.py:279-297 | a player box no larger than the space between the margins lies between the margins after the four rules |
| Camera.StillCamera | 05_scrolling_better_control_annotations.py:153-197 | a camera that already frames the player within the margins does not move, and a clean frame publishes nothing |
| Platformer.Setup | priyas_2d_funhouse_annotated.py:127-197 | `setup(level)` puts the camera at (0, 0), the score at 0, a new still player at the start, and loads the map's coins and `end_of_map` = width in tiles x 64; flags, level and sounds are kept |
| Platformer.Collect | priyas_2d_funhouse_annotated.py:387-397 | every hit coin is gone afterwards, every coin not hit is still there, no coin is added; the score rises by the list's length with one coin sound per entry; for a genuine hit list the points gained equal the coins removed; player, camera, level and flags are untouched |
| Platformer.Fall | priyas_2d_funhouse_annotated.py:403-415 | below y = -100 the player is moved to the start with its velocity kept, the camera goes to (0, 0) and one game-over sound plays; otherwise nothing changes; score, coins, level and `end_of_map` are never touched |
| Platformer.Hazard | priyas_2d_funhouse_annotated.py:418-436 | on a hit the velocity is zeroed, the player is at the start, the camera at (0, 0) and one game-over sound plays; without a hit nothing changes; size, score, coins, level and `end_of_map` are never touched |
| Platformer.Advance | priyas_2d_funhouse_annotated.py:441-454 | at or beyond `end_of_map` the level goes up by one and the session is `setup` of the new level; otherwise nothing changes; sounds and flags are kept |
| Platformer.Outcomes | priyas_2d_funhouse_annotated.py:366-454 | up to the camera rules, the level stays or goes up by one, the viewport is dirty iff the player fell, hit a hazard or changed level, and the flags are kept |
| Platformer.Step | priyas_2d_funhouse_annotated.py:361-496 | a whole frame keeps the flags; when nothing is published the camera offsets are unchanged; a published viewport is exactly 1000 x 650 |
| Platformer.StepLevel | priyas_2d_funhouse_annotated.py:441-444 | the level goes up by exactly one iff the x-coordinate the test sees (the start after a fall or a hazard) is at or beyond `end_of_map`, and stays otherwise |
| Platformer.StepScoreAndCoins | priyas_2d_funhouse_annotated.py:387-397 | within a level, the score rises by the number of coins hit and exactly those coins leave the coin list; on a level change, `setup` has reset the score to 0, loaded the next map's coins and `end_of_map` = width x 64, and put a new, still player at the start |
| Platformer.StepCountsCoins | priyas_2d_funhouse_annotated.py:387-397 | with a genuine hit list, a frame on the same level scores exactly one point per coin it removes, removes as many coins as were hit, and no removed coin can be in any later genuine hit list |
| Platformer.StepSounds | priyas_2d_funhouse_annotated.py:370-436 | the sounds of a frame, in order: one jump sound if the jump fired, one coin sound per coin hit, one game-over sound for a fall and one for a hazard |
| Platformer.StepRespawn | priyas_2d_funhouse_annotated.py:403-436 | on the same level, a hazard puts the player at (64, 225) and zeroes its velocity; a fall alone puts it there and keeps the velocity; otherwise it is where physics left it |
| Platformer.StepCamera | priyas_2d_funhouse_annotated.py:400-496 | whole offsets stay whole; a fall, a hazard or a level change always publishes a viewport; a published viewport is 1000 x 650 at the new offsets; a frame that publishes nothing leaves the offsets alone |
| Platformer.ResetThenScroll | priyas_2d_funhouse_annotated.py:409-483 | after a reset to (0, 0) the four rules still run in the same frame, so the published viewport is the one that frames the player at the start, not (0, 0) |
| Platformer.PlayInvariants | priyas_2d_funhouse_annotated.py:441-496 | over any run of key events and frames the level number never goes down, whole offsets stay whole, and without a DOWN branch `down_pressed` stays false |
| Funhouse.Game.constructor | priyas_2d_funhouse_annotated.py:94-110 | `__init__` followed by `setup(1)` from `main()` (500-503): no keys held, level 1, and the state `setup` gives |
| Funhouse.Game.Setup | priyas_2d_funhouse_annotated.py:127-197 | `setup(level)`: camera to (0, 0), score 0, a new player at (64, 225), that level's coins and `end_of_map` |
| Funhouse.Game.OnKeyPress | priyas_2d_funhouse_annotated.py:330-335 | the flags become `Press` of the old flags with no DOWN branch |
| Funhouse.Game.OnKeyRelease | priyas_2d_funhouse_annotated.py:353-358 | the flags become `Release` of the old flags with no DOWN branch |
| Funhouse.Game.Update | priyas_2d_funhouse_annotated.py:361-496 | the new state and the published viewport are exactly `Step` of the old state, and the class invariant (no DOWN flag, whole offsets, level at least 1) is kept |
| Funhouse.Game.ResolveInput | priyas_2d_funhouse_annotated.py:366-378 | the player becomes `Resolve` of the old player and flags, with one jump sound iff the jump fired |
| Funhouse.Game.CollectCoins | priyas_2d_funhouse_annotated.py:387-397 | the loop removes every hit coin, adds one point and plays one coin sound per coin |
| Funhouse.Game.CheckOutcomes | priyas_2d_funhouse_annotated.py:400-454 | the fall, hazard and level-end checks in order, with the dirty flag set iff one of them fired |
| Funhouse.Game.ScrollViewport | priyas_2d_funhouse_annotated.py:458-496 | the offsets and the published viewport are `Settle` and `Publish` of `Scroll` on the current player |
| Funhouse.RespawnCameraLeftOfOrigin | priyas_2d_funhouse_annotated.py:52-54 | with this script's start and margins (lines 41-47), the viewport published after any fall, hazard or level change has its left edge at `int(-136 - w/2)`, at or left of -136, for players up to 600 wide |
| Endgame.Game.constructor | learning_code_work_with_annotations/09_endgame_better_control_annotations.py:54-69 | `__init__` followed by `setup(1)`: no keys held, level 1, and the state `setup` gives |
| Endgame.Game.Setup | learning_code_work_with_annotations/09_endgame_better_control_annotations.py:78-117 | `setup(level)`: camera to (0, 0), score 0, a new player at (64, 225), that level's coins and `end_of_map` |
| Endgame.Game.OnKeyPress | learning_code_work_with_annotations/09_endgame_better_control_annotations.py:182-189 | the flags become `Press` of the old flags, DOWN/S included |
| Endgame.Game.OnKeyRelease | learning_code_work_with_annotations/09_endgame_better_control_annotations.py:195-202 | the flags become `Release` of the old flags, DOWN/S included |
| Endgame.Game.Update | learning_code_work_with_annotations/09_endgame_better_control_annotations.py:204-306 | the new state and the published viewport are exactly `Step` of the old state with the DOWN branch, and the class invariant (whole offsets, level at least 1) is kept |
| Endgame.Game.ResolveInput | learning_code_work_with_annotations/09_endgame_better_control_annotations.py:208-219 | the player becomes `Resolve` of the old player and flags with the DOWN branch, with one jump sound iff the jump fired |
| Endgame.Game.CollectCoins | learning_code_work_with_annotations/09_endgame_better_control_annotations.py:225-231 | the loop removes every hit coin, adds one point and plays one coin sound per coin |
| Endgame.Game.CheckOutcomes | learning_code_work_with_annotations/09_endgame_better_control_annotations.py:235-276 | the fall, hazard and level-end checks in order, with the dirty flag set iff one of them fired |
| Endgame.Game.ScrollViewport | learning_code_work_with_annotations/09_endgame_better_control_annotations.py:279-306 | the offsets and the published viewport are `Settle` and `Publish` of `Scroll` on the current player |
| Endgame.FramedBeforeTruncation | learning_code_work_with_annotations/09_endgame_better_control_annotations.py:279-297 | with margins 200/200/150/100, a player at most 600 wide and 400 tall lies within [view_left + 200, view_left + 800] x [view_bottom + 150, view_bottom + 550] after the four rules |
| Scrolling.Game.constructor | 05_scrolling_better_control_annotations.py:45-53 | `__init__` followed by `setup()`: no keys held, camera at (0, 0), player at (64, 96) |
| Scrolling.Game.Setup | 05_scrolling_better_control_annotations.py:57-74 | camera to (0, 0) and a new, still player at (64, 96) |
| Scrolling.Game.OnKeyPress | 05_scrolling_better_control_annotations.py:106-116 | the flags become `Press` of the old flags, DOWN/S included |
| Scrolling.Game.OnKeyRelease | 05_scrolling_better_control_annotations.py:118-128 | the flags become `Release` of the old flags; SPACE clears nothing |
| Scrolling.Game.OnUpdate | 05_scrolling_better_control_annotations.py:130-209 | the player is the physics step applied to `Resolve` of the old player (speed 3, jump 15, DOWN branch); the camera and the published viewport follow `Scroll` with margins 250/250/50/100 on a frame that starts clean; offsets stay whole |
| Scrolling.Game.ScrollViewport | 05_scrolling_better_control_annotations.py:150-209 | the offsets and the published viewport are `Settle` and `Publish` of `Scroll` with this script's margins |
| Scrolling.RulesLandOnBoundaries | 05_scrolling_better_control_annotations.py:157-193 | with margins 250/250/50/100, each rule that fires moves only in its own direction and puts the crossed edge 250, 750, 550 or 50 pixels from the offset |
| CoinsAndSound.Game.constructor | learning_code_work_with_annotations/06_coins_and_sound_better_control_annotations.py:43-49 | `__init__` followed by `setup()`: no keys held, camera at (0, 0), player at (64, 128), the five coins, no sounds |
| CoinsAndSound.Game.Setup | learning_code_work_with_annotations/06_coins_and_sound_better_control_annotations.py:60-103 | camera to (0, 0), a new, still player at (64, 128), and exactly the five coins |
| CoinsAndSound.Game.OnKeyPress | learning_code_work_with_annotations/06_coins_and_sound_better_control_annotations.py:117-127 | the flags become `Press` of the old flags, DOWN/S included |
| CoinsAndSound.Game.OnKeyRelease | learning_code_work_with_annotations/06_coins_and_sound_better_control_annotations.py:129-139 | the flags become `Release` of the old flags; SPACE clears nothing |
| CoinsAndSound.Game.Update | learning_code_work_with_annotations/06_coins_and_sound_better_control_annotations.py:141-207 | the player is the physics step applied to `Resolve` of the old player (speed 3, jump 15); the log gains one jump sound iff the jump fired, then one coin sound per coin hit; exactly the hit coins disappear; the camera follows `Scroll` with margins 250/250/50/100 |
| CoinsAndSound.Game.ResolveInput | learning_code_work_with_annotations/06_coins_and_sound_better_control_annotations.py:144-157 | the player becomes `Resolve` of the old player and flags (speed 3, jump 15, DOWN branch), with one jump sound iff the jump fired |
| CoinsAndSound.Game.CollectCoins | learning_code_work_with_annotations/06_coins_and_sound_better_control_annotations.py:167-175 | the loop removes every hit coin and plays one coin sound per entry, and for a genuine hit list as many coins leave the layer as sounds play; no score is kept |
| CoinsAndSound.Game.ScrollViewport | learning_code_work_with_annotations/06_coins_and_sound_better_control_annotations.py:178-207 | the offsets and the published viewport are `Settle` and `Publish` of `Scroll` with this script's margins |
| CoinsAndSound.PlaceCoins | learning_code_work_with_annotations/06_coins_and_sound_better_control_annotations.py:96-103 | the coin loop of `setup` places exactly the coins at x = 128, 384, 640, 896, 1152 and y = 96 |
| CoinsAndSound.CoinRowIsFiveCoins | learning_code_work_with_annotations/06_coins_and_sound_better_control_annotations.py:96 | `range(128, 1250, 256)` yields those five positions, so five distinct coins are placed |
| CoinsAndSound.OneSoundPerCoin | learning_code_work_with_annotations/06_coins_and_sound_better_control_annotations.py:167-175 | with a genuine hit list, the coin sounds of a frame are as many as the coins that leave the layer, and those coins cannot be in a later genuine hit list |
| Gravity.Clamped | learning_code_work_with_annotations/04_add_gravity_better_control_annotations.py:22-32 | a left edge below 0 is set to 0; otherwise a right edge beyond 999 is set to 999; the same vertically with 649; a sprite no wider (taller) than the screen ends with left (bottom) at or above 0; size and velocity are untouched |
| Gravity.OnScreenUnchanged | learning_code_work_with_annotations/04_add_gravity_better_control_annotations.py:22-32 | a sprite already inside [0, 999] x [0, 649] is left unchanged |
| Gravity.ClampIdempotent | learning_code_work_with_annotations/04_add_gravity_better_control_annotations.py:22-32 | for a sprite that fits on the screen, clamping twice equals clamping once |
| Gravity.WideSpriteStaysOutOnTheRight | learning_code_work_with_annotations/04_add_gravity_better_control_annotations.py:24-27 | because of the `elif`, a sprite 1200 wide that sticks out on both sides gets its left edge pulled to 0 while its right edge stays beyond 999 |
| Gravity.Player.Update | learning_code_work_with_annotations/04_add_gravity_better_control_annotations.py:22-32 | the sprite's fields become `Clamped` of their old values |
| Gravity.Game.constructor | learning_code_work_with_annotations/04_add_gravity_better_control_annotations.py:48-51 | `__init__` followed by `setup()`: no keys held and a new `Player` at (64, 128) |
| Gravity.Game.Setup | learning_code_work_with_annotations/04_add_gravity_better_control_annotations.py:55-66 | a new, still `Player` at (64, 128) |
| Gravity.Game.OnKeyPress | learning_code_work_with_annotations/04_add_gravity_better_control_annotations.py:111-118 | the flags become `Press` of the old flags, DOWN/S included |
| Gravity.Game.OnKeyRelease | learning_code_work_with_annotations/04_add_gravity_better_control_annotations.py:124-131 | the flags become `Release` of the old flags; SPACE clears nothing |
| Gravity.Game.OnUpdate | learning_code_work_with_annotations/04_add_gravity_better_control_annotations.py:133-159 | the player is the physics step applied to the clamp of `Resolve` of the old player (speed 5, jump 20, DOWN branch) |
| UserControl.KeyDown | 03_user_control_annotations.py:93-109 | UP/W/SPACE set `change_y` to 5, DOWN/S to -5, LEFT/A set `change_x` to -5, RIGHT/D to 5, each leaving everything else alone; other keys change nothing |
| UserControl.KeyUp | 03_user_control_annotations.py:115-122 | releasing UP/W or DOWN/S zeroes `change_y`, LEFT/A or RIGHT/D zeroes `change_x`; SPACE and other keys change nothing |
| UserControl.ReplayKeys | 03_user_control_annotations.py:93-122 | key events never move or resize the player |
| UserControl.LastXEventDecides | 03_user_control_annotations.py:102-122 | after any sequence of events, `change_x` is what the last LEFT/A/RIGHT/D event set: -5, 5 or 0 for a release |
| UserControl.LastYEventDecides | 03_user_control_annotations.py:93-118 | after any sequence of events, `change_y` is what the last press of UP/W/SPACE/DOWN/S or release of UP/W/DOWN/S set |
| UserControl.UntouchedVelocity | 03_user_control_annotations.py:93-122 | events that touch neither component (SPACE releases, other keys) leave the velocity as it was |
| UserControl.VelocityOnGrid | 03_user_control_annotations.py:15 | starting from components in {-5, 0, 5}, both components stay in {-5, 0, 5} over any sequence of events |
| UserControl.LastKeyWins | 03_user_control_annotations.py:102-122 | RIGHT then LEFT gives `change_x` = -5; a later release of RIGHT gives 0 although LEFT is still held |
| UserControl.Game.constructor | 03_user_control_annotations.py:22-46 | `__init__` followed by `setup()`: a still player at (64, 128) |
| UserControl.Game.Setup | 03_user_control_annotations.py:36-46 | a new, still player at (64, 128) |
| UserControl.Game.OnKeyPress | 03_user_control_annotations.py:90-109 | the player becomes `KeyDown` of the old player |
| UserControl.Game.OnKeyRelease | 03_user_control_annotations.py:112-122 | the player becomes `KeyUp` of the old player |
| UserControl.Game.OnUpdate | 03_user_control_annotations.py:125-128 | the player is the physics step applied to the old player |

## Left out

- Rendering: `on_draw`, `start_render`, `draw_text` and `set_background_color` draw and return nothing. The `set_viewport` call itself is left out; the rectangle it would receive is returned instead.
- Audio: `load_sound` and `play_sound` are foreign I/O. Each sound played is appended to a log.
- Tile maps: `read_tmx` and `process_layer` parse external `.tmx` files. Each level's map is a parameter giving its width in tiles and its coin layer. The platform, background, foreground and "Don't Touch" sprite lists are not kept as state.
- Platformer.Advance: reaching the end of the last level runs `setup` for a level whose `.tmx` file does not exist, and `read_tmx` raises there, ending the game. The map parameter is total, so the model goes on with whatever map it gives for that level.
- Physics: `PhysicsEnginePlatformer`, `PhysicsEngineSimple`, `can_jump` and the sprite lists' `update` are library code, including gravity. They are parameters: `can_jump` is a `bool` and the physics step is a function on the player sprite.
- Collision detection: `check_for_collision_with_list` is library code. The coins hit are given as a sequence and a hazard hit as a `bool`. `remove_from_sprite_lists` is set difference on the coin set.
- Platformer.Collect and CoinsAndSound.Game.CollectCoins: they accept any hit list, including one with repeated coins or coins no longer in the layer, which the collision test never returns. For such a list the score and the sounds count entries, not coins removed. The per-coin properties are stated only for genuine hit lists.
- The walls and crates that `setup` places in 03, 04 and 05 matter only to the physics engine, which is a parameter.
- `main()`, `arcade.run`, window construction and the label-drawing scripts (01 and 02) are window plumbing with no logic of their own.
- Floating point: coordinates are exact reals, so rounding in the float sums of the scroll rules is not captured. `int()` is the explicit truncation `Trunc`.
- Sprite edges are taken as centre +/- size/2. The hit-box geometry arcade uses for `left`, `right`, `bottom` and `top` is not captured.
- Aliasing: the player sprite is a value field in every class but 04's `Player`. So the sharing of one sprite object between `player_sprite`, `player_list` and the physics engine is not modelled; the physics step receives and returns the sprite explicitly.
- Funhouse.Game.Setup and Endgame.Game.Setup: the player image's size is a constructor parameter, since it comes from an image file that is loaded again on every `setup`.
