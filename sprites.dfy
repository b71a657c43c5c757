/**
 * The part of an arcade sprite that the scripts read and write: its centre,
 * its velocity (`change_x`, `change_y`) and its size.  The edges `left`,
 * `right`, `bottom` and `top` are derived from the centre and the size.
 */
module Sprites {

  datatype Sprite = Sprite(centerX: real, centerY: real, changeX: real, changeY: real, width: real, height: real)
  {
    function Left(): real { centerX - width / 2.0 }
    function Right(): real { centerX + width / 2.0 }
    function Bottom(): real { centerY - height / 2.0 }
    function Top(): real { centerY + height / 2.0 }

    /** The same sprite moved so that its centre is at (x, y). */
    function At(x: real, y: real): Sprite {
      this.(centerX := x, centerY := y)
    }
  }

  /** A freshly created sprite: placed at (x, y), standing still. */
  function NewSprite(x: real, y: real, width: real, height: real): Sprite
  {
    Sprite(x, y, 0.0, 0.0, width, height)
  }

  /** A coin is identified by where it stands. */
  datatype Coin = Coin(centerX: real, centerY: real)
}
