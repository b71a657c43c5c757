/**
 * Sounds.  `arcade.play_sound` is fire-and-forget; the model keeps the log of
 * the sounds started, oldest first.
 */
module Audio {

  datatype Sound = JumpSound | CoinSound | GameOverSound

  /** `n` copies of one sound. */
  function Repeat(x: Sound, n: nat): (r: seq<Sound>)
    ensures |r| == n && forall i :: 0 <= i < n ==> r[i] == x
  {
    seq(n, _ => x)
  }
}
