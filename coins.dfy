/**
 * The coin layer and the list of coins the player touches in a frame.
 * `check_for_collision_with_list` returns coins of the list it is given,
 * each once; the loop over that list removes each coin from the layer.
 */
module Coins {
  import opened Sprites

  /** The coins left in the layer once every coin of `hits` is removed from it. */
  function Remaining(coins: set<Coin>, hits: seq<Coin>): (r: set<Coin>)
    ensures r <= coins
    ensures forall c :: c in hits ==> c !in r
    ensures forall c :: c in coins && c !in hits ==> c in r
  {
    coins - (set c | c in hits)
  }

  /** A hit list as the collision test returns it: distinct coins, all still in the layer. */
  predicate HitsFromList(coins: set<Coin>, hits: seq<Coin>)
  {
    && (forall i, j :: 0 <= i < j < |hits| ==> hits[i] != hits[j])
    && (forall i :: 0 <= i < |hits| ==> hits[i] in coins)
  }

  /** A list of distinct coins names as many coins as it is long. */
  lemma {:induction false} DistinctCount(hits: seq<Coin>)
    requires forall i, j :: 0 <= i < j < |hits| ==> hits[i] != hits[j]
    ensures |(set c | c in hits)| == |hits|
    decreases |hits|
  {
    if hits != [] {
      var prefix := hits[..|hits| - 1];
      var last := hits[|hits| - 1];
      DistinctCount(prefix);
      assert (set c | c in hits) == (set c | c in prefix) + {last};
      assert last !in (set c | c in prefix);
    }
  }

  /**
   * Removing a genuine hit list takes exactly one coin out of the layer per
   * entry, so one point or one sound per entry is one per coin removed.
   */
  lemma RemovedCount(coins: set<Coin>, hits: seq<Coin>)
    requires HitsFromList(coins, hits)
    ensures |coins - Remaining(coins, hits)| == |hits|
  {
    assert coins - Remaining(coins, hits) == (set c | c in hits);
    DistinctCount(hits);
  }

  /** `RemovedCount` for callers whose hit list may not be genuine. */
  lemma RemovedCountIf(coins: set<Coin>, hits: seq<Coin>)
    ensures HitsFromList(coins, hits) ==> |coins - Remaining(coins, hits)| == |hits|
  {
    if HitsFromList(coins, hits) {
      RemovedCount(coins, hits);
    }
  }

  /**
   * Once removed, a coin cannot be in any later genuine hit list: a coin
   * scores and sounds once.
   */
  lemma CollectedOnce(coins: set<Coin>, hits: seq<Coin>, later: seq<Coin>, c: Coin)
    requires c in hits && c in later
    ensures !HitsFromList(Remaining(coins, hits), later)
  {
    var i :| 0 <= i < |later| && later[i] == c;
  }
}
