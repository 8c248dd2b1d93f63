/**
 * The AI players' target choice: the nearest uncollected coin, if it is
 * within the detection radius.
 */
module GameAI {
  import opened Wrappers
  import opened GameTypes

  /** How far away an AI player notices a coin. */
  const CoinDetectionRadius: real := 15.0

  /** `coins.filter((coin) => !coin.collected)`: the uncollected coins, in list order. */
  function Uncollected(coins: seq<Coin>): (available: seq<Coin>)
    ensures |available| <= |coins|
  {
    if coins == [] then []
    else (if coins[0].collected then [] else [coins[0]]) + Uncollected(coins[1..])
  }

  /** The filter keeps exactly the uncollected coins. */
  lemma {:induction false} UncollectedMembers(coins: seq<Coin>)
    ensures forall c :: c in Uncollected(coins) <==> c in coins && !c.collected
  {
    if coins != [] {
      UncollectedMembers(coins[1..]);
      assert coins == [coins[0]] + coins[1..];
    }
  }

  /**
   * `coin` is the uncollected coin at place `m` of `coins`, and every
   * uncollected coin before it is strictly farther away.
   */
  predicate FirstUncollectedAt(distance: (Position, Position) -> real, playerPosition: Position,
                               coins: seq<Coin>, coin: Coin, m: int)
  {
    0 <= m < |coins| && coins[m] == coin && !coin.collected &&
    forall j :: 0 <= j < m && !coins[j].collected ==>
      distance(playerPosition, coins[j].position) > distance(playerPosition, coin.position)
  }

  /** `coin` is an uncollected coin of `coins` that comes before every strictly nearer uncollected coin. */
  predicate FirstUncollectedAtItsDistance(distance: (Position, Position) -> real, playerPosition: Position,
                                          coins: seq<Coin>, coin: Coin)
  {
    exists m :: 0 <= m < |coins| && FirstUncollectedAt(distance, playerPosition, coins, coin, m)
  }

  /** Putting a coin that is collected, or strictly farther away, in front keeps `coin` first. */
  lemma PrependFarther(distance: (Position, Position) -> real, playerPosition: Position,
                       head: Coin, rest: seq<Coin>, coin: Coin, m: int)
    requires FirstUncollectedAt(distance, playerPosition, rest, coin, m)
    requires head.collected || distance(playerPosition, head.position) > distance(playerPosition, coin.position)
    ensures FirstUncollectedAt(distance, playerPosition, [head] + rest, coin, m + 1)
  {
  }

  /** Filtering keeps the order: first among the uncollected coins is first in the whole list. */
  lemma {:induction false} FilterKeepsFirst(distance: (Position, Position) -> real, playerPosition: Position,
                                            coins: seq<Coin>, coin: Coin, k: int)
    requires 0 <= k < |Uncollected(coins)| && Uncollected(coins)[k] == coin
    requires forall j :: 0 <= j < k ==>
      distance(playerPosition, Uncollected(coins)[j].position) > distance(playerPosition, coin.position)
    ensures FirstUncollectedAtItsDistance(distance, playerPosition, coins, coin)
  {
    var head, rest := coins[0], coins[1..];
    var available, tail := Uncollected(coins), Uncollected(rest);
    var front := if head.collected then [] else [head];
    assert available == front + tail;
    if !head.collected && k == 0 {
      assert FirstUncollectedAt(distance, playerPosition, coins, coin, 0);
    } else {
      var k' := k - |front|;
      assert tail[k'] == available[k];
      forall j | 0 <= j < k'
        ensures distance(playerPosition, tail[j].position) > distance(playerPosition, coin.position)
      {
        assert tail[j] == available[j + |front|];
      }
      assert !head.collected ==> available[0] == head;
      FilterKeepsFirst(distance, playerPosition, rest, coin, k');
      var m :| 0 <= m < |rest| && FirstUncollectedAt(distance, playerPosition, rest, coin, m);
      assert coins == [head] + rest;
      PrependFarther(distance, playerPosition, head, rest, coin, m);
    }
  }

  /**
   * `findNearestCoin`: a scan over the uncollected coins that replaces its
   * candidate only on a strictly smaller distance, so the earliest of
   * equally near coins wins; the winner is returned only within the
   * detection radius. `distance` stands for `calculateDistance`, i.e.
   * `(p, q) => Distance(sqrt, p, q)`; nothing is assumed about it.
   */
  method FindNearestCoin(distance: (Position, Position) -> real, playerPosition: Position, coins: seq<Coin>)
    returns (nearest: Option<Coin>)
    ensures nearest.None? <==>
      forall c :: c in coins && !c.collected ==> distance(playerPosition, c.position) > CoinDetectionRadius
    ensures nearest.Some? ==> nearest.value in coins && !nearest.value.collected
    ensures nearest.Some? ==> distance(playerPosition, nearest.value.position) <= CoinDetectionRadius
    ensures nearest.Some? ==> forall c :: c in coins && !c.collected ==>
      distance(playerPosition, nearest.value.position) <= distance(playerPosition, c.position)
    ensures nearest.Some? ==> FirstUncollectedAtItsDistance(distance, playerPosition, coins, nearest.value)
  {
    var availableCoins := Uncollected(coins);
    UncollectedMembers(coins);
    if |availableCoins| == 0 {
      return None;
    }
    var nearestCoin := availableCoins[0];
    ghost var k := 0;
    var minDistance := distance(playerPosition, nearestCoin.position);
    var i := 1;
    while i < |availableCoins|
      invariant 1 <= i <= |availableCoins|
      invariant 0 <= k < i && nearestCoin == availableCoins[k]
      invariant minDistance == distance(playerPosition, nearestCoin.position)
      invariant forall j :: 0 <= j < i ==> minDistance <= distance(playerPosition, availableCoins[j].position)
      invariant forall j :: 0 <= j < k ==> minDistance < distance(playerPosition, availableCoins[j].position)
    {
      var coin := availableCoins[i];
      var d := distance(playerPosition, coin.position);
      if d < minDistance {
        minDistance := d;
        nearestCoin := coin;
        k := i;
      }
      i := i + 1;
    }
    if minDistance <= CoinDetectionRadius {
      nearest := Some(nearestCoin);
      assert availableCoins[k] == nearestCoin;
      FilterKeepsFirst(distance, playerPosition, coins, nearestCoin, k);
    } else {
      nearest := None;
      forall c | c in coins && !c.collected
        ensures distance(playerPosition, c.position) > CoinDetectionRadius
      {
        assert c in availableCoins;
      }
    }
  }
}
