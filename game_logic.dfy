/**
 * The snake and coin list operations of the game. Each works on a copy of
 * its input list, which is a value (`seq`) here, so the caller's list is
 * never changed.
 */
module GameLogic {
  import opened Wrappers
  import opened GameTypes

  /** A coin closer than this to a player is collected. */
  const CollectionRadius: real := 2.5

  /** A snake segment closer than this to the head is a collision. */
  const SelfCollisionRadius: real := 1.0

  /** Segments 0, 1 and 2 are never tested against the head. */
  const FirstCollidableSegment := 3

  /** Within this horizontal distance of its target a follower does not move. */
  const FollowThreshold: real := 0.1

  predicate InReach(sqrt: real -> real, playerPos: Position, coin: Coin)
  {
    Distance(sqrt, playerPos, coin.position) < CollectionRadius
  }

  /**
   * `collectCoinsForPlayer`: every uncollected coin within reach is marked
   * collected; the flag reports whether any was.
   */
  method CollectCoinsForPlayer(sqrt: real -> real, playerPos: Position, coinsArr: seq<Coin>)
    returns (updatedCoins: seq<Coin>, coinCollected: bool)
    ensures |updatedCoins| == |coinsArr|
    ensures forall i :: 0 <= i < |coinsArr| ==>
      updatedCoins[i].id == coinsArr[i].id && updatedCoins[i].position == coinsArr[i].position
    ensures forall i :: 0 <= i < |coinsArr| ==>
      updatedCoins[i].collected == (coinsArr[i].collected || InReach(sqrt, playerPos, coinsArr[i]))
    ensures forall i :: 0 <= i < |coinsArr| && coinsArr[i].collected ==> updatedCoins[i] == coinsArr[i]
    ensures coinCollected <==>
      exists i :: 0 <= i < |coinsArr| && !coinsArr[i].collected && InReach(sqrt, playerPos, coinsArr[i])
    ensures coinCollected <==>
      exists i :: 0 <= i < |coinsArr| && !coinsArr[i].collected && updatedCoins[i].collected
  {
    coinCollected := false;
    updatedCoins := [];
    var i := 0;
    while i < |coinsArr|
      invariant 0 <= i <= |coinsArr| && |updatedCoins| == i
      invariant forall j :: 0 <= j < i ==>
        updatedCoins[j] == if !coinsArr[j].collected && InReach(sqrt, playerPos, coinsArr[j])
                           then coinsArr[j].(collected := true) else coinsArr[j]
      invariant coinCollected <==>
        exists j :: 0 <= j < i && !coinsArr[j].collected && InReach(sqrt, playerPos, coinsArr[j])
    {
      var coin := coinsArr[i];
      if !coin.collected && InReach(sqrt, playerPos, coin) {
        coinCollected := true;
        coin := coin.(collected := true);
      }
      updatedCoins := updatedCoins + [coin];
      i := i + 1;
    }
  }

  /**
   * `addSnakeSegments`: no snake stays no snake; otherwise `count` copies
   * of the last segment's position are appended, each numbered by its
   * place in the result.
   */
  method AddSnakeSegments(prevSegments: Option<seq<SnakeSegment>>, count: int)
    returns (newSegments: seq<SnakeSegment>)
    ensures prevSegments.None? || prevSegments.value == [] ==> newSegments == []
    ensures prevSegments.Some? && prevSegments.value != [] ==>
      var prev := prevSegments.value;
      && |newSegments| == |prev| + (if count > 0 then count else 0)
      && newSegments[..|prev|] == prev
      && forall k :: |prev| <= k < |newSegments| ==>
           newSegments[k] == SnakeSegment(prev[|prev| - 1].position, k)
  {
    if prevSegments.None? || |prevSegments.value| == 0 {
      return [];
    }
    var prev := prevSegments.value;
    newSegments := prev;
    var lastSegment := newSegments[|newSegments| - 1];
    var i := 0;
    while i < count
      invariant 0 <= i <= (if count > 0 then count else 0)
      invariant |newSegments| == |prev| + i
      invariant newSegments[..|prev|] == prev
      invariant forall k :: |prev| <= k < |newSegments| ==>
        newSegments[k] == SnakeSegment(lastSegment.position, k)
    {
      newSegments := newSegments + [SnakeSegment(lastSegment.position, |newSegments|)];
      i := i + 1;
    }
  }

  /** The distance in the x-z plane from `from` to `target`. */
  function HorizontalDistance(sqrt: real -> real, target: Position, from: Position): real
  {
    var dirX := target.x - from.x;
    var dirZ := target.z - from.z;
    sqrt(dirX * dirX + dirZ * dirZ)
  }

  /**
   * Where one follower goes: toward `target` (the old position of the
   * segment in front of it) by at most `movementSpeed * 1.5`, along x and
   * z only, and not at all within 0.1 of it.
   */
  function Follow(sqrt: real -> real, target: Position, current: SnakeSegment, movementSpeed: real): SnakeSegment
  {
    var pos := current.position;
    var dirX := target.x - pos.x;
    var dirZ := target.z - pos.z;
    var distance := HorizontalDistance(sqrt, target, pos);
    if distance > FollowThreshold then
      var moveSpeed := if distance < movementSpeed * 1.5 then distance else movementSpeed * 1.5;
      current.(position := Position(pos.x + dirX / distance * moveSpeed, pos.y, pos.z + dirZ / distance * moveSpeed))
    else
      current
  }

  /** A follower keeps its index and its height, and stays put when already at its target. */
  lemma FollowKeepsShape(sqrt: real -> real, target: Position, current: SnakeSegment, movementSpeed: real)
    ensures Follow(sqrt, target, current, movementSpeed).index == current.index
    ensures Follow(sqrt, target, current, movementSpeed).position.y == current.position.y
    ensures HorizontalDistance(sqrt, target, current.position) <= FollowThreshold ==>
              Follow(sqrt, target, current, movementSpeed) == current
  {
  }

  /** A follower no farther from its target than one step lands exactly on the target's x and z. */
  lemma FollowReachesNearTarget(sqrt: real -> real, target: Position, current: SnakeSegment, movementSpeed: real)
    requires FollowThreshold < HorizontalDistance(sqrt, target, current.position) <= movementSpeed * 1.5
    ensures Follow(sqrt, target, current, movementSpeed).position == Position(target.x, current.position.y, target.z)
  {
  }

  /**
   * `updateSnakeSegments`: no snake becomes a one-segment snake at the
   * head; otherwise the head moves to `headPosition` and every follower
   * follows the OLD position of the segment in front of it.
   */
  method UpdateSnakeSegments(sqrt: real -> real, prevSegments: Option<seq<SnakeSegment>>,
                             headPosition: Position, movementSpeed: real)
    returns (newSegments: seq<SnakeSegment>)
    ensures prevSegments.None? || prevSegments.value == [] ==> newSegments == [SnakeSegment(headPosition, 0)]
    ensures prevSegments.Some? && prevSegments.value != [] ==>
      var prev := prevSegments.value;
      && |newSegments| == |prev|
      && newSegments[0] == prev[0].(position := headPosition)
      && forall i :: 1 <= i < |prev| ==>
           newSegments[i] == Follow(sqrt, prev[i - 1].position, prev[i], movementSpeed)
  {
    if prevSegments.None? || |prevSegments.value| == 0 {
      return [SnakeSegment(headPosition, 0)];
    }
    var prev := prevSegments.value;
    newSegments := prev;
    var prevPositions := seq(|prev|, j requires 0 <= j < |prev| => prev[j].position);
    newSegments := newSegments[0 := newSegments[0].(position := headPosition)];
    var i := 1;
    while i < |newSegments|
      invariant 1 <= i <= |newSegments| == |prev|
      invariant newSegments[0] == prev[0].(position := headPosition)
      invariant forall j :: 1 <= j < i ==> newSegments[j] == Follow(sqrt, prev[j - 1].position, prev[j], movementSpeed)
      invariant forall j :: i <= j < |prev| ==> newSegments[j] == prev[j]
    {
      newSegments := newSegments[i := Follow(sqrt, prevPositions[i - 1], prev[i], movementSpeed)];
      i := i + 1;
    }
  }

  /** `updateSnakeSegments` keeps the snake's shape: its length, every index and every follower's height. */
  lemma UpdateKeepsShape(sqrt: real -> real, prev: seq<SnakeSegment>, headPosition: Position,
                         movementSpeed: real, next: seq<SnakeSegment>)
    requires prev != [] && |next| == |prev|
    requires next[0] == prev[0].(position := headPosition)
    requires forall i :: 1 <= i < |prev| ==> next[i] == Follow(sqrt, prev[i - 1].position, prev[i], movementSpeed)
    ensures next[0].position == headPosition
    ensures forall i :: 0 <= i < |prev| ==> next[i].index == prev[i].index
    ensures forall i :: 1 <= i < |prev| ==> next[i].position.y == prev[i].position.y
  {
    forall i | 1 <= i < |prev|
      ensures next[i].index == prev[i].index && next[i].position.y == prev[i].position.y
    {
      FollowKeepsShape(sqrt, prev[i - 1].position, prev[i], movementSpeed);
    }
  }

  /** `checkSelfCollision`: some segment from index 3 on is within 1.0 of the head. */
  method CheckSelfCollision(sqrt: real -> real, headPosition: Position, snakeSegments: seq<SnakeSegment>)
    returns (collided: bool)
    ensures collided <==>
      exists i :: FirstCollidableSegment <= i < |snakeSegments| &&
                  Distance(sqrt, headPosition, snakeSegments[i].position) < SelfCollisionRadius
    ensures |snakeSegments| <= FirstCollidableSegment ==> !collided
  {
    var i := FirstCollidableSegment;
    while i < |snakeSegments|
      invariant FirstCollidableSegment <= i
      invariant forall j :: FirstCollidableSegment <= j < i && j < |snakeSegments| ==>
        Distance(sqrt, headPosition, snakeSegments[j].position) >= SelfCollisionRadius
    {
      if Distance(sqrt, headPosition, snakeSegments[i].position) < SelfCollisionRadius {
        return true;
      }
      i := i + 1;
    }
    return false;
  }
}
