/**
 * The game's value types and the Euclidean distance both game files use.
 * Coordinates are reals; `Math.sqrt` is the parameter `sqrt`, about which
 * nothing is assumed.
 */
module GameTypes {

  /** A `[x, y, z]` position tuple. */
  datatype Position = Position(x: real, y: real, z: real)

  datatype SnakeSegment = SnakeSegment(position: Position, index: int)

  datatype Coin = Coin(id: string, position: Position, collected: bool)

  /** `calculateDistance`, and the same formula written inline in the collision checks. */
  function Distance(sqrt: real -> real, p: Position, q: Position): real
  {
    var dx := p.x - q.x;
    var dy := p.y - q.y;
    var dz := p.z - q.z;
    sqrt(dx * dx + dy * dy + dz * dz)
  }
}
