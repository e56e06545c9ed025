/**
 * The ECS components the game client attaches to every player entity:
 * the player record, its position, and the movement transforms on positions.
 */
module Component {

  /**
   * A position on the screen with a heading (X, Y, Angle). The model never
   * looks inside a position: all it needs is that positions can be stored,
   * compared and handed to the movement transforms.
   */
  datatype Position = Position(x: real, y: real, angle: real)

  /**
   * The three movement transforms of a position. Their geometry is defined
   * outside the modelled files, so they are left uninterpreted: every
   * property of the model holds for every choice of these functions.
   */
  datatype Motion = Motion(
    forward: Position -> Position,
    rotateClockwise: Position -> Position,
    rotateCounterClockwise: Position -> Position)

  /** The player record; `id` is the key the client matches entities on. */
  datatype PlayerData = PlayerData(name: string, health: real, id: int)

  /**
   * One entity of the world as the client sees it: its player record and its
   * position component (the sprite component is rendering state and is not modelled).
   */
  datatype Entity = Entity(player: PlayerData, position: Position) {
    function Id(): int { player.id }
  }

  /** The name every created player receives, whoever it is. */
  const DefaultName: string := "Player One"

  /** A freshly created player: default name, zero health, the given id and position. */
  function NewEntity(id: int, position: Position): Entity {
    Entity(PlayerData(DefaultName, 0.0, id), position)
  }
}
