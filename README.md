# Space-shooter client: entity-table reconciliation

This project models the game scene of the space-shooter client
(`src/game/scenes/game.go`). The scene keeps a table of player entities,
knows the local player's id and writes position updates to the server. Three
paths act on the table:

- **Bootstrap**: after the handshake, the scene creates the local player,
  then one player per roster entry, in the order received.
- **Inbound reconciliation**: each server message touches the table.
  `UpdatePosition` overwrites the position of the *first* entity with a
  matching id, if there is one. `PlayerConnected` always appends a new
  entity. Receive errors, payloads that fail to decode and unknown tags
  change nothing.
- **Outbound tick**: every entity with the local id is moved by the pressed
  keys, in the order W (forward), A (rotate clockwise), D (rotate
  counter-clockwise). Each move sends one `UpdatePosition` with the local id
  and the position that move produced.

Files and modules:

- `wrappers.dfy` (`Wrappers`) holds `Option`, which stands in for a nil entry
  pointer.
- `component.dfy` (`Component`) is the player record (`PlayerData`, mirroring
  `component/player.go`), the position, and the entity. `Motion` bundles the
  three position transforms. They are passed in as arbitrary functions, so
  every result holds whatever the geometry is.
- `messages.dfy` (`Messages`) holds the decoded payloads and the envelope. A
  `Receipt` is the outcome of one receive. `Classify` dispatches on the tag,
  yielding the closed `Inbound` event type.
- `scenes.dfy` (`Scenes`) is the `GameScene` class and the specification
  functions its methods are proved against. The class holds `playerId`, the
  `world` table (a sequence in iteration order) and the `outbox` (a sequence
  of sent messages).
- `facts.dfy` (`SceneFacts`) holds the lemmas about those functions. It also
  holds a stepwise reference for the tick (`Pressed`, `Steer`, `Trail`): the
  pressed keys in polling order, with their transforms applied one after another.
  `PollIsStepwise` ties the scene's three guarded steps to it.

The network, the clock and the keyboard are parameters. The dial outcome and
the first receipt go to `NewGameScene`. Receipts go to
`ReceiveServerUpdate(s)`. The pressed-key set goes to `MovePlayer`. Sends are
appended to `outbox`.

Where the code departs from the behaviour the protocol intends:

- The protocol intends at most one entity per player id. The code does not
  keep this: a join for a known id adds a second entity
  (`SceneFacts.ConnectedBreaksUniqueness`, `SceneFacts.DuplicateJoins`).
  - An update then moves only the first entity with that id
    (`SceneFacts.DuplicateIsSkipped`).
  - The movement tick moves all of them.
  - With unique ids, updating the first match and updating every match agree
    (`SceneFacts.UniqueUpdateIsUpdateAll`).
- The protocol intends the first message to carry the `EstablishConnection` tag.
  The code never looks at that tag: it only decodes the payload as a
  handshake. The model follows the code.
- `NewGameScene` also takes a `playerId` argument, which the code never uses.
  The local id is the one the server assigns. The model keeps the argument
  (`requestedId`) and its contract shows the id comes from the handshake.

## Model

| member | source | states |
|---|---|---|
| Scenes.GameScene.NewGameScene | src/game/scenes/game.go:27-64 | a scene exists exactly when the dial succeeded, the first receive succeeded and its payload decoded as a handshake; it then has the server-assigned id (not the caller's argument), the bootstrap world and an empty outbox |
| Scenes.GameScene.constructor | src/game/scenes/game.go:44-59 | the scene's id is the handshake's id; its world is the local player followed by the roster in order; nothing is sent |
| Scenes.BootstrapWorld | src/game/scenes/game.go:55-59 | the bootstrap world has exactly 1 + N entities: the local player with its handshake position first, then the roster |
| Scenes.Roster | src/game/scenes/game.go:57-59 | one entity per roster entry, in received order, each with that entry's id and position |
| Scenes.GameScene.CreatePlayer | src/game/scenes/game.go:78-96 | the table grows by exactly one entity named "Player One" with the given id, zero health and the given position; existing entries are untouched |
| Scenes.FirstIndex | src/game/scenes/game.go:202-210 | returns the least index holding the id, or None exactly when no entity has it |
| Scenes.GameScene.FindCorrespondingPlayer | src/game/scenes/game.go:202-210 | the linear scan returns the first entity with the id, or None when no entity has it |
| Scenes.ApplyUpdate | src/game/scenes/game.go:183-186 | the table keeps its size; the first entity with the id takes the new position and keeps its player record; all other entities are unchanged; an unknown id leaves the table as it was |
| Messages.Classify | src/game/scenes/game.go:171-197 | a receive error, each recognised tag with a decoded payload, each recognised tag with an undecodable payload, and every other tag map to their own event, each in both directions; decoded events carry the payload's id and position, and an unrecognised tag event carries the received tag |
| Scenes.GameScene.ReceiveServerUpdate | src/game/scenes/game.go:169-198 | one turn of the receive loop changes the table as the classified event prescribes and nothing else |
| Scenes.GameScene.ReceiveServerUpdates | src/game/scenes/game.go:168-200 | processing a run of receipts changes the table as the events do, first to last; errors are skipped and the loop goes on |
| SceneFacts.UnknownUpdateIgnored | src/game/scenes/game.go:183-186 | an update for an id no entity has leaves the table unchanged in count and contents |
| SceneFacts.UpdateOverwritesFirstMatch | src/game/scenes/game.go:183-186 | an update for a known id changes only the position of the first matching entity; its id and name stay; later duplicates and all others are unchanged |
| SceneFacts.ConnectedAppends | src/game/scenes/game.go:188-196 | a join always appends exactly one entity with the joining id and position, keeping the existing table as a prefix |
| SceneFacts.DuplicateJoins | src/game/scenes/game.go:188-196 | two joins with the same id, at any two positions, append two entries with that id, each at its own position, after the old table; the ids are then no longer unique |
| SceneFacts.IgnoredReceipts | src/game/scenes/game.go:171-197 | a receive error, an undecodable payload under either recognised tag, or an unrecognised tag changes nothing |
| SceneFacts.ReconcileAllGrows | src/game/scenes/game.go:168-200 | over any run of receipts the table grows by exactly the number of joins, and existing entities keep their place and player record |
| SceneFacts.QuietRunChangesNothing | src/game/scenes/game.go:169-197 | a run with no successful update or join leaves the table unchanged |
| SceneFacts.UniqueUpdateIsUpdateAll | src/game/scenes/game.go:202-210 | when ids are unique, updating the first match equals updating every match |
| SceneFacts.DuplicateIsSkipped | src/game/scenes/game.go:204-207 | with a duplicated id, an update leaves the later duplicate unmoved, where updating every match would move it |
| SceneFacts.ConnectedBreaksUniqueness | src/game/scenes/game.go:188-196 | a join for an id already present leaves two entities with that id |
| Scenes.GameScene.SendUpdatePosition | src/game/scenes/game.go:132-141 | each send appends one message carrying the local id and the given position to the outbox |
| Scenes.GameScene.MovePlayer | src/game/scenes/game.go:130-165 | the new table is the moved table and the outbox gains exactly the tick's messages, entity by entity in table order |
| Scenes.GameScene.SteerPlayer | src/game/scenes/game.go:150-163 | for one local entity, the position is transformed in place key by key and each key sends the position it produced |
| Scenes.GameScene.Nudge | src/game/scenes/game.go:131-162 | one key's step transforms the position of that entity in place, then appends one message with the local id and the new position; nothing else changes |
| SceneFacts.MovedAt | src/game/scenes/game.go:145-163 | the tick keeps every entity's player record; an entity without the local id is untouched; one with it ends at its position after each pressed key's transform in W, A, D order |
| SceneFacts.PollIsStepwise | src/game/scenes/game.go:151-162 | the three guarded key steps pass through exactly the positions obtained by applying the pressed keys' transforms one after another, and end at the last of them (the start when no key is pressed) |
| SceneFacts.PressedInOrder | src/game/scenes/game.go:151-162 | the keys acted on are exactly the pressed ones, each once, in W, A, D order; none exactly when no key is pressed |
| SceneFacts.TrailAt | src/game/scenes/game.go:151-162 | the j-th intermediate position is the position after the first j + 1 pressed keys' transforms |
| SceneFacts.SentPositions | src/game/scenes/game.go:150-163 | a local entity sends one message per pressed key, the j-th carrying the local id and the position after the j-th key |
| SceneFacts.OutgoingLength | src/game/scenes/game.go:145-163 | the tick sends (number of local entities) x (number of pressed keys) messages |
| SceneFacts.OutgoingIds | src/game/scenes/game.go:131-141 | every message the tick sends carries the local id |
| SceneFacts.NoLocalSendsNothing | src/game/scenes/game.go:145-148 | with no entity for the local id, the tick moves nothing and sends nothing |
| SceneFacts.SingleLocalEntity | src/game/scenes/game.go:145-163 | with exactly one local entity, the outbox gains one message per pressed key, in W, A, D order, each with the position after that key, and only that entity moves |
| SceneFacts.NoKeysNoEffect | src/game/scenes/game.go:151-163 | with no key pressed, no entity changes and no message is sent |
| SceneFacts.EndToEnd | src/game/scenes/game.go:183-186 | bootstrapping as player 1 with player 2 on the roster, then updating player 2, moves player 2 only |

## Left out

- Network I/O (the WebSocket dial, read and write) is left out. The dial outcome and each receive outcome are parameters. Writes are appended to `outbox`, and write errors are ignored as in the code.
- Message encoding and decoding is foreign library code, so its round trips are not stated. Each envelope instead states what decoding its payload into each recognised shape yields.
- The receive loop runs forever on its own goroutine, sharing the world with the movement tick without synchronisation. The model does not capture this interleaving. Each loop turn and each tick is one atomic sequential method call. `ReceiveServerUpdates` processes a finite run of receipts.
- Failures in bootstrap (`log.Fatal`) end the process. The model shows them only as `NewGameScene` returning None.
- Rendering (`Draw`, `drawEnvironment`), `Update`, the sprite component and the per-player ship image lookup are UI glue and are left out. So is the ECS system and renderer registration.
- `ebiten.IsKeyPressed` is polled separately for each key and entity. The model takes one set of pressed keys per tick.
- The geometry of `Forward`, `RotateClockwise` and `RotateCounterClockwise` uses floats and lives outside the modelled files. These stay arbitrary functions, so the intended "forward moves by a fixed step" and "rotating clockwise then counter-clockwise returns to the start" are not stated. Positions and health are reals, not floats.
- The ECS storage appears only as a sequence in iteration order. Both queries of the code visit entities in creation order, a property of the ECS implementation that the model takes as given.
- Player ids are unbounded integers. The code's conversions between `messages.PlayerId` and `int` (game.go lines 58, 88, 146 and 205) are taken as lossless. The ship-sprite lookup by player id at line 101 could fail for an id without a ship; that failure is not modelled.
