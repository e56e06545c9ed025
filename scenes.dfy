/**
 * The game scene of the client: the table of player entities, the local
 * player's id, and the outbox of messages written to the server. It holds
 * the three paths that touch the table: the bootstrap from the handshake,
 * the inbound reconciliation of server messages, and the outbound movement
 * tick driven by the pressed keys.
 */
module Scenes {
  import opened Wrappers
  import opened Component
  import opened Messages

  // ---------------------------------------------------------------------
  // Bootstrap
  // ---------------------------------------------------------------------

  /** The entities created for the remote roster, one per entry, in order. */
  function Roster(enemies: seq<EnemyData>): (r: seq<Entity>)
    ensures |r| == |enemies|
    ensures forall j :: 0 <= j < |enemies| ==>
      r[j] == NewEntity(enemies[j].playerId, enemies[j].position)
  {
    seq(|enemies|, j requires 0 <= j < |enemies| =>
      NewEntity(enemies[j].playerId, enemies[j].position))
  }

  /** The world right after the handshake: the local player, then the roster. */
  function BootstrapWorld(ec: EstablishConnection): (w: seq<Entity>)
    ensures |w| == 1 + |ec.enemyData|
    ensures w[0] == NewEntity(ec.playerId, ec.position)
    ensures w[1..] == Roster(ec.enemyData)
  {
    [NewEntity(ec.playerId, ec.position)] + Roster(ec.enemyData)
  }

  // ---------------------------------------------------------------------
  // Inbound reconciliation
  // ---------------------------------------------------------------------

  /** The index of the first entity with the given id, if there is one. */
  function FirstIndex(w: seq<Entity>, id: int): (r: Option<nat>)
    ensures r.Some? ==> r.value < |w| && w[r.value].Id() == id
    ensures r.Some? ==> forall j :: 0 <= j < r.value ==> w[j].Id() != id
    ensures r.None? <==> forall j :: 0 <= j < |w| ==> w[j].Id() != id
  {
    if w == [] then None
    else if w[0].Id() == id then Some(0)
    else match FirstIndex(w[1..], id)
      case None => None
      case Some(i) => Some(i + 1)
  }

  /**
   * An update for `id`: the first entity with that id takes the new
   * position wholesale; nothing else changes, and an unknown id changes nothing.
   */
  function ApplyUpdate(w: seq<Entity>, id: int, position: Position): (r: seq<Entity>)
    ensures |r| == |w|
    ensures FirstIndex(w, id).None? ==> r == w
    ensures FirstIndex(w, id).Some? ==>
      var i := FirstIndex(w, id).value;
      r[i] == Entity(w[i].player, position) &&
      forall j :: 0 <= j < |w| && j != i ==> r[j] == w[j]
  {
    match FirstIndex(w, id)
    case None => w
    case Some(i) => w[i := w[i].(position := position)]
  }

  /** The effect of one inbound event on the table. */
  function Reconcile(w: seq<Entity>, e: Inbound): seq<Entity> {
    match e
    case Update(id, position) => ApplyUpdate(w, id, position)
    case Connected(id, position) => w + [NewEntity(id, position)]
    case _ => w
  }

  /** The table after a run of receipts, processed first to last. */
  function ReconcileAll(w: seq<Entity>, rs: seq<Receipt>): seq<Entity>
    decreases |rs|
  {
    if rs == [] then w
    else Reconcile(ReconcileAll(w, rs[..|rs| - 1]), Classify(rs[|rs| - 1]))
  }

  // ---------------------------------------------------------------------
  // Outbound movement tick
  // ---------------------------------------------------------------------

  /** The keys the movement tick polls. */
  datatype Key = W | A | D

  /**
   * The positions a local entity passes through in one tick: W moves it
   * forward, then A rotates it clockwise, then D counter-clockwise, each only
   * when pressed; one position per pressed key, in that order.
   */
  function Poll(m: Motion, p: Position, keys: set<Key>): seq<Position> {
    var p1 := if W in keys then m.forward(p) else p;
    var p2 := if A in keys then m.rotateClockwise(p1) else p1;
    var p3 := if D in keys then m.rotateCounterClockwise(p2) else p2;
    (if W in keys then [p1] else []) +
    (if A in keys then [p2] else []) +
    (if D in keys then [p3] else [])
  }

  /** The position a local entity ends the tick at: the last one it passed through. */
  function Polled(m: Motion, p: Position, keys: set<Key>): Position {
    var ps := Poll(m, p, keys);
    if ps == [] then p else ps[|ps| - 1]
  }

  /** One update message for `id` per position, in order. */
  function Announce(id: int, ps: seq<Position>): (r: seq<UpdatePosition>)
  {
    seq(|ps|, j requires 0 <= j < |ps| => UpdatePosition(id, ps[j]))
  }

  /** An entity after the tick: only an entity with the local id moves. */
  function MovedEntity(e: Entity, id: int, keys: set<Key>, m: Motion): Entity {
    if e.Id() == id then e.(position := Polled(m, e.position, keys)) else e
  }

  /** The messages the tick sends for one entity. */
  function Sent(e: Entity, id: int, keys: set<Key>, m: Motion): seq<UpdatePosition> {
    if e.Id() == id then Announce(id, Poll(m, e.position, keys)) else []
  }

  /**
   * The table after the tick: every entity with the local id ends where the
   * pressed keys take it, keeping its player record; every other entity is untouched.
   */
  function Moved(w: seq<Entity>, id: int, keys: set<Key>, m: Motion): (r: seq<Entity>)
    ensures |r| == |w|
    decreases |w|
  {
    if w == [] then []
    else Moved(w[..|w| - 1], id, keys, m) + [MovedEntity(w[|w| - 1], id, keys, m)]
  }

  /** All messages the tick sends, entity by entity in table order. */
  function Outgoing(w: seq<Entity>, id: int, keys: set<Key>, m: Motion): seq<UpdatePosition>
    decreases |w|
  {
    if w == [] then []
    else Outgoing(w[..|w| - 1], id, keys, m) + Sent(w[|w| - 1], id, keys, m)
  }

  /** One entity further into the tick: the table and the messages extend by that entity's share. */
  lemma TickStep(w0: seq<Entity>, i: nat, id: int, keys: set<Key>, m: Motion, base: seq<UpdatePosition>)
    requires i < |w0|
    ensures (Moved(w0[..i], id, keys, m) + w0[i..])[i := MovedEntity(w0[i], id, keys, m)] ==
      Moved(w0[..i + 1], id, keys, m) + w0[i + 1..]
    ensures base + Outgoing(w0[..i + 1], id, keys, m) == (base + Outgoing(w0[..i], id, keys, m)) + Sent(w0[i], id, keys, m)
  {
    assert w0[..i + 1][..i] == w0[..i];
  }

  lemma AnnounceSnoc(base: seq<UpdatePosition>, id: int, ps: seq<Position>, q: Position)
    ensures base + Announce(id, ps + [q]) == (base + Announce(id, ps)) + [UpdatePosition(id, q)]
  {
  }

  // ---------------------------------------------------------------------
  // The scene
  // ---------------------------------------------------------------------

  class GameScene {
    /** The id the server assigned to this client in the handshake. */
    const playerId: int
    /** The entity table, in the ECS's iteration order. */
    var world: seq<Entity>
    /** Every message written to the connection, oldest first. */
    var outbox: seq<UpdatePosition>

    /**
     * Connect and bootstrap. A failed dial, a failed receive of the first
     * message or a first payload that does not decode as a handshake ends
     * the process; the model returns None for these. The tag of the first
     * message is not inspected, and `requestedId` plays no part: the local
     * id is the one the server assigns.
     */
    static method NewGameScene(dialed: bool, first: Receipt, requestedId: int)
      returns (scene: Option<GameScene>)
      ensures scene.Some? <==>
        dialed && first.Delivered? && first.envelope.payload.asEstablishConnection.Some?
      ensures scene.Some? ==>
        var ec := first.envelope.payload.asEstablishConnection.value;
        fresh(scene.value) &&
        scene.value.playerId == ec.playerId &&
        scene.value.world == BootstrapWorld(ec) &&
        scene.value.outbox == []
    {
      if !dialed {
        return None;
      }
      if first.ReceiveFailed? {
        return None;
      }
      match first.envelope.payload.asEstablishConnection
      case None =>
        return None;
      case Some(ec) =>
        var s := new GameScene(ec);
        return Some(s);
    }

    /** Seed the world from a decoded handshake: ourselves first, then the roster in order. */
    constructor (ec: EstablishConnection)
      ensures playerId == ec.playerId
      ensures world == BootstrapWorld(ec)
      ensures outbox == []
    {
      playerId := ec.playerId;
      world := [];
      outbox := [];
      new;
      CreatePlayer(ec.playerId, ec.position);
      for i := 0 to |ec.enemyData|
        invariant world == [NewEntity(ec.playerId, ec.position)] + Roster(ec.enemyData[..i])
        invariant outbox == []
      {
        CreatePlayer(ec.enemyData[i].playerId, ec.enemyData[i].position);
      }
      assert ec.enemyData[..|ec.enemyData|] == ec.enemyData;
    }

    /** Add one entity for `id` at `position`; existing entities are untouched. */
    method CreatePlayer(id: int, position: Position)
      modifies this`world
      ensures world == old(world) + [Entity(PlayerData(DefaultName, 0.0, id), position)]
    {
      world := world + [NewEntity(id, position)];
    }

    /** The index of the first entity whose id is `id`, or None. */
    method FindCorrespondingPlayer(id: int) returns (r: Option<nat>)
      ensures r.Some? ==> r.value < |world| && world[r.value].Id() == id
      ensures r.Some? ==> forall j :: 0 <= j < r.value ==> world[j].Id() != id
      ensures r.None? ==> forall j :: 0 <= j < |world| ==> world[j].Id() != id
      ensures r == FirstIndex(world, id)
    {
      var i := 0;
      while i < |world|
        invariant 0 <= i <= |world|
        invariant forall j :: 0 <= j < i ==> world[j].Id() != id
      {
        if world[i].Id() == id {
          return Some(i);
        }
        i := i + 1;
      }
      return None;
    }

    /** One turn of the receive loop: apply the received message, if any, to the table. */
    method ReceiveServerUpdate(r: Receipt)
      modifies this`world
      ensures world == Reconcile(old(world), Classify(r))
    {
      if r.ReceiveFailed? {
        return;
      }
      var message := r.envelope;
      if message.messageType == UpdatePositionTag {
        if message.payload.asUpdatePosition.None? {
          return;
        }
        var update := message.payload.asUpdatePosition.value;
        var entry := FindCorrespondingPlayer(update.playerId);
        if entry.Some? {
          world := world[entry.value := world[entry.value].(position := update.position)];
        }
      } else if message.messageType == PlayerConnectedTag {
        if message.payload.asPlayerConnected.None? {
          return;
        }
        var connected := message.payload.asPlayerConnected.value;
        CreatePlayer(connected.playerId, connected.position);
      }
    }

    /** The receive loop over a run of receipts: each is handled in turn, errors skipped. */
    method ReceiveServerUpdates(rs: seq<Receipt>)
      modifies this`world
      ensures world == ReconcileAll(old(world), rs)
    {
      for i := 0 to |rs|
        invariant world == ReconcileAll(old(world), rs[..i])
      {
        assert rs[..i + 1][..i] == rs[..i];
        ReceiveServerUpdate(rs[i]);
      }
      assert rs[..|rs|] == rs;
    }

    /** Write one position update for the local player to the connection. */
    method SendUpdatePosition(position: Position)
      modifies this`outbox
      ensures outbox == old(outbox) + [UpdatePosition(playerId, position)]
    {
      outbox := outbox + [UpdatePosition(playerId, position)];
    }

    /**
     * The movement tick: every entity with the local id is moved in place by
     * each pressed key in the order W, A, D, and each move sends the position
     * it produced.
     */
    method MovePlayer(keys: set<Key>, m: Motion)
      modifies this`world, this`outbox
      ensures world == Moved(old(world), playerId, keys, m)
      ensures outbox == old(outbox) + Outgoing(old(world), playerId, keys, m)
    {
      ghost var w0 := world;
      var i := 0;
      while i < |world|
        invariant 0 <= i <= |world| == |w0|
        invariant world == Moved(w0[..i], playerId, keys, m) + w0[i..]
        invariant outbox == old(outbox) + Outgoing(w0[..i], playerId, keys, m)
      {
        TickStep(w0, i, playerId, keys, m, old(outbox));
        if playerId == world[i].Id() {
          SteerPlayer(i, keys, m);
        } else {
          assert world[i := MovedEntity(w0[i], playerId, keys, m)] == world;
        }
        i := i + 1;
      }
      assert w0[..|w0|] == w0;
    }

    /** One pressed key: transform entity `i`'s position in place, then send it. */
    method Nudge(i: nat, f: Position -> Position)
      requires i < |world|
      modifies this`world, this`outbox
      ensures world == old(world)[i := old(world)[i].(position := f(old(world)[i].position))]
      ensures outbox == old(outbox) + [UpdatePosition(playerId, world[i].position)]
    {
      world := world[i := world[i].(position := f(world[i].position))];
      SendUpdatePosition(world[i].position);
    }

    /**
     * The body of the tick for one entity with the local id: each pressed key
     * transforms its position in place and sends the result.
     */
    method SteerPlayer(i: nat, keys: set<Key>, m: Motion)
      requires i < |world| && world[i].Id() == playerId
      modifies this`world, this`outbox
      ensures world == old(world)[i := MovedEntity(old(world)[i], playerId, keys, m)]
      ensures outbox == old(outbox) + Sent(old(world)[i], playerId, keys, m)
    {
      ghost var p0, base := world[i].position, outbox;
      ghost var ps: seq<Position> := [];
      if W in keys {
        Nudge(i, m.forward);
        AnnounceSnoc(base, playerId, ps, world[i].position);
        ps := ps + [world[i].position];
      }
      if A in keys {
        Nudge(i, m.rotateClockwise);
        AnnounceSnoc(base, playerId, ps, world[i].position);
        ps := ps + [world[i].position];
      }
      if D in keys {
        Nudge(i, m.rotateCounterClockwise);
        AnnounceSnoc(base, playerId, ps, world[i].position);
        ps := ps + [world[i].position];
      }
      assert ps == Poll(m, p0, keys);
    }
  }
}
