/**
 * Properties of the scene's three paths, stated over the specification
 * functions that the scene's methods are proved to follow.
 */
module SceneFacts {
  import opened Wrappers
  import opened Component
  import opened Messages
  import opened Scenes

  // ---------------------------------------------------------------------
  // Inbound reconciliation
  // ---------------------------------------------------------------------

  /** An update for an id no entity has leaves the table as it was. */
  lemma UnknownUpdateIgnored(w: seq<Entity>, id: int, position: Position)
    requires forall j :: 0 <= j < |w| ==> w[j].Id() != id
    ensures Reconcile(w, Update(id, position)) == w
  {
  }

  /**
   * An update for a known id overwrites the position of the first entity with
   * that id, keeps its player record, and leaves every other entity, later
   * duplicates of the same id included, as it was.
   */
  lemma UpdateOverwritesFirstMatch(w: seq<Entity>, id: int, position: Position, i: nat)
    requires i < |w| && w[i].Id() == id
    requires forall j :: 0 <= j < i ==> w[j].Id() != id
    ensures var r := Reconcile(w, Update(id, position));
      |r| == |w| &&
      r[i].player == w[i].player && r[i].position == position &&
      forall j :: 0 <= j < |w| && j != i ==> r[j] == w[j]
  {
    assert FirstIndex(w, id) == Some(i);
  }

  /** A join appends one new entity, whether or not its id is already present. */
  lemma ConnectedAppends(w: seq<Entity>, id: int, position: Position)
    ensures var r := Reconcile(w, Connected(id, position));
      |r| == |w| + 1 && r[..|w|] == w &&
      r[|w|].player == PlayerData(DefaultName, 0.0, id) && r[|w|].position == position
  {
  }

  /** Two joins with the same id give two entries with that id, each at its own position. */
  lemma DuplicateJoins(w: seq<Entity>, id: int, p1: Position, p2: Position)
    ensures var r := Reconcile(Reconcile(w, Connected(id, p1)), Connected(id, p2));
      |r| == |w| + 2 && r[..|w|] == w &&
      r[|w|] == NewEntity(id, p1) && r[|w| + 1] == NewEntity(id, p2) &&
      !UniqueIds(r)
  {
  }

  /** A receive error, a payload that does not decode, or an unknown tag changes nothing. */
  lemma IgnoredReceipts(w: seq<Entity>, r: Receipt)
    requires || r.ReceiveFailed?
             || (r.envelope.messageType != UpdatePositionTag &&
                 r.envelope.messageType != PlayerConnectedTag)
             || (r.envelope.messageType == UpdatePositionTag &&
                 r.envelope.payload.asUpdatePosition.None?)
             || (r.envelope.messageType == PlayerConnectedTag &&
                 r.envelope.payload.asPlayerConnected.None?)
    ensures Reconcile(w, Classify(r)) == w
  {
  }

  /** The number of receipts in `rs` that add an entity. */
  function Joins(rs: seq<Receipt>): nat
    decreases |rs|
  {
    if rs == [] then 0
    else Joins(rs[..|rs| - 1]) + (if Classify(rs[|rs| - 1]).Connected? then 1 else 0)
  }

  /**
   * Over any run of receipts the table only grows, by one entity per join;
   * the entities already present keep their place and their player record.
   */
  lemma {:induction false} ReconcileAllGrows(w: seq<Entity>, rs: seq<Receipt>)
    ensures |ReconcileAll(w, rs)| == |w| + Joins(rs)
    ensures forall j :: 0 <= j < |w| ==> ReconcileAll(w, rs)[j].player == w[j].player
    decreases |rs|
  {
    if rs != [] {
      ReconcileAllGrows(w, rs[..|rs| - 1]);
    }
  }

  /** A run in which nothing updates or joins leaves the table as it was. */
  lemma {:induction false} QuietRunChangesNothing(w: seq<Entity>, rs: seq<Receipt>)
    requires forall k :: 0 <= k < |rs| ==> !Classify(rs[k]).Update? && !Classify(rs[k]).Connected?
    ensures ReconcileAll(w, rs) == w
    decreases |rs|
  {
    if rs != [] {
      QuietRunChangesNothing(w, rs[..|rs| - 1]);
    }
  }

  // ---------------------------------------------------------------------
  // First match versus every match
  // ---------------------------------------------------------------------

  /** No two entities share an id. */
  predicate UniqueIds(w: seq<Entity>) {
    forall i, j :: 0 <= i < j < |w| ==> w[i].Id() != w[j].Id()
  }

  /** A reference update that moves every entity with the id. */
  function UpdateAll(w: seq<Entity>, id: int, position: Position): seq<Entity> {
    seq(|w|, j requires 0 <= j < |w| =>
      if w[j].Id() == id then w[j].(position := position) else w[j])
  }

  /** When ids are unique, updating the first match is updating every match. */
  lemma UniqueUpdateIsUpdateAll(w: seq<Entity>, id: int, position: Position)
    requires UniqueIds(w)
    ensures ApplyUpdate(w, id, position) == UpdateAll(w, id, position)
  {
    var r, u := ApplyUpdate(w, id, position), UpdateAll(w, id, position);
    forall j | 0 <= j < |w| ensures r[j] == u[j] {
      match FirstIndex(w, id)
      case None =>
      case Some(i) =>
        if j != i {
          assert w[j].Id() != id by {
            if j < i { } else { assert w[i].Id() != w[j].Id(); }
          }
        }
    }
  }

  /** With a duplicate id, the later entity is not moved, where an update-all would move it. */
  lemma DuplicateIsSkipped(w: seq<Entity>, id: int, position: Position, i: nat, k: nat)
    requires i < k < |w| && w[i].Id() == id && w[k].Id() == id
    requires w[k].position != position
    ensures ApplyUpdate(w, id, position)[k] == w[k]
    ensures UpdateAll(w, id, position)[k] != w[k]
  {
  }

  /** A join for an id already present breaks uniqueness of ids. */
  lemma ConnectedBreaksUniqueness(w: seq<Entity>, id: int, position: Position, i: nat)
    requires i < |w| && w[i].Id() == id
    ensures !UniqueIds(Reconcile(w, Connected(id, position)))
  {
    var r := Reconcile(w, Connected(id, position));
    assert r[i].Id() == r[|w|].Id();
  }

  // ---------------------------------------------------------------------
  // Outbound movement tick
  // ---------------------------------------------------------------------

  /** The transform a key applies. */
  function Transform(m: Motion, k: Key): Position -> Position {
    match k
    case W => m.forward
    case A => m.rotateClockwise
    case D => m.rotateCounterClockwise
  }

  /** The polling position of a key. */
  function Rank(k: Key): nat {
    match k
    case W => 0
    case A => 1
    case D => 2
  }

  /** The pressed keys in the order the tick polls them. */
  function Pressed(keys: set<Key>): seq<Key> {
    (if W in keys then [W] else []) +
    (if A in keys then [A] else []) +
    (if D in keys then [D] else [])
  }

  /** A reference for the tick on one position: apply the keys' transforms one after another. */
  function Steer(m: Motion, p: Position, ks: seq<Key>): Position
    decreases |ks|
  {
    if ks == [] then p
    else Transform(m, ks[|ks| - 1])(Steer(m, p, ks[..|ks| - 1]))
  }

  /** A reference for the positions passed through: the position after each key. */
  function Trail(m: Motion, p: Position, ks: seq<Key>): (t: seq<Position>)
    ensures |t| == |ks|
    decreases |ks|
  {
    if ks == [] then []
    else Trail(m, p, ks[..|ks| - 1]) + [Steer(m, p, ks)]
  }

  /** One more key: the steered position and the trail both extend by that key's transform. */
  lemma StepKey(m: Motion, p: Position, ks: seq<Key>, k: Key)
    ensures Steer(m, p, ks + [k]) == Transform(m, k)(Steer(m, p, ks))
    ensures Trail(m, p, ks + [k]) == Trail(m, p, ks) + [Transform(m, k)(Steer(m, p, ks))]
  {
    assert (ks + [k])[..|ks|] == ks;
  }

  /** The pressed sequence holds exactly the pressed keys, each once, in W, A, D order. */
  lemma PressedInOrder(keys: set<Key>)
    ensures forall k :: k in Pressed(keys) <==> k in keys
    ensures forall i, j :: 0 <= i < j < |Pressed(keys)| ==> Rank(Pressed(keys)[i]) < Rank(Pressed(keys)[j])
    ensures keys == {} <==> Pressed(keys) == []
  {
    forall k ensures k in Pressed(keys) <==> k in keys {
      match k
      case W =>
      case A =>
      case D =>
    }
  }

  /**
   * The tick's three guarded steps are the stepwise reference over the
   * pressed keys: the positions it passes through are the trail, and the
   * position it ends at is the steered one.
   */
  lemma PollIsStepwise(m: Motion, p: Position, keys: set<Key>)
    ensures Poll(m, p, keys) == Trail(m, p, Pressed(keys))
    ensures Polled(m, p, keys) == Steer(m, p, Pressed(keys))
  {
    var p1 := if W in keys then m.forward(p) else p;
    var p2 := if A in keys then m.rotateClockwise(p1) else p1;
    var p3 := if D in keys then m.rotateCounterClockwise(p2) else p2;
    var ks1: seq<Key> := if W in keys then [W] else [];
    var ks2 := ks1 + (if A in keys then [A] else []);
    var ks3 := ks2 + (if D in keys then [D] else []);
    var t1: seq<Position> := if W in keys then [p1] else [];
    var t2 := t1 + (if A in keys then [p2] else []);
    var t3 := t2 + (if D in keys then [p3] else []);
    if W in keys { StepKey(m, p, [], W); }
    assert Steer(m, p, ks1) == p1 && Trail(m, p, ks1) == t1;
    if A in keys { StepKey(m, p, ks1, A); }
    assert Steer(m, p, ks2) == p2 && Trail(m, p, ks2) == t2;
    if D in keys { StepKey(m, p, ks2, D); }
    assert Steer(m, p, ks3) == p3 && Trail(m, p, ks3) == t3;
    assert Pressed(keys) == ks3;
    assert Poll(m, p, keys) == t3;
  }

  /** The j-th position of the trail is the position after the first j + 1 keys. */
  lemma {:induction false} TrailAt(m: Motion, p: Position, ks: seq<Key>, j: nat)
    requires j < |ks|
    ensures Trail(m, p, ks)[j] == Steer(m, p, ks[..j + 1])
    decreases |ks|
  {
    if j < |ks| - 1 {
      var front := ks[..|ks| - 1];
      TrailAt(m, p, front, j);
      assert front[..j + 1] == ks[..j + 1];
    } else {
      assert ks[..j + 1] == ks;
    }
  }

  /**
   * The moved table, entity by entity: every entity keeps its player record,
   * an entity without the local id is untouched, and one with it ends where
   * the pressed keys take it.
   */
  lemma {:induction false} MovedAt(w: seq<Entity>, id: int, keys: set<Key>, m: Motion, j: nat)
    requires j < |w|
    ensures Moved(w, id, keys, m)[j].player == w[j].player
    ensures w[j].Id() != id ==> Moved(w, id, keys, m)[j] == w[j]
    ensures w[j].Id() == id ==>
      Moved(w, id, keys, m)[j].position == Steer(m, w[j].position, Pressed(keys))
    decreases |w|
  {
    if j < |w| - 1 {
      MovedAt(w[..|w| - 1], id, keys, m, j);
    } else {
      PollIsStepwise(m, w[j].position, keys);
    }
  }

  /**
   * Each message sent for a local entity carries the local id and the
   * position after its key: one message per pressed key.
   */
  lemma SentPositions(e: Entity, id: int, keys: set<Key>, m: Motion, j: nat)
    requires e.Id() == id && j < |Pressed(keys)|
    ensures |Sent(e, id, keys, m)| == |Pressed(keys)|
    ensures Sent(e, id, keys, m)[j] ==
      UpdatePosition(id, Steer(m, e.position, Pressed(keys)[..j + 1]))
  {
    PollIsStepwise(m, e.position, keys);
    TrailAt(m, e.position, Pressed(keys), j);
  }

  /** One entity's share of the tick, in terms of the stepwise reference. */
  lemma EntityTick(e: Entity, id: int, keys: set<Key>, m: Motion)
    ensures Sent(e, id, keys, m) ==
      if e.Id() == id then Announce(id, Trail(m, e.position, Pressed(keys))) else []
    ensures MovedEntity(e, id, keys, m) ==
      if e.Id() == id then e.(position := Steer(m, e.position, Pressed(keys))) else e
  {
    PollIsStepwise(m, e.position, keys);
  }

  /** Updating a sequence with an element appended, at an index before that element. */
  lemma UpdateSnoc(s: seq<Entity>, x: Entity, i: nat, v: Entity)
    requires i < |s|
    ensures (s + [x])[i := v] == s[i := v] + [x]
  {
  }

  /** The number of entities with the given id. */
  function Count(w: seq<Entity>, id: int): nat
    decreases |w|
  {
    if w == [] then 0
    else Count(w[..|w| - 1], id) + (if w[|w| - 1].Id() == id then 1 else 0)
  }

  lemma MulSucc(c: nat, n: nat)
    ensures (c + 1) * n == c * n + n
  {
  }

  /** The tick sends one message per pressed key for each entity with the local id. */
  lemma {:induction false} OutgoingLength(w: seq<Entity>, id: int, keys: set<Key>, m: Motion)
    ensures |Outgoing(w, id, keys, m)| == Count(w, id) * |Pressed(keys)|
    decreases |w|
  {
    if w != [] {
      var front, e := w[..|w| - 1], w[|w| - 1];
      OutgoingLength(front, id, keys, m);
      var n := |Pressed(keys)|;
      EntityTick(e, id, keys, m);
      if e.Id() == id {
        MulSucc(Count(front, id), n);
      }
    }
  }

  /** Every message the tick sends carries the local id. */
  lemma {:induction false} OutgoingIds(w: seq<Entity>, id: int, keys: set<Key>, m: Motion)
    ensures forall j :: 0 <= j < |Outgoing(w, id, keys, m)| ==> Outgoing(w, id, keys, m)[j].playerId == id
    decreases |w|
  {
    if w != [] {
      var front, e := w[..|w| - 1], w[|w| - 1];
      OutgoingIds(front, id, keys, m);
      var o, t := Outgoing(front, id, keys, m), Sent(e, id, keys, m);
      assert forall j :: 0 <= j < |t| ==> t[j].playerId == id;
      assert Outgoing(w, id, keys, m) == o + t;
    }
  }

  /** Without local entities the tick moves nothing and sends nothing. */
  lemma {:induction false} NoLocalSendsNothing(w: seq<Entity>, id: int, keys: set<Key>, m: Motion)
    requires forall j :: 0 <= j < |w| ==> w[j].Id() != id
    ensures Outgoing(w, id, keys, m) == []
    ensures Moved(w, id, keys, m) == w
    decreases |w|
  {
    if w != [] {
      NoLocalSendsNothing(w[..|w| - 1], id, keys, m);
    }
  }

  /**
   * With exactly one entity for the local id, the tick sends one message per
   * pressed key, in W, A, D order, each with the position that key produced,
   * and that entity ends at the last of them.
   */
  lemma {:induction false} SingleLocalEntity(w: seq<Entity>, id: int, keys: set<Key>, m: Motion, i: nat)
    requires i < |w| && w[i].Id() == id
    requires forall j :: 0 <= j < |w| && j != i ==> w[j].Id() != id
    ensures Outgoing(w, id, keys, m) == Announce(id, Trail(m, w[i].position, Pressed(keys)))
    ensures Moved(w, id, keys, m) == w[i := w[i].(position := Steer(m, w[i].position, Pressed(keys)))]
    decreases |w|
  {
    var front, e := w[..|w| - 1], w[|w| - 1];
    assert w == front + [e];
    EntityTick(e, id, keys, m);
    if i == |w| - 1 {
      NoLocalSendsNothing(front, id, keys, m);
    } else {
      SingleLocalEntity(front, id, keys, m, i);
      UpdateSnoc(front, e, i, w[i].(position := Steer(m, w[i].position, Pressed(keys))));
    }
  }

  /** With no key pressed, the tick moves nothing and sends nothing. */
  lemma {:induction false} NoKeysNoEffect(w: seq<Entity>, id: int, m: Motion)
    ensures Moved(w, id, {}, m) == w
    ensures Outgoing(w, id, {}, m) == []
    decreases |w|
  {
    if w != [] {
      var e := w[|w| - 1];
      NoKeysNoEffect(w[..|w| - 1], id, m);
      assert Poll(m, e.position, {}) == [];
      assert w == w[..|w| - 1] + [e];
    }
  }

  // ---------------------------------------------------------------------
  // A whole session
  // ---------------------------------------------------------------------

  /**
   * Bootstrapping as player 1 at the origin with player 2 at (5, 5), then
   * receiving an update moving player 2 to (5, 6) with heading 0.1, leaves
   * two entities: player 1 unchanged and player 2 at the new position.
   */
  lemma EndToEnd()
    ensures var origin, there, moved := Position(0.0, 0.0, 0.0), Position(5.0, 5.0, 0.0), Position(5.0, 6.0, 0.1);
      var ec := EstablishConnection(1, origin, [EnemyData(2, there)]);
      var w := Reconcile(BootstrapWorld(ec), Update(2, moved));
      w == [NewEntity(1, origin), NewEntity(2, moved)]
  {
    var origin, there, moved := Position(0.0, 0.0, 0.0), Position(5.0, 5.0, 0.0), Position(5.0, 6.0, 0.1);
    var w0 := BootstrapWorld(EstablishConnection(1, origin, [EnemyData(2, there)]));
    assert w0 == [NewEntity(1, origin), NewEntity(2, there)];
    UpdateOverwritesFirstMatch(w0, 2, moved, 1);
  }
}
