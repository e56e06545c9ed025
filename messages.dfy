/**
 * The messages exchanged with the game server, already decoded. Each message
 * travels in an envelope carrying a type tag; decoding the payload into a
 * shape may fail, so an envelope carries, for each recognised shape, what
 * decoding its payload into that shape produces.
 */
module Messages {
  import opened Wrappers
  import opened Component

  /** One already-connected remote player, as listed in the handshake. */
  datatype EnemyData = EnemyData(playerId: int, position: Position)

  /** The handshake payload: the id the server assigns, our position, the roster. */
  datatype EstablishConnection = EstablishConnection(
    playerId: int, position: Position, enemyData: seq<EnemyData>)

  /** A position update, sent by the client and received from the server. */
  datatype UpdatePosition = UpdatePosition(playerId: int, position: Position)

  /** The announcement that a player joined. */
  datatype PlayerConnected = PlayerConnected(playerId: int, position: Position)

  /** The outcome of decoding one payload into each shape the client asks for. */
  datatype Payload = Payload(
    asEstablishConnection: Option<EstablishConnection>,
    asUpdatePosition: Option<UpdatePosition>,
    asPlayerConnected: Option<PlayerConnected>)

  /** A framed message: a type tag and its payload. */
  datatype Envelope = Envelope(messageType: string, payload: Payload)

  /** The outcome of one blocking receive on the connection. */
  datatype Receipt = ReceiveFailed | Delivered(envelope: Envelope)

  const UpdatePositionTag: string := "UpdatePosition"
  const PlayerConnectedTag: string := "PlayerConnected"

  /** The closed set of inbound events the receive loop distinguishes. */
  datatype Inbound =
    | ReceiveError
    | Update(playerId: int, position: Position)
    | UpdateDecodeError
    | Connected(playerId: int, position: Position)
    | ConnectedDecodeError
    | OtherTag(tag: string)

  /**
   * Dispatch on the tag of a received message: the two recognised tags are
   * decoded into their shape, any other tag is carried along unrecognised.
   */
  function Classify(r: Receipt): (e: Inbound)
    ensures e.ReceiveError? <==> r.ReceiveFailed?
    ensures e.OtherTag? <==>
      r.Delivered? && r.envelope.messageType != UpdatePositionTag
                   && r.envelope.messageType != PlayerConnectedTag
    ensures e.OtherTag? ==> e.tag == r.envelope.messageType
    ensures e.UpdateDecodeError? <==>
      r.Delivered? && r.envelope.messageType == UpdatePositionTag
                   && r.envelope.payload.asUpdatePosition.None?
    ensures e.ConnectedDecodeError? <==>
      r.Delivered? && r.envelope.messageType == PlayerConnectedTag
                   && r.envelope.payload.asPlayerConnected.None?
    ensures e.Update? <==>
      r.Delivered? && r.envelope.messageType == UpdatePositionTag
                   && r.envelope.payload.asUpdatePosition.Some?
    ensures e.Update? ==>
      UpdatePosition(e.playerId, e.position) == r.envelope.payload.asUpdatePosition.value
    ensures e.Connected? <==>
      r.Delivered? && r.envelope.messageType == PlayerConnectedTag
                   && r.envelope.payload.asPlayerConnected.Some?
    ensures e.Connected? ==>
      PlayerConnected(e.playerId, e.position) == r.envelope.payload.asPlayerConnected.value
  {
    match r
    case ReceiveFailed => ReceiveError
    case Delivered(env) =>
      if env.messageType == UpdatePositionTag then
        match env.payload.asUpdatePosition
        case None => UpdateDecodeError
        case Some(u) => Update(u.playerId, u.position)
      else if env.messageType == PlayerConnectedTag then
        match env.payload.asPlayerConnected
        case None => ConnectedDecodeError
        case Some(c) => Connected(c.playerId, c.position)
      else
        OtherTag(env.messageType)
  }
}
