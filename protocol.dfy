/**
 * The JSON messages exchanged over the game's websocket (app/main.py),
 * as values.  JSON encoding and decoding are not modelled: a client
 * message is already parsed, and a server message is the dictionary the
 * server would serialise.
 */
module Protocol {
  import opened Models

  /** A message a client sends, by its "type" field. */
  datatype ClientMessage =
    | BlockUpdateMsg(position: Position, blockType: int)
    | PlayerUpdateMsg(position: Position, rotation: Position)
      /** `text` is absent when the message has no "message" key. */
    | ChatMsg(text: Option<string>)
      /**
       * A message whose "type" is none of the three above, or is missing.
       * It carries nothing, since its handler reads nothing from it.
       */
    | UnknownMsg

  /** A message the server sends, by its "type" field. */
  datatype ServerMessage =
    | WorldUpdate(worldState: WorldState)
      /** `welcome` is present only in the copy sent to the joining player. */
    | PlayerJoined(playerId: string, welcome: Option<string>)
    | PlayerLeft(playerId: string)
    | StatsUpdate(playersOnline: nat)
    | BlockChanged(position: Position, blockType: int, playerId: string)
    | PlayerMoved(playerId: string, position: Position, rotation: Position)
    | Chat(playerId: string, message: string, timestamp: Time)
    | Ping(timestamp: Time)

  /** One send of `message`, and the players whose socket accepted it. */
  datatype Outbound = Outbound(message: ServerMessage, recipients: set<string>)

  /** The text of the welcome sent to a joining player. */
  function WelcomeText(playerId: string): (r: string)
    ensures |r| > |playerId| && r[|r| - |playerId|..] == playerId
  {
    "Welcome to the world! Player ID: " + playerId
  }
}
