/**
 * Record types of the voxel server (app/models/game.py).
 *
 * The source declares these as validated records: constructing one with a
 * field outside its declared range raises a validation error.  Here each
 * validated record has a smart constructor returning a `Result`, and the
 * raw datatype constructor stands for a record that has already passed
 * validation.
 */
module Models {

  /** A clock reading, in whole seconds; the clock itself is a parameter. */
  type Time = int

  datatype Option<+T> = None | Some(value: T)

  /** Outcome of building a validated record: the record, or the field that failed. */
  datatype Result<+T> = Ok(value: T) | ValidationError(field: string)

  /** A point with floating-point components; blocks and players both use it. */
  datatype Position = Position(x: real, y: real, z: real)

  const MinBlockType: int := 0
  const MaxBlockType: int := 10
  const MaxChatLength: nat := 500

  predicate IsBlockType(t: int) {
    MinBlockType <= t <= MaxBlockType
  }

  /** A block of the world; `blockType` 0 is air. */
  datatype Block = Block(
    position: Position,
    blockType: int,
    placedBy: Option<string>,
    placedAt: Option<Time>)

  /**
   * Builds a block the way the record type does: the type must lie in
   * 0..10, and `placedBy`/`placedAt` are absent unless given.
   */
  function NewBlock(position: Position, blockType: int,
                    placedBy: Option<string> := None,
                    placedAt: Option<Time> := None): (r: Result<Block>)
    ensures r.Ok? <==> IsBlockType(blockType)
    ensures r.Ok? ==> r.value.position == position && r.value.blockType == blockType
    ensures r.Ok? ==> r.value.placedBy == placedBy && r.value.placedAt == placedAt
    ensures r.ValidationError? ==> r.field == "type"
  {
    if IsBlockType(blockType) then Ok(Block(position, blockType, placedBy, placedAt))
    else ValidationError("type")
  }

  /** A connected player; `rotation` reuses the position record. */
  datatype Player = Player(
    id: string,
    position: Position,
    rotation: Position,
    connectedAt: Time,
    lastActive: Time)

  datatype WorldSize = WorldSize(width: int, height: int, depth: int)

  const DefaultWorldSize: WorldSize := WorldSize(100, 50, 100)

  /** A snapshot of the world as it is sent to clients. */
  datatype WorldState = WorldState(
    blocks: seq<Block>,
    players: seq<Player>,
    worldSize: WorldSize,
    createdAt: Time,
    lastModified: Time)

  /** A world state built with every defaulted field left at its default. */
  function NewWorldState(createdAt: Time, lastModified: Time): (r: WorldState)
    ensures r.blocks == [] && r.players == []
    ensures r.worldSize.width == 100 && r.worldSize.height == 50 && r.worldSize.depth == 100
    ensures r.createdAt == createdAt && r.lastModified == lastModified
  {
    WorldState([], [], DefaultWorldSize, createdAt, lastModified)
  }

  datatype BlockUpdate = BlockUpdate(position: Position, blockType: int, playerId: string)

  /** A block update message is accepted only with a type in 0..10. */
  function NewBlockUpdate(position: Position, blockType: int, playerId: string): (r: Result<BlockUpdate>)
    ensures r.Ok? <==> IsBlockType(blockType)
    ensures r.Ok? ==> r.value == BlockUpdate(position, blockType, playerId)
  {
    if IsBlockType(blockType) then Ok(BlockUpdate(position, blockType, playerId))
    else ValidationError("block_type")
  }

  datatype PlayerUpdate = PlayerUpdate(playerId: string, position: Position, rotation: Position)

  datatype ChatMessage = ChatMessage(playerId: string, message: string, timestamp: Time)

  /** A chat message is accepted only with at most 500 characters of text. */
  function NewChatMessage(playerId: string, message: string, timestamp: Time): (r: Result<ChatMessage>)
    ensures r.Ok? <==> |message| <= MaxChatLength
    ensures r.Ok? ==> r.value == ChatMessage(playerId, message, timestamp)
  {
    if |message| <= MaxChatLength then Ok(ChatMessage(playerId, message, timestamp))
    else ValidationError("message")
  }
}
