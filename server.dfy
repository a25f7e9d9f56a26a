/**
 * The websocket session of app/main.py: what one incoming message does to
 * the world and the connections (`handle_websocket_message`), the join and
 * leave sequences of `websocket_endpoint`, and the receive loop between
 * them, which handles messages one at a time in arrival order.
 *
 * The world manager and the connection manager are the module-level
 * singletons of the source; here they are passed in.  Sends go through the
 * same `failing` oracle as the connection manager's.
 */
module Server {
  import opened Models
  import opened Protocol
  import opened World
  import opened Connections

  /** What the handlers read and change: the world and the open connections. */
  datatype ServerState = ServerState(world: WorldValue, conns: map<string, Socket>)

  /** A client message and the clock reading when it is handled. */
  datatype Arrival = Arrival(message: ClientMessage, at: Time)

  /** The chat text: a missing "message" field reads as the empty string. */
  function ChatText(text: Option<string>): string {
    match text
    case Some(t) => t
    case None => ""
  }

  /**
   * `handle_websocket_message` for player `playerId`: the new state and
   * the sends made, or the validation error that escapes the handler.
   */
  function Handle(s: ServerState, playerId: string, message: ClientMessage, failing: set<string>, now: Time)
    : (ServerState, Result<seq<Outbound>>)
  {
    match message
    case BlockUpdateMsg(position, blockType) =>
      var (world, success) := Place(s.world, position, blockType, None, false, now);
      (match success
       case ValidationError(field) => (ServerState(world, s.conns), ValidationError(field))
       case Ok(placed) =>
         if placed then
           (ServerState(world, s.conns - failing),
            Ok([Outbound(BlockChanged(position, blockType, playerId), s.conns.Keys - failing)]))
         else (ServerState(world, s.conns), Ok([])))
    case PlayerUpdateMsg(position, rotation) =>
      (ServerState(s.world.(players := UpsertPlayer(s.world.players, playerId, position, rotation, now)),
                   s.conns - (failing - {playerId})),
       Ok([Outbound(PlayerMoved(playerId, position, rotation), s.conns.Keys - {playerId} - failing)]))
    case ChatMsg(text) =>
      (ServerState(s.world, s.conns - failing),
       Ok([Outbound(Chat(playerId, ChatText(text), now), s.conns.Keys - failing)]))
    case UnknownMsg =>
      (s, Ok([]))
  }

  /**
   * A block edit is applied as `update_block` with no player attached. It
   * is broadcast to every live connection, the sender's included, only when
   * the placement succeeded: an out-of-bounds edit changes nothing and
   * sends nothing, and a type above 10 clears the cell and escapes.
   */
  lemma HandleBlockUpdate(s: ServerState, playerId: string, position: Position, blockType: int,
                          failing: set<string>, now: Time)
    ensures var r := Handle(s, playerId, BlockUpdateMsg(position, blockType), failing, now);
      && r.0.world == Place(s.world, position, blockType, None, false, now).0
      && (!IsValidPosition(position) ==> r == (s, Ok([])))
      && (IsValidPosition(position) && blockType <= MaxBlockType ==>
            && r.1 == Ok([Outbound(BlockChanged(position, blockType, playerId), s.conns.Keys - failing)])
            && r.0.conns == s.conns - failing
            && (playerId in s.conns && playerId !in failing ==> playerId in r.1.value[0].recipients))
      && (IsValidPosition(position) && blockType > MaxBlockType ==>
            r.1.ValidationError? && r.0.conns == s.conns && PositionToKey(position) !in r.0.world.blocks)
  {
  }

  /**
   * A move upserts the sender's record, touches no block and no other
   * player, and goes to every live connection except the sender, whose
   * connection it never drops.
   */
  lemma HandlePlayerUpdate(s: ServerState, playerId: string, position: Position, rotation: Position,
                           failing: set<string>, now: Time)
    ensures var r := Handle(s, playerId, PlayerUpdateMsg(position, rotation), failing, now);
      && r.1.Ok? && |r.1.value| == 1
      && r.1.value[0].message == PlayerMoved(playerId, position, rotation)
      && playerId !in r.1.value[0].recipients
      && r.1.value[0].recipients == s.conns.Keys - {playerId} - failing
      && r.0.world.players == UpsertPlayer(s.world.players, playerId, position, rotation, now)
      && r.0.world.blocks == s.world.blocks && r.0.world.stats == s.world.stats
      && r.0.world.lastModified == s.world.lastModified
      && r.0.conns == s.conns - (failing - {playerId})
      && (playerId in s.conns ==> playerId in r.0.conns)
  {
  }

  /** A chat message changes no world state and goes to every live connection; missing text is "". */
  lemma HandleChat(s: ServerState, playerId: string, text: Option<string>, failing: set<string>, now: Time)
    ensures var r := Handle(s, playerId, ChatMsg(text), failing, now);
      && r.0.world == s.world
      && r.1 == Ok([Outbound(Chat(playerId, if text.Some? then text.value else "", now), s.conns.Keys - failing)])
      && r.0.conns == s.conns - failing
  {
  }

  /** An unknown message type changes nothing and sends nothing. */
  lemma HandleUnknown(s: ServerState, playerId: string, failing: set<string>, now: Time)
    ensures Handle(s, playerId, UnknownMsg, failing, now) == (s, Ok([]))
  {
  }

  /** Where a run of the receive loop ends, what it sent, and whether a handler raised. */
  datatype RunResult = RunResult(state: ServerState, sent: seq<Outbound>, crashed: bool)

  /** `prefix` sent before the run `r`. */
  function After(prefix: seq<Outbound>, r: RunResult): RunResult {
    RunResult(r.state, prefix + r.sent, r.crashed)
  }

  /**
   * The receive loop over the messages of one session, in arrival order.
   * A validation error ends the loop at once: it is not a disconnect, so
   * it leaves the endpoint.
   */
  function Run(s: ServerState, playerId: string, arrivals: seq<Arrival>, failing: set<string>): RunResult
    decreases |arrivals|
  {
    if arrivals == [] then RunResult(s, [], false)
    else
      var (next, result) := Handle(s, playerId, arrivals[0].message, failing, arrivals[0].at);
      match result
      case ValidationError(_) => RunResult(next, [], true)
      case Ok(sent) => After(sent, Run(next, playerId, arrivals[1..], failing))
  }

  /** Running two batches back to back is running the second from where the first stopped, unless it raised. */
  lemma {:induction false} RunAppend(s: ServerState, playerId: string, a: seq<Arrival>, b: seq<Arrival>,
                                     failing: set<string>)
    ensures var first := Run(s, playerId, a, failing);
      Run(s, playerId, a + b, failing) ==
        if first.crashed then first else After(first.sent, Run(first.state, playerId, b, failing))
    decreases |a|
  {
    if a == [] {
      assert a + b == b;
    } else {
      assert (a + b)[0] == a[0] && (a + b)[1..] == a[1..] + b;
      var (next, result) := Handle(s, playerId, a[0].message, failing, a[0].at);
      if result.Ok? {
        var rest := Run(next, playerId, a[1..], failing);
        assert Run(s, playerId, a + b, failing) == After(result.value, Run(next, playerId, a[1..] + b, failing));
        assert Run(s, playerId, a, failing) == After(result.value, rest);
        RunAppend(next, playerId, a[1..], b, failing);
        if !rest.crashed {
          var tail := Run(rest.state, playerId, b, failing);
          assert result.value + (rest.sent + tail.sent) == (result.value + rest.sent) + tail.sent;
        }
      }
    }
  }

  /** A run of one message ends where that message's handler leaves the state, and has raised exactly when it did. */
  lemma RunSingle(s: ServerState, playerId: string, arrival: Arrival, failing: set<string>)
    ensures var h := Handle(s, playerId, arrival.message, failing, arrival.at);
      var r := Run(s, playerId, [arrival], failing);
      && r.state == h.0
      && r.crashed == h.1.ValidationError?
      && (h.1.Ok? ==> r.sent == h.1.value)
  {
    assert [arrival][1..] == [];
  }

  /** Of two edits to the same cell, the later one decides what the cell holds. */
  lemma LastWriteWins(s: ServerState, playerId: string, p: Position, q: Position, t: int, u: int,
                      first: Time, second: Time, failing: set<string>)
    requires PositionToKey(p) == PositionToKey(q) && IsValidPosition(q)
    requires t <= MaxBlockType
    ensures Run(s, playerId, [Arrival(BlockUpdateMsg(p, t), first), Arrival(BlockUpdateMsg(q, u), second)], failing).state.world.blocks
         == Place(s.world, q, u, None, false, second).0.blocks
  {
    var a1, a2 := Arrival(BlockUpdateMsg(p, t), first), Arrival(BlockUpdateMsg(q, u), second);
    assert [a1, a2] == [a1] + [a2];
    RunAppend(s, playerId, [a1], [a2], failing);
    RunSingle(s, playerId, a1, failing);
    HandleBlockUpdate(s, playerId, p, t, failing, first);
    var s1 := Handle(s, playerId, a1.message, failing, first).0;
    RunSingle(s1, playerId, a2, failing);
    HandleBlockUpdate(s1, playerId, q, u, failing, second);
    PlaceOverwrites(s.world, p, q, t, u, None, false, first, second);
  }

  /**
   * Over any run, a connection whose sends work stays open, and no player
   * record disappears: players other than the sender are untouched.
   */
  lemma {:induction false} RunKeepsHealthy(s: ServerState, playerId: string, arrivals: seq<Arrival>, failing: set<string>)
    ensures var r := Run(s, playerId, arrivals, failing);
      && (forall p :: p in s.conns && p !in failing ==> p in r.state.conns)
      && (forall id :: id in s.world.players ==> id in r.state.world.players)
      && (forall id :: id in s.world.players && id != playerId ==> r.state.world.players[id] == s.world.players[id])
    decreases |arrivals|
  {
    if arrivals != [] {
      var (next, result) := Handle(s, playerId, arrivals[0].message, failing, arrivals[0].at);
      if result.Ok? {
        RunKeepsHealthy(next, playerId, arrivals[1..], failing);
      }
    }
  }

  // ---------------------------------------------------------------------
  // The endpoint, over the two managers

  ghost function StateOf(world: WorldManager, connections: ConnectionManager): ServerState
    reads world, connections
  {
    ServerState(world.Value(), connections.activeConnections)
  }

  method HandleWebsocketMessage(world: WorldManager, connections: ConnectionManager, failing: set<string>,
                                now: Time, message: ClientMessage, playerId: string)
    returns (result: Result<seq<Outbound>>)
    requires world.Valid() && connections.Valid()
    modifies world, connections
    ensures (StateOf(world, connections), result) == Handle(old(StateOf(world, connections)), playerId, message, failing, now)
    ensures world.Valid() && connections.Valid()
  {
    match message {
      case BlockUpdateMsg(position, blockType) =>
        var success := world.UpdateBlock(now, position, blockType);
        if success.ValidationError? {
          return ValidationError(success.field);
        }
        if success.value {
          var sent := connections.Broadcast(failing, BlockChanged(position, blockType, playerId));
          return Ok([sent]);
        }
        return Ok([]);
      case PlayerUpdateMsg(position, rotation) =>
        world.UpdatePlayer(now, playerId, position, rotation);
        var sent := connections.BroadcastToOthers(failing, PlayerMoved(playerId, position, rotation), playerId);
        return Ok([sent]);
      case ChatMsg(text) =>
        var chatMessage := ChatText(text);
        var sent := connections.Broadcast(failing, Chat(playerId, chatMessage, now));
        return Ok([sent]);
      case UnknownMsg =>
        return Ok([]);
    }
  }

  /**
   * The receive loop: messages are handled one at a time, in arrival
   * order, until they run out (the client disconnects) or a handler raises.
   */
  method ReceiveLoop(world: WorldManager, connections: ConnectionManager, failing: set<string>,
                     playerId: string, arrivals: seq<Arrival>)
    returns (sent: seq<Outbound>, crashed: bool)
    requires world.Valid() && connections.Valid()
    modifies world, connections
    ensures RunResult(StateOf(world, connections), sent, crashed) == Run(old(StateOf(world, connections)), playerId, arrivals, failing)
    ensures world.Valid() && connections.Valid()
  {
    sent, crashed := [], false;
    var i := 0;
    while i < |arrivals|
      invariant 0 <= i <= |arrivals|
      invariant world.Valid() && connections.Valid()
      invariant After(sent, Run(StateOf(world, connections), playerId, arrivals[i..], failing))
             == Run(old(StateOf(world, connections)), playerId, arrivals, failing)
    {
      ghost var before := StateOf(world, connections);
      ghost var rest := arrivals[i..];
      assert rest[0] == arrivals[i] && rest[1..] == arrivals[i + 1..];
      var result := HandleWebsocketMessage(world, connections, failing, arrivals[i].at, arrivals[i].message, playerId);
      if result.ValidationError? {
        crashed := true;
        return;
      }
      assert After(result.value, Run(StateOf(world, connections), playerId, arrivals[i + 1..], failing))
          == Run(before, playerId, rest, failing);
      assert sent + (result.value + Run(StateOf(world, connections), playerId, arrivals[i + 1..], failing).sent)
          == (sent + result.value) + Run(StateOf(world, connections), playerId, arrivals[i + 1..], failing).sent;
      sent := sent + result.value;
      i := i + 1;
    }
  }

  /**
   * The receive loop of an open session, as `Run` describes it; it keeps
   * the player's own connection and every player record.
   */
  method Session(world: WorldManager, connections: ConnectionManager, failing: set<string>,
                 playerId: string, arrivals: seq<Arrival>)
    returns (received: seq<Outbound>, crashed: bool)
    requires world.Valid() && connections.Valid()
    requires playerId in connections.activeConnections && playerId !in failing
    modifies world, connections
    ensures RunResult(StateOf(world, connections), received, crashed) == Run(old(StateOf(world, connections)), playerId, arrivals, failing)
    ensures world.Valid() && connections.Valid()
    ensures playerId in connections.activeConnections
    ensures old(world.players).Keys <= world.players.Keys
  {
    ghost var start := StateOf(world, connections);
    received, crashed := ReceiveLoop(world, connections, failing, playerId, arrivals);
    RunKeepsHealthy(start, playerId, arrivals, failing);
  }

  /**
   * The join sequence for a new player.  The socket is registered first;
   * the player is then sent the world and a welcome, the others are told
   * of the join, and everyone gets the connection count.  If the player's
   * own socket fails, the session goes straight to the leave sequence
   * (`open` is false) with nothing delivered.
   */
  method Join(world: WorldManager, connections: ConnectionManager, failing: set<string>,
              socket: Socket, playerId: string)
    returns (open: bool, sent: seq<Outbound>)
    requires world.Valid() && connections.Valid()
    modifies connections
    ensures connections.Valid()
    ensures open <==> playerId !in failing
    ensures !open ==> sent == [] && connections.activeConnections == old(connections.activeConnections)[playerId := socket]
    ensures open ==>
      && connections.activeConnections == old(connections.activeConnections)[playerId := socket] - failing
      && |sent| == 4
      && sent[0].recipients == {playerId} && sent[0].message.WorldUpdate?
      && SnapshotOf(sent[0].message.worldState, world.blocks, world.players, world.createdAt, world.lastModified)
      && sent[1] == Outbound(PlayerJoined(playerId, Some(WelcomeText(playerId))), {playerId})
      && sent[2] == Outbound(PlayerJoined(playerId, None), old(connections.activeConnections).Keys - {playerId} - failing)
      && sent[3] == Outbound(StatsUpdate(|connections.activeConnections|), connections.activeConnections.Keys)
  {
    connections.Connect(socket, playerId);
    var worldState := world.GetWorldState();
    if playerId in failing {
      return false, [];
    }
    sent := [Outbound(WorldUpdate(worldState), {playerId}),
             Outbound(PlayerJoined(playerId, Some(WelcomeText(playerId))), {playerId})];
    ghost var registered := connections.activeConnections;
    var announced := AnnounceJoin(connections, failing, playerId);
    assert registered.Keys - {playerId} == old(connections.activeConnections).Keys - {playerId};
    sent := sent + announced;
    open := true;
  }

  /** The broadcasts of the join sequence: the others hear of the join, then everyone gets the count. */
  method AnnounceJoin(connections: ConnectionManager, failing: set<string>, playerId: string)
    returns (sent: seq<Outbound>)
    requires connections.Valid() && playerId !in failing
    modifies connections
    ensures connections.Valid()
    ensures connections.activeConnections == old(connections.activeConnections) - failing
    ensures sent == [Outbound(PlayerJoined(playerId, None), old(connections.activeConnections).Keys - {playerId} - failing),
                     Outbound(StatsUpdate(|connections.activeConnections|), connections.activeConnections.Keys)]
  {
    var others := connections.BroadcastToOthers(failing, PlayerJoined(playerId, None), playerId);
    DropTwice(old(connections.activeConnections), failing - {playerId}, failing);
    assert (failing - {playerId}) + failing == failing;
    var stats := connections.Broadcast(failing, StatsUpdate(connections.GetConnectionCount()));
    assert stats.recipients == connections.activeConnections.Keys;
    sent := [others, stats];
  }

  /**
   * The leave sequence: the player's connection is dropped, then the
   * remaining connections are told who left and how many are online.
   * The player's record in the world is kept.
   */
  method Leave(connections: ConnectionManager, failing: set<string>, playerId: string)
    returns (sent: seq<Outbound>)
    requires connections.Valid()
    modifies connections
    ensures connections.Valid()
    ensures connections.activeConnections == old(connections.activeConnections) - {playerId} - failing
    ensures sent == [Outbound(PlayerLeft(playerId), old(connections.activeConnections).Keys - {playerId} - failing),
                     Outbound(StatsUpdate(|connections.activeConnections|), connections.activeConnections.Keys)]
  {
    connections.Disconnect(playerId);
    assert connections.activeConnections.Keys - failing == old(connections.activeConnections).Keys - {playerId} - failing;
    var left := connections.Broadcast(failing, PlayerLeft(playerId));
    ghost var remaining := connections.activeConnections;
    var stats := connections.Broadcast(failing, StatsUpdate(connections.GetConnectionCount()));
    DropTwice(remaining, failing, failing);
    assert failing + failing == failing;
    assert stats.recipients == connections.activeConnections.Keys;
    sent := [left, stats];
  }

  /**
   * The session up to the leave sequence: join and, if the join went
   * through, the receive loop.  `open` says whether the join went through
   * and `joined` is the state it left, from which the receive loop runs.
   */
  method JoinAndReceive(world: WorldManager, connections: ConnectionManager, failing: set<string>,
                        socket: Socket, playerId: string, arrivals: seq<Arrival>)
    returns (ghost open: bool, ghost joined: ServerState, sent: seq<Outbound>, crashed: bool)
    requires world.Valid() && connections.Valid()
    modifies world, connections
    ensures world.Valid() && connections.Valid()
    ensures open <==> playerId !in failing
    ensures joined == ServerState(old(world.Value()),
                                  old(connections.activeConnections)[playerId := socket] - (if open then failing else {}))
    ensures var run := Run(joined, playerId, arrivals, failing);
      && crashed == (open && run.crashed)
      && world.Value() == (if open then run.state.world else old(world.Value()))
      && connections.activeConnections == (if open then run.state.conns else joined.conns)
      && (open ==> |sent| == 4 + |run.sent| && sent[4..] == run.sent)
    ensures !open ==> sent == []
    ensures open ==>
      && sent[0].recipients == {playerId} && sent[0].message.WorldUpdate?
      && SnapshotOf(sent[0].message.worldState, old(world.blocks), old(world.players), world.createdAt, old(world.lastModified))
      && sent[1] == Outbound(PlayerJoined(playerId, Some(WelcomeText(playerId))), {playerId})
      && sent[2] == Outbound(PlayerJoined(playerId, None), old(connections.activeConnections).Keys - {playerId} - failing)
      && sent[3] == Outbound(StatsUpdate(|joined.conns|), joined.conns.Keys)
    ensures crashed ==> playerId in connections.activeConnections
    ensures old(world.players).Keys <= world.players.Keys
  {
    var accepted;
    accepted, sent := Join(world, connections, failing, socket, playerId);
    open, joined := accepted, StateOf(world, connections);
    crashed := false;
    if accepted {
      var received;
      received, crashed := Session(world, connections, failing, playerId, arrivals);
      sent := sent + received;
    }
  }

  /**
   * One websocket session: join, the receive loop over `arrivals`, and,
   * unless a handler raised, the leave sequence.  A raised handler leaves
   * the endpoint without it, so the player stays registered.  `open` and
   * `joined` are as in JoinAndReceive.
   */
  method WebsocketEndpoint(world: WorldManager, connections: ConnectionManager, failing: set<string>,
                           socket: Socket, playerId: string, arrivals: seq<Arrival>)
    returns (ghost open: bool, ghost joined: ServerState, sent: seq<Outbound>, crashed: bool)
    requires world.Valid() && connections.Valid()
    modifies world, connections
    ensures world.Valid() && connections.Valid()
    ensures open <==> playerId !in failing
    ensures joined == ServerState(old(world.Value()),
                                  old(connections.activeConnections)[playerId := socket] - (if open then failing else {}))
    ensures var run := Run(joined, playerId, arrivals, failing);
      && crashed == (open && run.crashed)
      && world.Value() == (if open then run.state.world else old(world.Value()))
      && (open ==> |sent| >= 4 + |run.sent| && sent[4..4 + |run.sent|] == run.sent)
      && (crashed ==> connections.activeConnections == run.state.conns)
    ensures !open ==> |sent| == 2
    ensures open ==>
      && sent[0].recipients == {playerId} && sent[0].message.WorldUpdate?
      && SnapshotOf(sent[0].message.worldState, old(world.blocks), old(world.players), world.createdAt, old(world.lastModified))
      && sent[1] == Outbound(PlayerJoined(playerId, Some(WelcomeText(playerId))), {playerId})
      && sent[2] == Outbound(PlayerJoined(playerId, None), old(connections.activeConnections).Keys - {playerId} - failing)
      && sent[3] == Outbound(StatsUpdate(|joined.conns|), joined.conns.Keys)
    ensures crashed ==> playerId in connections.activeConnections
    ensures var last := if open then Run(joined, playerId, arrivals, failing).state.conns else joined.conns;
      !crashed ==>
      && connections.activeConnections == last - {playerId} - failing
      && playerId !in connections.activeConnections
      && |sent| >= 2
      && sent[|sent| - 2] == Outbound(PlayerLeft(playerId), last.Keys - {playerId} - failing)
      && sent[|sent| - 1] == Outbound(StatsUpdate(|connections.activeConnections|), connections.activeConnections.Keys)
    ensures |sent| == (if open then 4 + |Run(joined, playerId, arrivals, failing).sent| else 0) + (if crashed then 0 else 2)
    ensures old(world.players).Keys <= world.players.Keys
  {
    open, joined, sent, crashed := JoinAndReceive(world, connections, failing, socket, playerId, arrivals);
    if !crashed {
      ghost var session := sent;
      var left := Leave(connections, failing, playerId);
      sent := sent + left;
      assert sent[..|session|] == session;
    }
  }
}
