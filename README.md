# Voxel world server, modelled in Dafny

This project models the server side of a shared voxel world. Players edit blocks and move around over a websocket.

- **Block store and player registry** (`World`). A sparse map from integer cells to blocks, and a map from player ids to player records.
  - A placement is bounds-checked on the float position and then stored under the truncated cell. A type of 0 or less removes the block.
  - Placements update three counters.
  - A column scan gives the ground height. A tree is stamped from a trunk and a diamond of leaves.
  - `WorldManager` is a class whose methods update its maps in place. Each method is proved against a function on values (`Place`, `UpsertPlayer`, `GroundHeight`, `TreeValue`), and the properties of the service are proved as lemmas about those functions.
- **Connection registry** (`Connections`). Two dictionaries of open websockets.
  - Sending is an oracle: `failing` is the set of players whose socket raises when written to.
  - A broadcast tries every connection once and then drops exactly the ones that failed. `Reached` and `Survivors` state this on values.
- **Websocket session** (`Server`). `Handle` is what one message does to the world and the connections, and which messages go out to whom.
  - `Run` is the receive loop as a fold over the arrivals.
  - The join and leave sequences are methods over the two managers.
- **Records** (`Models`, `Protocol`). The validated record types with their range and length limits, and the messages that travel over the socket.

`Collections` holds the dictionary listing (`list(d.keys())`, `list(d.values())`). Its order is left open.

Modelling choices:
- Positions keep their floating-point components as `real`. A cell key is the truncation toward zero of each component, as Python's `int()` does. The bounds check runs on the position before truncation.
- The clock is a parameter `now` in whole seconds.
- The new player's id is a parameter, because the source draws it at random.

## Model

| member | source | states |
|---|---|---|
| Models.NewBlock | app/models/game.py:11-16 | a block is built exactly when its type lies in 0..10; it keeps the given position and type; `placed_by`/`placed_at` are absent unless given; otherwise the error names the type field |
| Models.NewWorldState | app/models/game.py:26-32 | a fresh world state has no blocks, no players, size 100 x 50 x 100 and the given timestamps |
| Models.NewBlockUpdate | app/models/game.py:34-38 | a block update message is accepted exactly when its type lies in 0..10 |
| Models.NewChatMessage | app/models/game.py:46-50 | a chat message is accepted exactly when its text has at most 500 characters |
| Protocol.WelcomeText | app/main.py:86-90 | the welcome text ends with the joining player's id |
| Collections.ListEntries | app/services/world_manager.py:166-170 | listing a dictionary gives every key once, in some order, each with its own value, and nothing else |
| World.Trunc | app/services/world_manager.py:92-94 | `int()` of a float truncates toward zero: the result is within 1 of the input, on the side nearer 0 |
| World.ValidPositionKeyInBounds | app/services/world_manager.py:22 | every position that passes the bounds check addresses a cell inside the bounds x, z in -50..50, y in 0..50 |
| World.CellPositionRoundTrip | app/services/world_manager.py:92-102 | an integral position keys to its own cell, and passes the bounds check exactly when that cell is inside the bounds |
| World.TruncationAtTheEdges | app/services/world_manager.py:96-102 | the converse fails: 50.5 is rejected although its cell 50 is in bounds, and -0.5 is accepted and keys to cell 0 |
| World.PlaceSpec | app/services/world_manager.py:104-134 | out of bounds: False and nothing changes. In bounds: a type in 1..10 leaves exactly that block at the cell, overwriting any old one; a type of 0 or less leaves the cell empty; every other cell is unchanged; True is returned even when nothing changed; total operations grows by one, and the placed or destroyed counter grows by one only for a player's edit; players are untouched. A type above 10 clears the cell and raises, with counters and timestamp unchanged |
| World.PlaceKeepsWellKeyed | app/services/world_manager.py:109-123 | after a placement every stored block is still filed under its own cell, inside the world, with a type in 1..10 |
| World.RemoveIsIdempotent | app/services/world_manager.py:111-116 | removing at the same position twice leaves the same block map as removing once |
| World.PlaceOverwrites | app/services/world_manager.py:109-123 | a placement at the same cell followed by a second, in-bounds placement leaves the block map the second alone would leave, whatever the first type, including one above 10 that raises |
| World.PlaceBlockCount | app/services/world_manager.py:109-123 | the number of stored blocks goes up by one for a new block, down by one for a removed one, and is unchanged for an overwrite |
| World.UpsertPlayer | app/services/world_manager.py:145-159 | the player is inserted or updated with the new position, rotation and activity time; `connected_at` is kept for an existing player; every other player is unchanged |
| World.HighestBlockAt | app/services/world_manager.py:84-90 | the downward scan returns the highest occupied y at or below the top, or 0 when the column is empty |
| World.GroundHeightIgnoresHighBlocks | app/services/world_manager.py:86 | a block above y = 20 never changes the ground height |
| World.GroundScanUnaffected | app/services/world_manager.py:86-89 | a block outside the scanned part of the column does not change the scan |
| World.LeavesAvoidTrunk | app/services/world_manager.py:76-82 | every leaf cell lies within distance 3 of (x, g + 4, z) and is never a trunk cell |
| World.LeafCandidateAt | app/services/world_manager.py:76-78 | step n of the leaf loops visits offset (dx, dz, dy), with n counted in loop order |
| World.LeafIndexInverse | app/services/world_manager.py:76-82 | every leaf cell is visited at exactly one of the 100 loop steps |
| World.PlaceAtCell | app/services/world_manager.py:72-73 | a system placement at a cell's own position stores the block only if the cell is in bounds, touches only total operations and the timestamp, and returns whether it was in bounds |
| World.LeafPlacedNext | app/services/world_manager.py:76-82 | the leaf cells among the first n + 1 steps are those among the first n, plus the cell of step n if it is an in-bounds leaf |
| World.PlantedTrunkStep | app/services/world_manager.py:71-73 | one trunk step extends the planted region by the cell (x, y, z) when it is in bounds |
| World.PlantedLeafStep | app/services/world_manager.py:76-82 | one leaf step extends the planted region by its cell when that cell is an in-bounds leaf |
| World.LeavesValueAt | app/services/world_manager.py:79-82 | step (dx, dz, dy) of the leaf loops places a leaf exactly when the loop's two tests pass |
| World.TrunkValueSpec | app/services/world_manager.py:70-73 | the trunk writes wood into exactly its in-bounds cells, keeps every other block and every player, and counts one operation per cell written |
| World.LeavesValueSpec | app/services/world_manager.py:75-82 | the leaf loops write leaves into exactly the in-bounds leaf cells, keep every other block and every player, and count one operation per cell written |
| World.TreeValueSpec | app/services/world_manager.py:65-82 | a tree puts wood at the in-bounds cells (x, g+1..g+4, z) and leaves at the in-bounds leaf cells, and keeps every other block and every player; the counters grow only in total operations |
| World.TreeCells | app/services/world_manager.py:65-82 | the cells a tree writes are exactly its in-bounds trunk cells, which hold wood, and its in-bounds leaf cells, which hold leaves; every other cell keeps its block |
| World.BlockListing | app/services/world_manager.py:168 | the listed blocks are exactly the stored blocks, each once |
| World.PlayerListing | app/services/world_manager.py:169 | the listed players are exactly the registered players, each once |
| World.WorldManager.constructor | app/services/world_manager.py:13-27 | a new manager has the given terrain, no players, zero edit counters and both timestamps at the start time |
| World.WorldManager.PlaceBlock | app/services/world_manager.py:104-134 | the new blocks, counters and timestamp, and the result, are those of `Place`, and the block map stays well keyed |
| World.WorldManager.UpdateBlock | app/services/world_manager.py:136-138 | an edit is `place_block` with `system_placed` false |
| World.WorldManager.GetBlockAt | app/services/world_manager.py:140-143 | a block is returned exactly when the position's cell is occupied, and it is the block stored there, which belongs to that cell and has a type in 1..10 |
| World.WorldManager.GetGroundHeight | app/services/world_manager.py:84-90 | the loop returns the ground height of the column, a value in 0..20 |
| World.WorldManager.PlaceCell | app/services/world_manager.py:72-73 | one system placement at a cell, as `PlaceCellValue` |
| World.WorldManager.PlaceLeaf | app/services/world_manager.py:79-82 | the body of the leaf loops advances the placements by one loop step |
| World.WorldManager.PlaceLeafSlice | app/services/world_manager.py:77-82 | the inner loops advance the placements by the 20 steps of one dx |
| World.WorldManager.PlaceLeaves | app/services/world_manager.py:76-82 | the leaf loops perform all 100 leaf steps |
| World.WorldManager.GenerateTree | app/services/world_manager.py:65-82 | nothing changes over ground of height 3 or less; otherwise the world becomes `TreeValue` over the old ground height |
| World.WorldManager.UpdatePlayer | app/services/world_manager.py:145-159 | the player map becomes the upsert; blocks, counters and timestamp are unchanged |
| World.WorldManager.RemovePlayer | app/services/world_manager.py:161-164 | only that id is removed, and an absent id changes nothing |
| World.WorldManager.GetWorldState | app/services/world_manager.py:166-170 | the snapshot lists every block and every player exactly once, with the default size and the manager's timestamps |
| World.WorldManager.GetStats | app/services/world_manager.py:180-187 | the report carries the three counters, total blocks = number of stored blocks, active players = number of player records, and the uptime |
| Connections.Reached | app/services/connection_manager.py:45-50 | a broadcast delivers only to connected players whose send works, and never to the excluded player |
| Connections.Survivors | app/services/connection_manager.py:52-54 | after a broadcast, every remaining connection was there before with the same socket, and the excluded player is never dropped |
| Connections.BroadcastPartition | app/services/connection_manager.py:38-75 | every connection tried is either delivered to or dropped, never both; exactly the failing ones other than the excluded player are dropped; with nothing failing, nothing is dropped |
| Connections.ReachedAreSurvivors | app/services/connection_manager.py:38-54 | after a plain broadcast, the connections left are exactly the ones it delivered to |
| Connections.TrySends | app/services/connection_manager.py:63-71 | the send loop tries each connection except the excluded one exactly once, delivers to those whose send works, and collects the others |
| Connections.ConnectionManager.constructor | app/services/connection_manager.py:9-11 | a new registry has no connections |
| Connections.ConnectionManager.Connect | app/services/connection_manager.py:13-18 | the socket is stored under the player id, and `player_connections` maps the id to itself |
| Connections.ConnectionManager.Disconnect | app/services/connection_manager.py:20-26 | the id leaves both maps, and an unknown id changes nothing |
| Connections.ConnectionManager.SendPersonalMessage | app/services/connection_manager.py:28-36 | a message is delivered only to a registered player whose send works; a failed send disconnects that player alone |
| Connections.ConnectionManager.DisconnectAll | app/services/connection_manager.py:52-54 | the clean-up loop removes exactly the listed players |
| Connections.ConnectionManager.SendToAll | app/services/connection_manager.py:38-75 | with no connections nothing happens; otherwise each connection but the excluded one is tried exactly once, the message reaches the working ones, and exactly the failing ones are removed |
| Connections.ConnectionManager.Broadcast | app/services/connection_manager.py:38-54 | the message reaches every connection whose send works, and exactly the failing connections are removed |
| Connections.ConnectionManager.BroadcastToOthers | app/services/connection_manager.py:56-75 | as `broadcast`, except that the excluded player is neither sent to nor removed |
| Connections.ConnectionManager.BroadcastToArea | app/services/connection_manager.py:77-81 | exactly `broadcast`, whatever the centre and radius |
| Connections.ConnectionManager.GetConnectedPlayers | app/services/connection_manager.py:83-85 | the connected ids, each once |
| Connections.ConnectionManager.GetConnectionCount | app/services/connection_manager.py:87-89 | the number of active connections, which equals the number of player entries |
| Connections.ConnectionManager.PingAll | app/services/connection_manager.py:91-97 | one broadcast of a ping stamped with the clock, reaching every working connection and dropping the failing ones; with no connections it reaches no one |
| Server.HandleBlockUpdate | app/main.py:136-151 | an edit is applied as `update_block`; it goes to every working connection, the sender included, only if it succeeded; an out-of-bounds edit changes nothing and sends nothing; a type above 10 clears the cell and raises |
| Server.HandlePlayerUpdate | app/main.py:153-167 | the sender's record is upserted; blocks, counters and the last-modified time are unchanged; the move goes to every working connection except the sender; every failing connection but the sender's is dropped |
| Server.HandleChat | app/main.py:169-179 | the world is unchanged, and the chat goes to every working connection with the clock reading; missing text becomes "" |
| Server.HandleUnknown | app/main.py:181-182 | a message whose type is none of the three handled ones, or missing, changes nothing and sends nothing |
| Server.RunAppend | app/main.py:106-111 | handling two batches back to back is handling the second from where the first stopped, unless the first raised |
| Server.RunSingle | app/main.py:106-111 | a run of one message is that message's handler |
| Server.LastWriteWins | app/main.py:106-111 | of two edits to the same cell handled in order, the second decides the cell, provided the first does not raise and so end the loop |
| Server.RunKeepsHealthy | app/main.py:106-111 | over any run, a connection whose sends work stays open, no player record disappears, and records other than the sender's are untouched |
| Server.HandleWebsocketMessage | app/main.py:132-182 | the new world, the new connections and the sends are those of `Handle` |
| Server.ReceiveLoop | app/main.py:106-111 | the loop ends in the state, with the sends and the raised flag that `Run` gives |
| Server.Session | app/main.py:106-111 | an open session's messages are handled as `Run` describes; the player's own connection and every player record are kept |
| Server.JoinAndReceive | app/main.py:74-111 | the join goes through exactly when the player's socket works. If it does not, nothing is sent and the world is unchanged. If it does, the player gets the snapshot of the world before the session and the welcome, the others get `player_joined`, and everyone left gets the count; then the receive loop runs from the state the join left, and the world, the connections, the raised flag and the sends after those four messages are those of `Run` |
| Server.Join | app/main.py:74-104 | the socket is registered; if the player's own socket fails nothing is delivered; otherwise the player gets the snapshot and the welcome, the others get `player_joined`, then everyone gets the connection count |
| Server.AnnounceJoin | app/main.py:92-104 | the others hear of the join, then every working connection gets the count of connections that remain |
| Server.Leave | app/main.py:113-128 | the player's connection is removed, then the remaining connections get `player_left` and the new count |
| Server.WebsocketEndpoint | app/main.py:71-130 | the sends are exactly: the four join messages if the join went through, then the sends `Run` gives from the state the join left, then, unless a handler raised, `player_left` and the final count, and nothing else. The world and the raised flag are those of `Run`. After a disconnect (or a failed join) the player's connection and the failing ones are removed from the connections the loop left, `player_left` goes to the rest and the final count goes to them. A raised handler leaves the connections as the loop left them, the player included. No player record is ever removed |

## Left out

- Saving and loading the world, the auto-save loop and the asyncio task that starts it: file I/O and scheduling.
- The initial terrain. Its height formula uses float division. The constructor takes the terrain map and the number of placements that built it as given, and the generator's console prints are out too.
- `get_world_bounds` and the REST endpoints that report it: the bounds are constants of the model.
- Clocks. `datetime.now()` and the event-loop time are the parameter `now`, in whole seconds, read once per call.
- Random player ids. The id that `uuid4` draws is a parameter.
- JSON encoding and decoding, FastAPI routing, CORS, static files and the REST endpoints. Messages are datatypes.
- Console output.
- Malformed client messages (bad JSON, a missing position or type, non-numeric fields): a client message is already well formed.
- Dictionary order. A broadcast's recipients are a set. The order of listed keys, values and snapshots is left open.
- Concurrency between sessions. One session runs at a time, and other sessions' awaits are not interleaved.
- Sends. Whether a socket's send fails is the `failing` oracle, fixed for one call, and fixed for a whole session in the endpoint.
- World.WorldManager.GetWorldState: the source reuses and mutates one shared world-state object; the model returns a fresh snapshot value, so aliasing of that object is not captured.
- Server.Join: when the joining player's own socket fails, the exception type the framework raises is not visible. The model sends the session to the leave sequence with nothing delivered.
- Server.WebsocketEndpoint: a block edit with a type above 10 raises a validation error that is not a disconnect, so the session ends without the leave sequence and the player stays registered. This is modelled as written (`crashed`), not corrected.
- World.WorldManager.GetUptime carries no contract of its own. Uptime is the integer number of seconds since creation, and `GetStats` states it.
- The `GameStats` record is declared but never built: `get_stats` returns its own dictionary, modelled as `StatsReport`.
- The `BlockUpdate`, `PlayerUpdate` and `ChatMessage` records are not used on the websocket path. Their limits are modelled as smart constructors only, so a chat text longer than 500 characters is still broadcast.
- `placed_by` is always absent on the websocket path, because `update_block` is called without a player id.
- Player position and rotation are carried as values, since no arithmetic is done on them.
