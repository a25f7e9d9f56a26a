/**
 * The sparse block store and player registry (app/services/world_manager.py).
 *
 * The first half states the manager's behaviour on plain values: which
 * cell a position addresses, whether it lies in the world, what one
 * placement does to the block map and the counters, how the ground height
 * is found and which cells a tree occupies.  The second half is the
 * `WorldManager` class, whose methods update its dictionaries in place and
 * are proved against those functions.
 */
module World {
  import opened Models
  import opened Collections

  // Inclusive world bounds.
  const MinX: int := -50
  const MaxX: int := 50
  const MinY: int := 0
  const MaxY: int := 50
  const MinZ: int := -50
  const MaxZ: int := 50

  /** The ground-height scan looks at y = 20 down to y = 0 only. */
  const GroundScanTop: int := 20

  const WoodType: int := 5
  const LeafType: int := 1

  /** The integer cell a block is stored under. */
  datatype Key = Key(x: int, y: int, z: int)

  /** Python's `int()` on a float: truncation toward zero. */
  function Trunc(r: real): (n: int)
    ensures 0.0 <= r ==> n as real <= r < n as real + 1.0
    ensures r < 0.0 ==> n as real - 1.0 < r <= n as real
  {
    if r >= 0.0 then r.Floor else -((-r).Floor)
  }

  function PositionToKey(p: Position): Key {
    Key(Trunc(p.x), Trunc(p.y), Trunc(p.z))
  }

  /** The position whose components are exactly the cell's coordinates. */
  function CellPosition(k: Key): Position {
    Position(k.x as real, k.y as real, k.z as real)
  }

  /** Bounds are checked on the position itself, before truncation. */
  predicate IsValidPosition(p: Position) {
    && MinX as real <= p.x <= MaxX as real
    && MinY as real <= p.y <= MaxY as real
    && MinZ as real <= p.z <= MaxZ as real
  }

  predicate InBounds(k: Key) {
    MinX <= k.x <= MaxX && MinY <= k.y <= MaxY && MinZ <= k.z <= MaxZ
  }

  /** Every accepted position addresses a cell inside the world. */
  lemma ValidPositionKeyInBounds(p: Position)
    requires IsValidPosition(p)
    ensures InBounds(PositionToKey(p))
  {
    var k := PositionToKey(p);
    assert MinX <= k.x <= MaxX by {
      if p.x < 0.0 { assert k.x as real > p.x - 1.0; } else { assert k.x as real <= p.x; }
    }
    assert MinY <= k.y <= MaxY by {
      assert k.y as real <= p.y;
    }
    assert MinZ <= k.z <= MaxZ by {
      if p.z < 0.0 { assert k.z as real > p.z - 1.0; } else { assert k.z as real <= p.z; }
    }
  }

  /** An integral position addresses its own cell, and is accepted exactly when that cell is in bounds. */
  lemma CellPositionRoundTrip(k: Key)
    ensures PositionToKey(CellPosition(k)) == k
    ensures IsValidPosition(CellPosition(k)) <==> InBounds(k)
  {
  }

  /**
   * The converse of ValidPositionKeyInBounds fails: 50.5 is rejected although
   * it truncates to the in-bounds cell 50, and -0.5 is accepted and lands in
   * cell 0 (truncation, not flooring).
   */
  lemma TruncationAtTheEdges()
    ensures !IsValidPosition(Position(50.5, 0.0, 0.0)) && InBounds(PositionToKey(Position(50.5, 0.0, 0.0)))
    ensures IsValidPosition(Position(-0.5, 0.0, -1.5)) && PositionToKey(Position(-0.5, 0.0, -1.5)) == Key(0, 0, -1)
  {
  }

  // ---------------------------------------------------------------------
  // World values

  datatype Stats = Stats(blocksPlacedToday: nat, blocksDestroyedToday: nat, totalOperations: nat)

  /** The mutable part of the manager: blocks, players, counters and the last-modified time. */
  datatype WorldValue = WorldValue(
    blocks: map<Key, Block>,
    players: map<string, Player>,
    stats: Stats,
    lastModified: Time)

  /** Every stored block sits under the key of its own position, inside the world, and is not air. */
  ghost predicate WellKeyed(blocks: map<Key, Block>) {
    forall k :: k in blocks ==>
      && PositionToKey(blocks[k].position) == k
      && IsValidPosition(blocks[k].position)
      && 0 < blocks[k].blockType <= MaxBlockType
  }

  /** Every player record is filed under its own id. */
  ghost predicate WellNamed(players: map<string, Player>) {
    forall id :: id in players ==> players[id].id == id
  }

  /** The counters after one accepted placement. */
  function CountOperation(s: Stats, blockType: int, systemPlaced: bool): Stats {
    Stats(
      s.blocksPlacedToday + (if !systemPlaced && blockType > 0 then 1 else 0),
      s.blocksDestroyedToday + (if !systemPlaced && blockType <= 0 then 1 else 0),
      s.totalOperations + 1)
  }

  /**
   * One `place_block` call: the new world value and what the call returns.
   * An out-of-bounds position returns false and changes nothing.  Otherwise
   * any block at the cell is deleted first; a positive type then stores a
   * new block, which fails validation (and raises, leaving the cell
   * cleared) when the type exceeds 10.
   */
  function Place(w: WorldValue, position: Position, blockType: int, playerId: Option<string>,
                 systemPlaced: bool, now: Time): (WorldValue, Result<bool>)
  {
    if !IsValidPosition(position) then (w, Ok(false))
    else
      var key := PositionToKey(position);
      var cleared := w.blocks - {key};
      if blockType > 0 then
        match NewBlock(position, blockType, playerId, Some(now))
        case ValidationError(field) => (w.(blocks := cleared), ValidationError(field))
        case Ok(block) =>
          (w.(blocks := cleared[key := block],
              stats := CountOperation(w.stats, blockType, systemPlaced),
              lastModified := now), Ok(true))
      else
        (w.(blocks := cleared,
            stats := CountOperation(w.stats, blockType, systemPlaced),
            lastModified := now), Ok(true))
  }

  /**
   * What one placement does: the result by case, the cell itself, every
   * other cell, the counters and timestamp, the players, and the block
   * invariant.
   */
  lemma PlaceSpec(w: WorldValue, position: Position, blockType: int, playerId: Option<string>,
                  systemPlaced: bool, now: Time)
    ensures var r := Place(w, position, blockType, playerId, systemPlaced, now);
      && (!IsValidPosition(position) ==> r == (w, Ok(false)))
      && (IsValidPosition(position) && blockType <= MaxBlockType ==> r.1 == Ok(true))
      && (IsValidPosition(position) && blockType > MaxBlockType ==> r.1.ValidationError?)
    ensures var after := Place(w, position, blockType, playerId, systemPlaced, now).0; var key := PositionToKey(position);
      && (IsValidPosition(position) && 0 < blockType <= MaxBlockType ==>
            key in after.blocks && after.blocks[key] == Block(position, blockType, playerId, Some(now)))
      && (IsValidPosition(position) && (blockType <= 0 || blockType > MaxBlockType) ==> key !in after.blocks)
    ensures var after := Place(w, position, blockType, playerId, systemPlaced, now).0;
      forall k :: k != PositionToKey(position) ==>
        (k in after.blocks <==> k in w.blocks) && (k in w.blocks ==> after.blocks[k] == w.blocks[k])
    ensures var r := Place(w, position, blockType, playerId, systemPlaced, now);
      && (r.1 == Ok(true) ==> r.0.stats == CountOperation(w.stats, blockType, systemPlaced) && r.0.lastModified == now)
      && (r.1 != Ok(true) ==> r.0.stats == w.stats && r.0.lastModified == w.lastModified)
    ensures Place(w, position, blockType, playerId, systemPlaced, now).0.players == w.players
  {
  }

  /** A placement stores only blocks that belong where they are stored. */
  lemma PlaceKeepsWellKeyed(w: WorldValue, position: Position, blockType: int, playerId: Option<string>,
                            systemPlaced: bool, now: Time)
    requires WellKeyed(w.blocks)
    ensures WellKeyed(Place(w, position, blockType, playerId, systemPlaced, now).0.blocks)
  {
  }

  /** Removing twice leaves the same block map as removing once. */
  lemma RemoveIsIdempotent(w: WorldValue, position: Position, blockType: int, blockType': int,
                           playerId: Option<string>, systemPlaced: bool, now: Time, now': Time)
    requires blockType <= 0 && blockType' <= 0
    ensures var once := Place(w, position, blockType, playerId, systemPlaced, now).0;
            Place(once, position, blockType', playerId, systemPlaced, now').0.blocks == once.blocks
  {
    var once := Place(w, position, blockType, playerId, systemPlaced, now).0;
    var twice := Place(once, position, blockType', playerId, systemPlaced, now').0;
    assert forall k :: k in twice.blocks <==> k in once.blocks;
  }

  /** Two placements at the same cell leave the blocks the second alone would leave. */
  lemma PlaceOverwrites(w: WorldValue, p: Position, q: Position, t: int, u: int,
                        playerId: Option<string>, systemPlaced: bool, now: Time, now': Time)
    requires PositionToKey(p) == PositionToKey(q) && IsValidPosition(q)
    ensures Place(Place(w, p, t, playerId, systemPlaced, now).0, q, u, playerId, systemPlaced, now').0.blocks
         == Place(w, q, u, playerId, systemPlaced, now').0.blocks
  {
    var a := Place(Place(w, p, t, playerId, systemPlaced, now).0, q, u, playerId, systemPlaced, now').0.blocks;
    var b := Place(w, q, u, playerId, systemPlaced, now').0.blocks;
    assert forall k :: k in a <==> k in b;
  }

  /** `total_blocks` moves by at most one per placement, in the direction of the change. */
  lemma PlaceBlockCount(w: WorldValue, position: Position, blockType: int, playerId: Option<string>,
                        systemPlaced: bool, now: Time)
    requires IsValidPosition(position) && blockType <= MaxBlockType
    ensures var after := Place(w, position, blockType, playerId, systemPlaced, now).0;
            var key := PositionToKey(position);
            |after.blocks| == |w.blocks| + (if blockType > 0 then 1 else 0) - (if key in w.blocks then 1 else 0)
  {
    var key := PositionToKey(position);
    var cleared := w.blocks - {key};
    if key in w.blocks {
      assert w.blocks.Keys == cleared.Keys + {key};
      assert |w.blocks.Keys| == |cleared.Keys| + 1;
    } else {
      assert cleared == w.blocks;
    }
  }

  /** A player record with the given position and rotation; other players untouched. */
  function UpsertPlayer(players: map<string, Player>, playerId: string, position: Position,
                        rotation: Position, now: Time): (r: map<string, Player>)
    ensures r.Keys == players.Keys + {playerId}
    ensures WellNamed(players) ==> r[playerId].id == playerId
    ensures r[playerId].position == position
      && r[playerId].rotation == rotation && r[playerId].lastActive == now
    ensures r[playerId].connectedAt == if playerId in players then players[playerId].connectedAt else now
    ensures forall id :: id in players && id != playerId ==> r[id] == players[id]
    ensures WellNamed(players) ==> WellNamed(r)
  {
    if playerId in players then
      players[playerId := players[playerId].(position := position, rotation := rotation, lastActive := now)]
    else
      players[playerId := Player(playerId, position, rotation, now, now)]
  }

  // ---------------------------------------------------------------------
  // Ground height

  /** Scans y = top, top - 1, ..., 0 in column (x, z) and returns the first occupied y, else 0. */
  function HighestBlockAt(blocks: map<Key, Block>, x: int, z: int, top: int): (y: int)
    ensures 0 <= y && (top >= 0 ==> y <= top) && (top < 0 ==> y == 0)
    ensures forall h :: y < h <= top ==> Key(x, h, z) !in blocks
    ensures Key(x, y, z) in blocks || (y == 0 && forall h :: 0 <= h <= top ==> Key(x, h, z) !in blocks)
    decreases top
  {
    if top < 0 then 0
    else if Key(x, top, z) in blocks then top
    else HighestBlockAt(blocks, x, z, top - 1)
  }

  function GroundHeight(blocks: map<Key, Block>, x: int, z: int): int {
    HighestBlockAt(blocks, x, z, GroundScanTop)
  }

  /** Blocks above y = 20 never raise the ground, and an empty column reads as 0. */
  lemma GroundHeightIgnoresHighBlocks(blocks: map<Key, Block>, x: int, z: int, y: int, b: Block)
    requires y > GroundScanTop
    ensures GroundHeight(blocks[Key(x, y, z) := b], x, z) == GroundHeight(blocks, x, z)
  {
    GroundScanUnaffected(blocks, Key(x, y, z), b, x, z, GroundScanTop);
  }

  lemma {:induction false} GroundScanUnaffected(blocks: map<Key, Block>, k: Key, b: Block, x: int, z: int, top: int)
    requires k.y > top || k.x != x || k.z != z
    ensures HighestBlockAt(blocks[k := b], x, z, top) == HighestBlockAt(blocks, x, z, top)
    decreases top
  {
    if top >= 0 {
      GroundScanUnaffected(blocks, k, b, x, z, top - 1);
    }
  }

  // ---------------------------------------------------------------------
  // Trees

  function Abs(n: int): nat {
    if n < 0 then -n else n
  }

  /** Offset (dx, dz, dy) from (x, ground, z) of a leaf cell of a tree. */
  predicate IsLeafOffset(dx: int, dz: int, dy: int) {
    && -2 <= dx <= 2 && -2 <= dz <= 2 && 3 <= dy <= 6
    && Abs(dx) + Abs(dz) + Abs(dy - 4) <= 3
    && !(dx == 0 && dz == 0 && dy <= 4)
  }

  predicate IsTrunkCell(x: int, z: int, g: int, k: Key) {
    k.x == x && k.z == z && g + 1 <= k.y <= g + 4
  }

  predicate IsLeafCell(x: int, z: int, g: int, k: Key) {
    IsLeafOffset(k.x - x, k.z - z, k.y - g)
  }

  /** Leaf cells form a diamond around (x, g + 4, z) and never include a trunk cell. */
  lemma LeavesAvoidTrunk(x: int, z: int, g: int, k: Key)
    requires IsLeafCell(x, z, g, k)
    ensures !IsTrunkCell(x, z, g, k)
    ensures Abs(k.x - x) + Abs(k.z - z) + Abs(k.y - g - 4) <= 3
  {
  }

  /** Position of a leaf candidate in the order the nested loops visit offsets (dx, then dz, then dy). */
  function LeafIndex(x: int, z: int, g: int, k: Key): int {
    (k.x - x + 2) * 20 + (k.z - z + 2) * 4 + (k.y - g - 3)
  }

  /** The candidate cell visited at step i of the leaf loops. */
  function LeafCandidate(x: int, z: int, g: int, i: int): Key {
    Key(x + (i / 20 - 2), g + (i % 4 + 3), z + ((i % 20) / 4 - 2))
  }

  /** The block a tree writes into cell k. */
  function CellBlock(k: Key, blockType: int, now: Time): Block {
    Block(CellPosition(k), blockType, None, Some(now))
  }

  predicate TrunkPlaced(x: int, z: int, g: int, top: int, k: Key) {
    InBounds(k) && IsTrunkCell(x, z, g, k) && k.y < top
  }

  predicate LeafPlaced(x: int, z: int, g: int, n: int, k: Key) {
    InBounds(k) && IsLeafCell(x, z, g, k) && LeafIndex(x, z, g, k) < n
  }

  /**
   * `after` is `before` with the in-bounds trunk cells below `top` holding
   * wood and the in-bounds leaf cells among the first `n` candidates
   * holding leaves.
   */
  ghost predicate Planted(before: map<Key, Block>, after: map<Key, Block>, x: int, z: int, g: int,
                          top: int, n: int, now: Time) {
    && (forall k :: k in after <==> k in before || TrunkPlaced(x, z, g, top, k) || LeafPlaced(x, z, g, n, k))
    && (forall k :: k in after ==>
          after[k] == (if TrunkPlaced(x, z, g, top, k) then CellBlock(k, WoodType, now)
                       else if LeafPlaced(x, z, g, n, k) then CellBlock(k, LeafType, now)
                       else before[k]))
  }

  /** Accepted placements among the trunk cells (x, g + 1 .. top - 1, z). */
  function TrunkOperations(x: int, z: int, g: int, top: int): nat
    decreases top - g
  {
    if top <= g + 1 then 0
    else TrunkOperations(x, z, g, top - 1) + (if InBounds(Key(x, top - 1, z)) then 1 else 0)
  }

  /** Accepted placements among the first n leaf candidates. */
  function LeafOperations(x: int, z: int, g: int, n: int): nat
    decreases n
  {
    if n <= 0 then 0
    else
      var k := LeafCandidate(x, z, g, n - 1);
      LeafOperations(x, z, g, n - 1) + (if IsLeafCell(x, z, g, k) && InBounds(k) then 1 else 0)
  }

  function TreeOperations(x: int, z: int, g: int): nat {
    TrunkOperations(x, z, g, g + 5) + LeafOperations(x, z, g, 100)
  }

  /** Step n of the leaf loops visits offset (dx, dz, dy). */
  lemma LeafCandidateAt(x: int, z: int, g: int, dx: int, dz: int, dy: int)
    requires -2 <= dx <= 2 && -2 <= dz <= 2 && 3 <= dy <= 6
    ensures LeafCandidate(x, z, g, (dx + 2) * 20 + (dz + 2) * 4 + (dy - 3)) == Key(x + dx, g + dy, z + dz)
  {
    var n := (dx + 2) * 20 + (dz + 2) * 4 + (dy - 3);
    assert n / 20 == dx + 2 && n % 20 == (dz + 2) * 4 + (dy - 3);
    assert ((dz + 2) * 4 + (dy - 3)) / 4 == dz + 2 && n % 4 == dy - 3;
  }

  /** Each leaf cell is visited at exactly one step, the one numbered by its LeafIndex. */
  lemma LeafIndexInverse(x: int, z: int, g: int, k: Key)
    requires IsLeafCell(x, z, g, k)
    ensures 0 <= LeafIndex(x, z, g, k) < 100
    ensures LeafCandidate(x, z, g, LeafIndex(x, z, g, k)) == k
  {
    LeafCandidateAt(x, z, g, k.x - x, k.z - z, k.y - g);
  }

  /** A system placement at an integral cell: the cell is overwritten if it lies in the world. */
  function PlaceCellValue(w: WorldValue, cell: Key, blockType: int, now: Time): WorldValue {
    if InBounds(cell) then
      w.(blocks := w.blocks[cell := CellBlock(cell, blockType, now)],
         stats := w.stats.(totalOperations := w.stats.totalOperations + 1),
         lastModified := now)
    else w
  }

  /** `place_block` at a cell's own position, by the system, with a non-air type, is PlaceCellValue. */
  lemma PlaceAtCell(w: WorldValue, cell: Key, blockType: int, now: Time)
    requires 0 < blockType <= MaxBlockType
    ensures Place(w, CellPosition(cell), blockType, None, true, now) ==
      (PlaceCellValue(w, cell, blockType, now), Ok(InBounds(cell)))
  {
    CellPositionRoundTrip(cell);
    if InBounds(cell) {
      var cleared := w.blocks - {cell};
      assert cleared[cell := CellBlock(cell, blockType, now)] == w.blocks[cell := CellBlock(cell, blockType, now)];
    }
  }

  /** The trunk placements for y = g + 1 .. top - 1, bottom up. */
  function TrunkValue(w: WorldValue, x: int, z: int, g: int, top: int, now: Time): WorldValue
    decreases top - g
  {
    if top <= g + 1 then w
    else PlaceCellValue(TrunkValue(w, x, z, g, top - 1, now), Key(x, top - 1, z), WoodType, now)
  }

  /** The first n leaf placements, in loop order, after the world value w. */
  function LeavesValue(w: WorldValue, x: int, z: int, g: int, n: int, now: Time): WorldValue
    decreases n
  {
    if n <= 0 then w
    else
      var k := LeafCandidate(x, z, g, n - 1);
      var prev := LeavesValue(w, x, z, g, n - 1, now);
      if IsLeafCell(x, z, g, k) then PlaceCellValue(prev, k, LeafType, now) else prev
  }

  /** One `generate_tree` at (x, z) over ground height g: trunk, then leaves. */
  function TreeValue(w: WorldValue, x: int, z: int, g: int, now: Time): WorldValue {
    LeavesValue(TrunkValue(w, x, z, g, g + 5, now), x, z, g, 100, now)
  }

  /** Leaf cells among the first n + 1 candidates are those among the first n, plus candidate n if it is a leaf. */
  lemma LeafPlacedNext(x: int, z: int, g: int, n: int, k: Key)
    requires 0 <= n < 100
    ensures LeafPlaced(x, z, g, n + 1, k) <==>
      LeafPlaced(x, z, g, n, k) || (k == LeafCandidate(x, z, g, n) && IsLeafCell(x, z, g, k) && InBounds(k))
  {
    if IsLeafCell(x, z, g, k) {
      LeafIndexInverse(x, z, g, k);
    }
  }

  /** One step of the trunk loop: cell (x, y, z), if in bounds, now holds wood. */
  lemma PlantedTrunkStep(before: map<Key, Block>, mid: map<Key, Block>, x: int, z: int, g: int, y: int, now: Time)
    requires g < y <= g + 4
    requires Planted(before, mid, x, z, g, y, 0, now)
    ensures var cell := Key(x, y, z);
      Planted(before, if InBounds(cell) then mid[cell := CellBlock(cell, WoodType, now)] else mid,
              x, z, g, y + 1, 0, now)
  {
  }

  /** One step of the leaf loops: the candidate cell, if it is a leaf in bounds, now holds a leaf. */
  lemma PlantedLeafStep(before: map<Key, Block>, mid: map<Key, Block>, x: int, z: int, g: int, n: int, now: Time)
    requires 0 <= n < 100
    requires Planted(before, mid, x, z, g, g + 5, n, now)
    ensures var cell := LeafCandidate(x, z, g, n);
      Planted(before, if IsLeafCell(x, z, g, cell) && InBounds(cell) then mid[cell := CellBlock(cell, LeafType, now)] else mid,
              x, z, g, g + 5, n + 1, now)
  {
    var cell := LeafCandidate(x, z, g, n);
    var after := if IsLeafCell(x, z, g, cell) && InBounds(cell) then mid[cell := CellBlock(cell, LeafType, now)] else mid;
    forall k
      ensures LeafPlaced(x, z, g, n + 1, k) <==>
        LeafPlaced(x, z, g, n, k) || (k == cell && IsLeafCell(x, z, g, k) && InBounds(k))
    {
      LeafPlacedNext(x, z, g, n, k);
    }
    if IsLeafCell(x, z, g, cell) {
      LeavesAvoidTrunk(x, z, g, cell);
    }
  }

  /** Step (dx, dz, dy) of the leaf loops, stated with the loops' own test for a leaf offset. */
  lemma LeavesValueAt(w: WorldValue, x: int, z: int, g: int, n: int, dx: int, dz: int, dy: int, now: Time)
    requires -2 <= dx <= 2 && -2 <= dz <= 2 && 3 <= dy <= 6
    requires n == (dx + 2) * 20 + (dz + 2) * 4 + (dy - 3)
    ensures var prev := LeavesValue(w, x, z, g, n, now);
      LeavesValue(w, x, z, g, n + 1, now) ==
        if Abs(dx) + Abs(dz) + Abs(dy - 4) <= 3 && !(dx == 0 && dz == 0 && dy <= 4)
        then PlaceCellValue(prev, Key(x + dx, g + dy, z + dz), LeafType, now)
        else prev
  {
    var k := Key(x + dx, g + dy, z + dz);
    LeafCandidateAt(x, z, g, dx, dz, dy);
    assert IsLeafCell(x, z, g, k) <==> Abs(dx) + Abs(dz) + Abs(dy - 4) <= 3 && !(dx == 0 && dz == 0 && dy <= 4) by {
      assert k.x - x == dx && k.z - z == dz && k.y - g == dy;
    }
    assert LeavesValue(w, x, z, g, n + 1, now) ==
      if IsLeafCell(x, z, g, k) then PlaceCellValue(LeavesValue(w, x, z, g, n, now), k, LeafType, now)
      else LeavesValue(w, x, z, g, n, now);
  }

  /** The trunk writes wood into exactly its in-bounds cells and counts one operation per cell written. */
  lemma {:induction false} TrunkValueSpec(w: WorldValue, x: int, z: int, g: int, top: int, now: Time)
    requires g < top <= g + 5
    ensures var r := TrunkValue(w, x, z, g, top, now);
      && Planted(w.blocks, r.blocks, x, z, g, top, 0, now)
      && r.players == w.players
      && r.stats == w.stats.(totalOperations := w.stats.totalOperations + TrunkOperations(x, z, g, top))
      && r.lastModified == (if TrunkOperations(x, z, g, top) > 0 then now else w.lastModified)
    decreases top - g
  {
    if top > g + 1 {
      TrunkValueSpec(w, x, z, g, top - 1, now);
      PlantedTrunkStep(w.blocks, TrunkValue(w, x, z, g, top - 1, now).blocks, x, z, g, top - 1, now);
    }
  }

  /** The first n leaf steps write leaves into exactly the in-bounds leaf cells among the first n candidates. */
  lemma {:induction false} LeavesValueSpec(before: map<Key, Block>, w: WorldValue, x: int, z: int, g: int, n: int, now: Time)
    requires 0 <= n <= 100
    requires Planted(before, w.blocks, x, z, g, g + 5, 0, now)
    ensures var r := LeavesValue(w, x, z, g, n, now);
      && Planted(before, r.blocks, x, z, g, g + 5, n, now)
      && r.players == w.players
      && r.stats == w.stats.(totalOperations := w.stats.totalOperations + LeafOperations(x, z, g, n))
      && r.lastModified == (if LeafOperations(x, z, g, n) > 0 then now else w.lastModified)
    decreases n
  {
    if n > 0 {
      LeavesValueSpec(before, w, x, z, g, n - 1, now);
      PlantedLeafStep(before, LeavesValue(w, x, z, g, n - 1, now).blocks, x, z, g, n - 1, now);
    }
  }

  /**
   * A tree over ground height g > 3 puts wood at the in-bounds cells
   * (x, g + 1 .. g + 4, z) and leaves at the in-bounds leaf cells, keeps
   * every other block and every player, and counts one operation per cell
   * written.
   */
  lemma TreeValueSpec(w: WorldValue, x: int, z: int, g: int, now: Time)
    ensures var r := TreeValue(w, x, z, g, now);
      && Planted(w.blocks, r.blocks, x, z, g, g + 5, 100, now)
      && r.players == w.players
      && r.stats == w.stats.(totalOperations := w.stats.totalOperations + TreeOperations(x, z, g))
      && r.lastModified == (if TreeOperations(x, z, g) > 0 then now else w.lastModified)
  {
    TrunkValueSpec(w, x, z, g, g + 5, now);
    LeavesValueSpec(w.blocks, TrunkValue(w, x, z, g, g + 5, now), x, z, g, 100, now);
  }

  /**
   * The cells a tree over ground height g writes are exactly its in-bounds
   * trunk cells, which hold wood, and its in-bounds leaf cells, which hold
   * leaves; every other cell keeps what it held.
   */
  lemma TreeCells(w: WorldValue, x: int, z: int, g: int, now: Time)
    ensures var after := TreeValue(w, x, z, g, now).blocks;
      forall k :: k in after <==> k in w.blocks || (InBounds(k) && (IsTrunkCell(x, z, g, k) || IsLeafCell(x, z, g, k)))
    ensures var after := TreeValue(w, x, z, g, now).blocks;
      forall k :: k in after ==>
        after[k] == (if InBounds(k) && IsTrunkCell(x, z, g, k) then CellBlock(k, WoodType, now)
                     else if InBounds(k) && IsLeafCell(x, z, g, k) then CellBlock(k, LeafType, now)
                     else w.blocks[k])
  {
    TreeValueSpec(w, x, z, g, now);
    forall k
      ensures LeafPlaced(x, z, g, 100, k) <==> InBounds(k) && IsLeafCell(x, z, g, k)
    {
      if IsLeafCell(x, z, g, k) {
        LeafIndexInverse(x, z, g, k);
      }
    }
  }

  // ---------------------------------------------------------------------
  // Snapshots

  /** `list` holds every block of `blocks`, each filed under the key of its position, and nothing else. */
  ghost predicate ListsBlocks(list: seq<Block>, blocks: map<Key, Block>) {
    && |list| == |blocks|
    && (forall i :: 0 <= i < |list| ==>
          PositionToKey(list[i].position) in blocks && blocks[PositionToKey(list[i].position)] == list[i])
    && (forall k :: k in blocks ==> blocks[k] in list)
  }

  /** `list` holds every player of `players`, each filed under its own id, and nothing else. */
  ghost predicate ListsPlayers(list: seq<Player>, players: map<string, Player>) {
    && |list| == |players|
    && (forall i :: 0 <= i < |list| ==> list[i].id in players && players[list[i].id] == list[i])
    && (forall id :: id in players ==> players[id] in list)
  }

  /** `ws` lists every block and every player exactly once, with the given timestamps. */
  ghost predicate SnapshotOf(ws: WorldState, blocks: map<Key, Block>, players: map<string, Player>,
                             createdAt: Time, lastModified: Time) {
    && ListsBlocks(ws.blocks, blocks)
    && ListsPlayers(ws.players, players)
    && ws.worldSize == DefaultWorldSize && ws.createdAt == createdAt && ws.lastModified == lastModified
  }

  /** The values of a well-keyed block map, listed alongside its keys, are a listing of its blocks. */
  lemma BlockListing(blocks: map<Key, Block>, keys: seq<Key>, values: seq<Block>)
    requires WellKeyed(blocks)
    requires |keys| == |values| == |blocks|
    requires forall i :: 0 <= i < |keys| ==> keys[i] in blocks && values[i] == blocks[keys[i]]
    requires forall k :: k in blocks ==> k in keys
    ensures ListsBlocks(values, blocks)
  {
    forall k | k in blocks
      ensures blocks[k] in values
    {
      var i :| 0 <= i < |keys| && keys[i] == k;
      assert values[i] == blocks[k];
    }
  }

  /** The values of a well-named player map, listed alongside its ids, are a listing of its players. */
  lemma PlayerListing(players: map<string, Player>, ids: seq<string>, values: seq<Player>)
    requires WellNamed(players)
    requires |ids| == |values| == |players|
    requires forall i :: 0 <= i < |ids| ==> ids[i] in players && values[i] == players[ids[i]]
    requires forall id :: id in players ==> id in ids
    ensures ListsPlayers(values, players)
  {
    forall id | id in players
      ensures players[id] in values
    {
      var i :| 0 <= i < |ids| && ids[i] == id;
      assert values[i] == players[id];
    }
  }

  // ---------------------------------------------------------------------
  // The manager

  datatype StatsReport = StatsReport(
    blocksPlacedToday: nat,
    blocksDestroyedToday: nat,
    totalOperations: nat,
    totalBlocks: nat,
    activePlayers: nat,
    uptimeSeconds: int)

  class WorldManager {
    var blocks: map<Key, Block>
    var players: map<string, Player>
    var stats: Stats
    const createdAt: Time
    var lastModified: Time

    ghost predicate Valid()
      reads this
    {
      WellKeyed(blocks) && WellNamed(players)
    }

    ghost function Value(): WorldValue
      reads this
    {
      WorldValue(blocks, players, stats, lastModified)
    }

    /**
     * A manager over a given starting terrain, which the terrain generator
     * produced with `terrainOperations` system placements.
     */
    constructor (now: Time, terrain: map<Key, Block>, terrainOperations: nat)
      requires WellKeyed(terrain)
      ensures Valid()
      ensures blocks == terrain && players == map[] && stats == Stats(0, 0, terrainOperations)
      ensures createdAt == now && lastModified == now
    {
      blocks := terrain;
      players := map[];
      stats := Stats(0, 0, terrainOperations);
      createdAt := now;
      lastModified := now;
    }

    method PlaceBlock(now: Time, position: Position, blockType: int,
                      playerId: Option<string> := None, systemPlaced: bool := false)
      returns (r: Result<bool>)
      requires Valid()
      modifies this
      ensures (Value(), r) == Place(old(Value()), position, blockType, playerId, systemPlaced, now)
      ensures Valid()
    {
      PlaceKeepsWellKeyed(Value(), position, blockType, playerId, systemPlaced, now);
      if !IsValidPosition(position) {
        return Ok(false);
      }
      var key := PositionToKey(position);
      if key in blocks {
        blocks := blocks - {key};
      }
      assert blocks == old(blocks) - {key};
      if blockType > 0 {
        var block := NewBlock(position, blockType, playerId, Some(now));
        if block.ValidationError? {
          return ValidationError(block.field);
        }
        blocks := blocks[key := block.value];
        if !systemPlaced {
          stats := stats.(blocksPlacedToday := stats.blocksPlacedToday + 1);
        }
      } else {
        if !systemPlaced {
          stats := stats.(blocksDestroyedToday := stats.blocksDestroyedToday + 1);
        }
      }
      lastModified := now;
      stats := stats.(totalOperations := stats.totalOperations + 1);
      return Ok(true);
    }

    /** A player's edit: `place_block` attributed to no system placement. */
    method UpdateBlock(now: Time, position: Position, blockType: int, playerId: Option<string> := None)
      returns (r: Result<bool>)
      requires Valid()
      modifies this
      ensures Valid()
      ensures (Value(), r) == Place(old(Value()), position, blockType, playerId, false, now)
    {
      r := PlaceBlock(now, position, blockType, playerId);
    }

    function GetBlockAt(position: Position): (r: Option<Block>)
      reads this
      requires Valid()
      ensures r.None? <==> PositionToKey(position) !in blocks
      ensures r.Some? ==> r.value == blocks[PositionToKey(position)]
      ensures r.Some? ==>
        PositionToKey(r.value.position) == PositionToKey(position) && 0 < r.value.blockType <= MaxBlockType
    {
      var key := PositionToKey(position);
      if key in blocks then Some(blocks[key]) else None
    }

    method GetGroundHeight(x: int, z: int) returns (height: int)
      ensures height == GroundHeight(blocks, x, z)
      ensures 0 <= height <= GroundScanTop
    {
      for y := GroundScanTop + 1 downto 0
        invariant GroundHeight(blocks, x, z) == HighestBlockAt(blocks, x, z, y - 1)
      {
        if Key(x, y, z) in blocks {
          return y;
        }
      }
      return 0;
    }

    /** A system placement at an integral cell, as the tree loops issue it. */
    method PlaceCell(now: Time, cell: Key, blockType: int)
      requires Valid() && 0 < blockType <= MaxBlockType
      modifies this
      ensures Valid() && Value() == PlaceCellValue(old(Value()), cell, blockType, now)
    {
      PlaceAtCell(Value(), cell, blockType, now);
      var _ := PlaceBlock(now, CellPosition(cell), blockType, None, true);
    }

    /** The body of the leaf loops: a leaf at offset (dx, dz, dy) if that offset is in the canopy. */
    method PlaceLeaf(now: Time, x: int, z: int, groundHeight: int, dx: int, dz: int, dy: int,
                     ghost w: WorldValue, ghost n: int)
      requires -2 <= dx <= 2 && -2 <= dz <= 2 && 3 <= dy <= 6
      requires n == (dx + 2) * 20 + (dz + 2) * 4 + (dy - 3)
      requires Valid() && Value() == LeavesValue(w, x, z, groundHeight, n, now)
      modifies this
      ensures Valid() && Value() == LeavesValue(w, x, z, groundHeight, n + 1, now)
    {
      LeavesValueAt(w, x, z, groundHeight, n, dx, dz, dy, now);
      if Abs(dx) + Abs(dz) + Abs(dy - 4) <= 3 {
        if !(dx == 0 && dz == 0 && dy <= 4) {
          PlaceCell(now, Key(x + dx, groundHeight + dy, z + dz), LeafType);
        }
      }
    }

    /**
     * Nothing happens over ground of height 3 or less; otherwise the trunk
     * and then the leaves are placed as TreeValue describes.
     */
    method GenerateTree(now: Time, x: int, z: int)
      requires Valid()
      modifies this
      ensures Valid()
      ensures var g := GroundHeight(old(blocks), x, z);
        Value() == if g <= 3 then old(Value()) else TreeValue(old(Value()), x, z, g, now)
    {
      var groundHeight := GetGroundHeight(x, z);
      if groundHeight > 3 {
        ghost var w0 := Value();
        for y := groundHeight + 1 to groundHeight + 5
          invariant Valid() && Value() == TrunkValue(w0, x, z, groundHeight, y, now)
        {
          PlaceCell(now, Key(x, y, z), WoodType);
        }
        PlaceLeaves(now, x, z, groundHeight);
      }
    }

    /** The leaf loops of `generate_tree`, over every offset of the canopy's bounding box. */
    method PlaceLeaves(now: Time, x: int, z: int, groundHeight: int)
      requires Valid()
      modifies this
      ensures Valid() && Value() == LeavesValue(old(Value()), x, z, groundHeight, 100, now)
    {
      ghost var w := Value();
      for dx := -2 to 3
        invariant Valid() && Value() == LeavesValue(w, x, z, groundHeight, (dx + 2) * 20, now)
      {
        PlaceLeafSlice(now, x, z, groundHeight, dx, w);
      }
    }

    /** One value of `dx` in the leaf loops: the inner loops over `dz` and `dy`. */
    method PlaceLeafSlice(now: Time, x: int, z: int, groundHeight: int, dx: int, ghost w: WorldValue)
      requires -2 <= dx <= 2
      requires Valid() && Value() == LeavesValue(w, x, z, groundHeight, (dx + 2) * 20, now)
      modifies this
      ensures Valid() && Value() == LeavesValue(w, x, z, groundHeight, (dx + 3) * 20, now)
    {
      ghost var n := (dx + 2) * 20;
      for dz := -2 to 3
        invariant n == (dx + 2) * 20 + (dz + 2) * 4
        invariant Valid() && Value() == LeavesValue(w, x, z, groundHeight, n, now)
      {
        for dy := 3 to 7
          invariant n == (dx + 2) * 20 + (dz + 2) * 4 + (dy - 3)
          invariant Valid() && Value() == LeavesValue(w, x, z, groundHeight, n, now)
        {
          PlaceLeaf(now, x, z, groundHeight, dx, dz, dy, w, n);
          n := n + 1;
        }
      }
    }

    method UpdatePlayer(now: Time, playerId: string, position: Position, rotation: Position)
      requires Valid()
      modifies this
      ensures Valid()
      ensures players == UpsertPlayer(old(players), playerId, position, rotation, now)
      ensures blocks == old(blocks) && stats == old(stats) && lastModified == old(lastModified)
    {
      if playerId in players {
        var player := players[playerId];
        players := players[playerId := player.(position := position, rotation := rotation, lastActive := now)];
      } else {
        players := players[playerId := Player(playerId, position, rotation, now, now)];
      }
    }

    method RemovePlayer(playerId: string)
      requires Valid()
      modifies this
      ensures Valid()
      ensures players == old(players) - {playerId}
      ensures blocks == old(blocks) && stats == old(stats) && lastModified == old(lastModified)
    {
      if playerId in players {
        players := players - {playerId};
      }
    }

    method GetWorldState() returns (ws: WorldState)
      requires Valid()
      ensures SnapshotOf(ws, blocks, players, createdAt, lastModified)
    {
      var keys, blockList := ListEntries(blocks);
      var ids, playerList := ListEntries(players);
      BlockListing(blocks, keys, blockList);
      PlayerListing(players, ids, playerList);
      ws := NewWorldState(createdAt, lastModified).(blocks := blockList, players := playerList);
    }

    function GetUptime(now: Time): int
      reads this
    {
      now - createdAt
    }

    function GetStats(now: Time): (r: StatsReport)
      reads this
      ensures r.totalBlocks == |blocks| && r.activePlayers == |players|
      ensures r.blocksPlacedToday == stats.blocksPlacedToday
        && r.blocksDestroyedToday == stats.blocksDestroyedToday
        && r.totalOperations == stats.totalOperations
      ensures r.uptimeSeconds == now - createdAt
    {
      StatsReport(stats.blocksPlacedToday, stats.blocksDestroyedToday, stats.totalOperations,
                  |blocks|, |players|, GetUptime(now))
    }
  }
}
