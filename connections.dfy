/**
 * The registry of open websockets (app/services/connection_manager.py).
 *
 * Sending on a socket is an oracle: `failing` is the set of players whose
 * socket raises when written to during the call.  A broadcast tries every
 * connection once, remembers the ones that failed, and drops exactly
 * those afterwards.
 */
module Connections {
  import opened Models
  import opened Collections
  import opened Protocol

  /** An accepted websocket, known by an opaque handle. */
  datatype Socket = Socket(handle: nat)

  /** The players a broadcast delivers to: all connected ones but the excluded one and the failing ones. */
  function Reached(conns: map<string, Socket>, exclude: Option<string>, failing: set<string>): (r: set<string>)
    ensures r <= conns.Keys && r !! failing
    ensures exclude.Some? ==> exclude.value !in r
  {
    set p | p in conns && Some(p) != exclude && p !in failing
  }

  /** The connections left after a broadcast: the failing ones it tried are dropped. */
  function Survivors(conns: map<string, Socket>, exclude: Option<string>, failing: set<string>): (r: map<string, Socket>)
    ensures r.Keys <= conns.Keys
    ensures forall p :: p in r ==> r[p] == conns[p]
    ensures exclude.Some? && exclude.value in conns ==> exclude.value in r
  {
    map p | p in conns && (p !in failing || Some(p) == exclude) :: conns[p]
  }

  /**
   * Every connection a broadcast tries is either delivered to or dropped,
   * never both; the excluded player is neither tried nor dropped; and with
   * nothing failing, nothing is dropped.
   */
  lemma BroadcastPartition(conns: map<string, Socket>, exclude: Option<string>, failing: set<string>)
    ensures var reached := Reached(conns, exclude, failing);
      var dropped := conns.Keys - Survivors(conns, exclude, failing).Keys;
      && reached !! dropped
      && reached + dropped == conns.Keys - (if exclude.Some? then {exclude.value} else {})
      && dropped == (conns.Keys * failing) - (if exclude.Some? then {exclude.value} else {})
    ensures failing == {} ==> Survivors(conns, exclude, failing) == conns
  {
    var reached := Reached(conns, exclude, failing);
    var survivors := Survivors(conns, exclude, failing);
    var dropped := conns.Keys - survivors.Keys;
    var excluded: set<string> := if exclude.Some? then {exclude.value} else {};
    assert reached + dropped == conns.Keys - excluded by {
      forall p | p in conns.Keys - excluded ensures p in reached + dropped {
        if p !in failing { assert p in reached; } else { assert p !in survivors; }
      }
    }
    if failing == {} {
      assert survivors.Keys == conns.Keys;
    }
  }

  /** With no exclusion, a broadcast reaches the survivors of the same broadcast, and no one else. */
  lemma ReachedAreSurvivors(conns: map<string, Socket>, failing: set<string>)
    ensures Reached(conns, None, failing) == Survivors(conns, None, failing).Keys
  {
    var r := Reached(conns, None, failing);
    var s := Survivors(conns, None, failing);
    forall p | p in s ensures p in r {
      assert p in conns && p !in failing;
    }
  }

  /** Dropping two sets of keys one after the other drops their union. */
  lemma DropTwice<K, V>(m: map<K, V>, a: set<K>, b: set<K>)
    ensures m - a - b == m - (a + b)
  {
    assert (m - a - b).Keys == (m - (a + b)).Keys;
  }

  /**
   * The send loop of `send_to_all`: each connection but the excluded one
   * is tried once, in some order; the ones whose send works are
   * `delivered`, the others are collected in `disconnected`.
   */
  method TrySends(conns: map<string, Socket>, failing: set<string>, exclude: Option<string>)
    returns (ghost attempts: seq<string>, delivered: set<string>, disconnected: seq<string>)
    ensures NoDuplicates(attempts)
    ensures forall p :: p in attempts <==> p in conns && Some(p) != exclude
    ensures delivered == Reached(conns, exclude, failing)
    ensures forall p :: p in disconnected <==> p in conns && Some(p) != exclude && p in failing
  {
    attempts, delivered, disconnected := [], {}, [];
    var pending := conns.Keys;
    while pending != {}
      invariant pending <= conns.Keys
      invariant NoDuplicates(attempts)
      invariant forall p :: p in attempts <==> p in conns && p !in pending && Some(p) != exclude
      invariant forall p :: p in delivered <==> p in attempts && p !in failing
      invariant forall p :: p in disconnected <==> p in attempts && p in failing
      decreases |pending|
    {
      var playerId :| playerId in pending;
      pending := pending - {playerId};
      if Some(playerId) == exclude {
        continue;
      }
      attempts := attempts + [playerId];
      if playerId in failing {
        disconnected := disconnected + [playerId];
      } else {
        delivered := delivered + {playerId};
      }
    }
  }

  class ConnectionManager {
    var activeConnections: map<string, Socket>
    /** Player id to connection id; the connection id is the player id. */
    var playerConnections: map<string, string>

    ghost predicate Valid()
      reads this
    {
      && playerConnections.Keys == activeConnections.Keys
      && forall p :: p in playerConnections ==> playerConnections[p] == p
    }

    constructor ()
      ensures Valid() && activeConnections == map[] && playerConnections == map[]
    {
      activeConnections := map[];
      playerConnections := map[];
    }

    /** Registers an accepted socket; a second connection under the same id replaces the first. */
    method Connect(socket: Socket, playerId: string)
      requires Valid()
      modifies this
      ensures Valid()
      ensures activeConnections == old(activeConnections)[playerId := socket]
      ensures playerConnections == old(playerConnections)[playerId := playerId]
    {
      activeConnections := activeConnections[playerId := socket];
      playerConnections := playerConnections[playerId := playerId];
    }

    /** Forgets the player; nothing happens for an id that is not registered. */
    method Disconnect(playerId: string)
      requires Valid()
      modifies this
      ensures Valid()
      ensures activeConnections == old(activeConnections) - {playerId}
      ensures playerConnections == old(playerConnections) - {playerId}
    {
      if playerId in activeConnections {
        activeConnections := activeConnections - {playerId};
      }
      if playerId in playerConnections {
        playerConnections := playerConnections - {playerId};
      }
    }

    /**
     * A message to one player: delivered if the player is connected and
     * the send works; a failed send disconnects that player alone.
     */
    method SendPersonalMessage(failing: set<string>, message: ServerMessage, playerId: string)
      returns (sent: Outbound)
      requires Valid()
      modifies this
      ensures Valid()
      ensures sent == Outbound(message, Reached(old(activeConnections), None, failing) * {playerId})
      ensures activeConnections == old(activeConnections) - (failing * {playerId})
      ensures playerConnections == old(playerConnections) - (failing * {playerId})
    {
      sent := Outbound(message, {});
      if playerId in activeConnections {
        if playerId in failing {
          Disconnect(playerId);
        } else {
          sent := Outbound(message, {playerId});
        }
      }
    }

    /** Drops each listed player in turn. */
    method DisconnectAll(players: seq<string>)
      requires Valid()
      modifies this
      ensures Valid()
      ensures activeConnections == old(activeConnections) - (set i | 0 <= i < |players| :: players[i])
      ensures playerConnections == old(playerConnections) - (set i | 0 <= i < |players| :: players[i])
    {
      for i := 0 to |players|
        invariant Valid()
        invariant activeConnections == old(activeConnections) - (set j | 0 <= j < i :: players[j])
        invariant playerConnections == old(playerConnections) - (set j | 0 <= j < i :: players[j])
      {
        Disconnect(players[i]);
        assert (set j | 0 <= j < i + 1 :: players[j]) == (set j | 0 <= j < i :: players[j]) + {players[i]};
      }
    }

    /**
     * Sends to every connection except `exclude`, each tried once, then
     * disconnects exactly those whose send failed.  `attempts` is the order
     * the connections were tried in.
     */
    method SendToAll(failing: set<string>, message: ServerMessage, exclude: Option<string>)
      returns (ghost attempts: seq<string>, sent: Outbound)
      requires Valid()
      modifies this
      ensures Valid()
      ensures NoDuplicates(attempts)
      ensures forall p :: p in attempts <==> p in old(activeConnections) && Some(p) != exclude
      ensures sent == Outbound(message, Reached(old(activeConnections), exclude, failing))
      ensures activeConnections == Survivors(old(activeConnections), exclude, failing)
      ensures playerConnections.Keys == activeConnections.Keys
    {
      attempts := [];
      sent := Outbound(message, {});
      if activeConnections == map[] {
        return;
      }
      var delivered, disconnectedPlayers;
      attempts, delivered, disconnectedPlayers := TrySends(activeConnections, failing, exclude);
      sent := Outbound(message, delivered);
      ghost var before := activeConnections;
      DisconnectAll(disconnectedPlayers);
      assert activeConnections == Survivors(before, exclude, failing);
    }

    /** `broadcast`: every connection is tried; those that fail are disconnected. */
    method Broadcast(failing: set<string>, message: ServerMessage) returns (sent: Outbound)
      requires Valid()
      modifies this
      ensures Valid()
      ensures sent == Outbound(message, old(activeConnections).Keys - failing)
      ensures activeConnections == old(activeConnections) - failing
      ensures playerConnections == old(playerConnections) - failing
    {
      ghost var attempts;
      attempts, sent := SendToAll(failing, message, None);
    }

    /** `broadcast_to_others`: the excluded player is neither sent to nor disconnected. */
    method BroadcastToOthers(failing: set<string>, message: ServerMessage, excludePlayerId: string)
      returns (sent: Outbound)
      requires Valid()
      modifies this
      ensures Valid()
      ensures sent == Outbound(message, old(activeConnections).Keys - {excludePlayerId} - failing)
      ensures activeConnections == old(activeConnections) - (failing - {excludePlayerId})
      ensures playerConnections == old(playerConnections) - (failing - {excludePlayerId})
    {
      ghost var attempts;
      attempts, sent := SendToAll(failing, message, Some(excludePlayerId));
    }

    /** `broadcast_to_area` ignores the centre and radius and is a plain broadcast. */
    method BroadcastToArea(failing: set<string>, message: ServerMessage, centerX: real, centerZ: real,
                           radius: real := 50.0)
      returns (sent: Outbound)
      requires Valid()
      modifies this
      ensures Valid()
      ensures sent == Outbound(message, old(activeConnections).Keys - failing)
      ensures activeConnections == old(activeConnections) - failing
      ensures playerConnections == old(playerConnections) - failing
    {
      sent := Broadcast(failing, message);
    }

    /** The connected players, each once, in an order left open. */
    method GetConnectedPlayers() returns (players: seq<string>)
      ensures NoDuplicates(players)
      ensures forall p :: p in players <==> p in activeConnections
      ensures |players| == |activeConnections|
    {
      var sockets;
      players, sockets := ListEntries(activeConnections);
    }

    function GetConnectionCount(): (count: nat)
      reads this
      requires Valid()
      ensures count == |activeConnections.Keys| == |playerConnections.Keys|
    {
      |activeConnections|
    }

    /**
     * One broadcast of a ping stamped `now`.  With no connections it returns
     * before sending, which, as for every broadcast, leaves the recipients empty.
     */
    method PingAll(failing: set<string>, now: Time) returns (sent: Outbound)
      requires Valid()
      modifies this
      ensures Valid()
      ensures sent == Outbound(Ping(now), old(activeConnections).Keys - failing)
      ensures old(activeConnections) == map[] ==> sent.recipients == {}
      ensures activeConnections == old(activeConnections) - failing
      ensures playerConnections == old(playerConnections) - failing
    {
      sent := Outbound(Ping(now), {});
      if activeConnections == map[] {
        return;
      }
      sent := Broadcast(failing, Ping(now));
    }
  }
}
