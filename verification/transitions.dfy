/** The world-state transitions performed under the game lock: a player
    joining, a player's self-reported update, a player leaving, and the
    broadcast pass that heals platforms and takes the snapshot sent to every
    registered connection. `Connect`, `ApplyUpdate`, `Disconnect` and
    `Broadcast` are each one critical section; `Heal` is the first part of
    `Broadcast`. */
module Transitions {
  import opened Model
  import opened Platforms

  /** The fresh character a joining client gets: standing on the ground at
      x = 50, at rest, with no score, in the given colour. */
  function Spawn(id: string, color: string): (p: Player)
    ensures p.id == id && p.color == color
    ensures p.velocityY == 0.0 && !p.isJumping && p.score == 0
    ensures Ground().x <= p.x < Ground().x + Ground().width
    ensures 0.0 <= p.y < Ground().y
  {
    Player(id, 50.0, (ScreenHeight - 70) as real, 0.0, false, 0, color)
  }

  /** Every player has a registered connection and every connection a
      player. */
  predicate Registered(w: World) {
    w.players.Keys == w.connections.Keys
  }

  /** The invariants every reachable world keeps: the registry and the
      player map agree on their keys, every player is stored under its own
      identifier, and every player's colour is from the palette. */
  predicate WellFormed(w: World) {
    && Registered(w)
    && (forall k :: k in w.players ==> w.players[k].id == k && w.players[k].color in Palette)
  }

  /** Apart from the entry for `id`, `r` holds the same players and
      connections as `w`, and the same coins and platforms. */
  predicate OthersUnchanged(w: World, r: World, id: string) {
    && r.players - {id} == w.players - {id}
    && r.connections - {id} == w.connections - {id}
    && r.coins == w.coins
    && r.platforms == w.platforms
  }

  /** A client asks to join under `id`; `colorIdx` is the random palette
      draw. An empty identifier is refused and changes nothing. Otherwise a
      spawned player and the connection are stored under `id`, replacing
      whatever an earlier connection with the same identifier left there. */
  function Connect(w: World, id: string, colorIdx: nat, h: Handle): (r: World)
    requires colorIdx < |Palette|
    ensures id == "" ==> r == w
    ensures id != "" ==>
      && id in r.players && id in r.connections
      && r.players[id].id == id
      && r.players[id].x == 50.0
      && r.players[id].y == (ScreenHeight - 70) as real
      && r.players[id].velocityY == 0.0
      && !r.players[id].isJumping
      && r.players[id].score == 0
      && r.players[id].color == Palette[colorIdx]
      && r.connections[id] == h
      && r.players.Keys == w.players.Keys + {id}
      && r.connections.Keys == w.connections.Keys + {id}
    ensures OthersUnchanged(w, r, id)
  {
    if id == "" then w
    else
      w.(players := w.players[id := Spawn(id, RandomColor(colorIdx))],
         connections := w.connections[id := h])
  }

  /** True when a decoded update carries the (0, 0) position, which stands
      for "no position supplied". */
  predicate IsSentinel(u: Player) {
    u.x == 0.0 && u.y == 0.0
  }

  /** The update `u` decoded from the connection registered as `id`. The
      update's own `id` and `color` fields are never consulted. If no
      player is stored under `id` nothing happens. Otherwise the position
      is taken from `u` unless `u` carries the sentinel, and velocity,
      jumping flag and score are always taken from `u`. */
  function ApplyUpdate(w: World, id: string, u: Player): (r: World)
    ensures id !in w.players ==> r == w
    ensures id in w.players ==>
      && id in r.players
      && (IsSentinel(u) ==> r.players[id].x == w.players[id].x && r.players[id].y == w.players[id].y)
      && (!IsSentinel(u) ==> r.players[id].x == u.x && r.players[id].y == u.y)
      && r.players[id].velocityY == u.velocityY
      && r.players[id].isJumping == u.isJumping
      && r.players[id].score == u.score
      && r.players[id].id == w.players[id].id
      && r.players[id].color == w.players[id].color
    ensures r.players.Keys == w.players.Keys
    ensures r.connections == w.connections
    ensures OthersUnchanged(w, r, id)
  {
    if id !in w.players then w
    else
      var p := w.players[id];
      var pos := if IsSentinel(u) then (p.x, p.y) else (u.x, u.y);
      w.(players := w.players[id := p.(x := pos.0, y := pos.1, velocityY := u.velocityY,
                                       isJumping := u.isJumping, score := u.score)])
  }

  /** The connection registered as `id` has gone: its player and its
      registry entry are both dropped. */
  function Disconnect(w: World, id: string): (r: World)
    ensures id !in r.players && id !in r.connections
    ensures r.players.Keys == w.players.Keys - {id}
    ensures r.connections.Keys == w.connections.Keys - {id}
    ensures OthersUnchanged(w, r, id)
  {
    w.(players := w.players - {id}, connections := w.connections - {id})
  }

  /** The platform self-heal run at the start of every broadcast. */
  function Heal(w: World): (r: World)
    ensures HealedFrom(w.platforms, r.platforms) && Healthy(r.platforms)
    ensures r.players == w.players && r.connections == w.connections && r.coins == w.coins
  {
    w.(platforms := HealPlatforms(w.platforms))
  }

  /** The message every recipient of one broadcast gets. */
  datatype Frame = Frame(players: map<string, Player>, coins: map<string, Coin>, platforms: seq<Platform>)

  /** One broadcast: the world after the heal, the frame serialised from it,
      and the registry entries it is written to. */
  datatype Delivery = Delivery(world: World, frame: Frame, recipients: map<string, Handle>)

  /** A broadcast pass: heal the platforms, snapshot players, coins and
      platforms, and address the snapshot to every registered connection.
      Write failures are only logged, so they do not appear here. */
  function Broadcast(w: World): (d: Delivery)
    ensures HealedFrom(w.platforms, d.world.platforms)
    ensures d.world.players == w.players && d.world.coins == w.coins
    ensures d.world.connections == w.connections
    ensures d.frame.players == w.players && d.frame.coins == w.coins
    ensures d.frame.platforms == d.world.platforms && Healthy(d.frame.platforms)
    ensures d.recipients == w.connections
  {
    var healed := Heal(w);
    Delivery(healed, Frame(healed.players, healed.coins, healed.platforms), healed.connections)
  }

  /** Joining keeps the world well formed. */
  lemma ConnectPreservesWellFormed(w: World, id: string, colorIdx: nat, h: Handle)
    requires colorIdx < |Palette| && WellFormed(w)
    ensures WellFormed(Connect(w, id, colorIdx, h))
  {
  }

  /** An update keeps the world well formed, whatever identifier or colour
      the update itself carries. */
  lemma ApplyUpdatePreservesWellFormed(w: World, id: string, u: Player)
    requires WellFormed(w)
    ensures WellFormed(ApplyUpdate(w, id, u))
  {
  }

  /** Leaving keeps the world well formed. */
  lemma DisconnectPreservesWellFormed(w: World, id: string)
    requires WellFormed(w)
    ensures WellFormed(Disconnect(w, id))
  {
  }

  /** Broadcasting keeps the world well formed. */
  lemma BroadcastPreservesWellFormed(w: World)
    requires WellFormed(w)
    ensures WellFormed(Broadcast(w).world)
  {
  }

  /** The identifier and colour fields of a decoded update have no effect:
      two updates that differ only there lead to the same world. */
  lemma UpdateIgnoresIdAndColor(w: World, id: string, u: Player, v: Player)
    requires u.x == v.x && u.y == v.y && u.velocityY == v.velocityY
    requires u.isJumping == v.isJumping && u.score == v.score
    ensures ApplyUpdate(w, id, u) == ApplyUpdate(w, id, v)
  {
  }

  /** Joining and then leaving under the same identifier ends in the same
      world as leaving alone: nothing of the short-lived player remains. */
  lemma ConnectThenDisconnect(w: World, id: string, colorIdx: nat, h: Handle)
    requires colorIdx < |Palette|
    ensures Disconnect(Connect(w, id, colorIdx, h), id) == Disconnect(w, id)
  {
  }
}
