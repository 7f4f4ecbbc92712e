# go-game world state, modelled in Dafny

The go-game server keeps one shared world for a small multiplayer
platformer. That world holds players, coins, platforms and a registry of
WebSocket connections. Clients join over a WebSocket with an `id` query
parameter and stream self-reported player state. After every change, and
every 100 ms, the server broadcasts the whole world to every registered
connection. All of this sits in `main.go`.

This project models the sequential logic inside that server as pure
functions over an immutable `World` record:

- `Model`: the `Player`, `Coin`, `Platform` and `World` records, the
  800 × 600 screen and the five-colour palette.
- `Platforms`: the self-heal pass, which resets an all-zero rectangle to
  the ground rectangle `(0, 550, 800, 50)`. It is given as a reference
  function and as the in-place loop the server runs.
- `Coins`: the start-up placement of ten coins. Each identifier is
  `"coin" + %d`. Coin `i` sits at `x = 50 + 70·i`, is active, and has a
  height `300 + 100·j − 50`, where `j` is a uniform draw from [0, 1).
- `Transitions`: one function per critical section of the server. These
  are joining (`Connect`), a client update (`ApplyUpdate`), leaving
  (`Disconnect`) and the broadcast pass (`Broadcast`). The module also
  holds the invariant that the registry and the player map have the same
  keys.
- `Server`: the server as a trace of critical sections, one event per
  acquisition of the game lock. These are a join, an applied update, a
  departure's cleanup and a broadcast. A handler's change and the broadcast
  it then triggers take the lock separately, so they are separate events.
  The timer's broadcast is the same event. Lemmas cover whole traces, one
  connection's lifecycle, what a broadcast shows when it runs right after
  its change, what it shows when another section slips in between,
  identifier reuse, and a join–update–leave scenario.

Some behaviour of the code is easy to misread. The model follows the code
exactly on these points:

- A handler releases the lock before it broadcasts. Another join, update,
  departure or timer tick can run in between, and the broadcast shows the
  world as it is when the broadcast itself runs.
- A score is any integer: nothing checks that it is non-negative.
- A broadcast follows every message that decodes, even when the sender's
  player is already gone. It is not limited to updates that were applied.
- A join with an empty identifier returns before the cleanup is deferred.
  So a refused connection never leaves and never triggers a broadcast.

Randomness becomes parameters. These are the colour draw, an index below 5,
and the ten coin-height draws, each in [0, 1). A connection handle is an
opaque `Handle` token. A decoded client message is a full `Player` record,
because absent JSON fields decode as zero.

## Model

| member | source | states |
|---|---|---|
| Model.RandomColor | main.go:216-220 | a colour draw always yields one of red, blue, green, purple, orange |
| Platforms.Ground | main.go:95 | the ground rectangle spans the full screen width from x = 0, rests on the bottom edge with positive height, and is not itself all-zero, so a healed rectangle is never healed again |
| Platforms.HealPlatforms | main.go:92-97 | the heal keeps the length, replaces every all-zero rectangle with the ground rectangle, keeps every other rectangle in place, and leaves no all-zero rectangle |
| Platforms.HealInPlace | main.go:93-97 | the index-by-index in-place loop produces exactly the healed sequence |
| Platforms.HealIdempotent | main.go:93-97 | healing an already healed sequence changes nothing |
| Platforms.HealHealthyIsIdentity | main.go:93-97 | a sequence with no all-zero rectangle is left untouched |
| Platforms.HealedFromDeterminesResult | main.go:93-97 | the healing rule determines the result uniquely |
| Coins.Decimal | main.go:78-79 | a `%d` rendering is a non-empty string of decimal digits, one digit exactly for numbers below ten, with no leading zero |
| Coins.CoinId | main.go:78-79 | a coin identifier is "coin" followed by one or more decimal digits, and has a single digit exactly for the first ten indices |
| Coins.DecimalInjective | main.go:78-79 | different indices print differently |
| Coins.CoinIdInjective | main.go:78-79 | different coin indices get different identifiers, so no coin overwrites another |
| Coins.CoinY | main.go:81 | in exact arithmetic, a coin's height lies in [screenHeight/2 − 50, screenHeight/2 + 50) for any draw in [0, 1) |
| Coins.MakeCoin | main.go:78-83 | iteration i builds an active coin carrying identifier i at x = 50 + 70·i, with a height in the exact-arithmetic band |
| Coins.CoinsUpTo | main.go:77-84 | every coin the placement loop stores is active and records the key it is stored under |
| Coins.CoinsUpToKeys | main.go:77-84 | after n iterations of the placement loop the keys are exactly coin0 … coin(n−1) |
| Coins.CoinsUpToSize | main.go:77-84 | after n iterations the map holds exactly n coins |
| Coins.CoinsUpToValues | main.go:77-84 | after n iterations coin i is the coin built by iteration i |
| Coins.InitCoins | main.go:75-85 | start-up yields exactly ten coins; coin i carries its own identifier, has x = 50 + 70·i, a height in the band, and is active |
| Coins.CoinIdsSpelled | main.go:78-79 | the ten identifiers are "coin0" through "coin9" |
| Coins.InitCoinIds | main.go:77-84 | the coin map's keys are exactly "coin0" … "coin9" and each coin records the key it is stored under |
| Transitions.Spawn | main.go:136-144 | a new player carries its identifier and the drawn colour, is at rest, not jumping, with score 0, horizontally over the ground rectangle and above its top edge |
| Transitions.Connect | main.go:128-146 | an empty identifier leaves the world unchanged; otherwise the player under the identifier is the spawn (x 50, y screenHeight−70, at rest, not jumping, score 0, palette colour), the connection is registered under it, an earlier entry is overwritten, and nothing else changes |
| Transitions.ApplyUpdate | main.go:174-186 | an absent player means no change; the (0,0) sentinel keeps the old position, any other position (one zero coordinate included) is copied; velocity, jumping flag and score are always copied; the player's identifier and colour, the registry, other players, coins and platforms never change |
| Transitions.Disconnect | main.go:151-155 | exactly the identifier is removed from both the players and the registry; every other entry, coin and platform is kept |
| Transitions.Heal | main.go:92-97 | the heal touches platforms only and leaves none all-zero |
| Transitions.Broadcast | main.go:88-117 | one broadcast heals the platforms, snapshots the current players and coins with the healed platforms, and addresses every connection in the registry |
| Transitions.ConnectPreservesWellFormed | main.go:135-146 | joining keeps the registry and the player map on the same keys, every player stored under its own identifier with a palette colour |
| Transitions.ApplyUpdatePreservesWellFormed | main.go:174-186 | an update keeps that invariant, whatever identifier or colour the message carries |
| Transitions.DisconnectPreservesWellFormed | main.go:151-155 | leaving keeps that invariant |
| Transitions.BroadcastPreservesWellFormed | main.go:88-97 | the broadcast pass keeps that invariant |
| Transitions.UpdateIgnoresIdAndColor | main.go:168-185 | the `id` and `color` fields of a client message have no effect on the world |
| Transitions.ConnectThenDisconnect | main.go:135-155 | joining and then leaving ends where leaving alone would: nothing of the short-lived player remains |
| Server.Step | main.go:88-189 | a join, an update or a departure sends nothing and leaves the platforms alone; a broadcast changes no player or connection, heals the platforms, and sends one frame holding the players and coins as they are when it runs, addressed to the registry as it is then; coins never change, and healthy platforms stay as they are |
| Server.StepPreservesWellFormed | main.go:88-189 | every critical section, whichever handler or the timer runs it, keeps the registry and player-map keys equal, each player under its own identifier with a palette colour |
| Server.Run | main.go:88-189 | a trace sends one frame per broadcast it contains, every frame is free of all-zero platforms, and coins stay fixed |
| Server.RunPreservesWellFormed | main.go:88-189 | every interleaving of joins, updates, departures and broadcasts keeps the registry and player-map keys equal |
| Server.RunKeepsHealthyPlatforms | main.go:92-97 | once no platform is all-zero, no trace changes the platforms |
| Server.MessageEvents | main.go:161-189 | a connection's messages run exactly two critical sections per decoded message and none for one that does not decode: an update of its own player carrying the k-th decoded payload, then a broadcast |
| Server.MessageEventsOwnUpdates | main.go:174-189 | a connection's messages only ever update the player under its own identifier or broadcast |
| Server.SessionEvents | main.go:128-190 | an empty identifier runs no critical section; otherwise the session is a join and a broadcast, then an update and a broadcast per decoded message in order, then the departure and a final broadcast, 4 + 2·(decoded messages) events in all |
| Server.MessagesTouchOnlyOwnPlayer | main.go:161-189 | while its player exists, a connection's messages change only that player, never remove it, leave the registry alone, and broadcast once per decoded message |
| Server.SessionAlone | main.go:128-189 | one connection's life with nothing interleaved: a refused join runs no critical section; an accepted one ends with its identifier gone, every other player, connection, coin and platform as before, and 2 + (decoded messages) broadcasts |
| Server.JoinThenPublish | main.go:135-149 | a join whose broadcast runs next sends one frame to every registered connection, the newcomer's included, showing every other player unchanged and the newcomer at its spawn; the broadcast changes nothing further once platforms are healthy |
| Server.UpdateThenPublish | main.go:174-189 | an update whose broadcast runs next sends one frame to every registered connection, showing every other player unchanged and this player at the new position (the old one for the (0,0) sentinel), with velocity, jumping flag and score exactly as sent and the stored identifier and colour |
| Server.LeaveThenPublish | main.go:151-158 | a departure whose broadcast runs next sends one frame to every remaining connection and no other, showing every remaining player and not the departed one |
| Server.RacingJoinsShowLatestSpawn | main.go:135-149 | when a second join under the same identifier runs before the first join's broadcast, that broadcast shows the second spawn and goes to the second connection |
| Server.RejoinBeforeLeaveBroadcast | main.go:135-158 | when a new join under the departed identifier runs before the departure's broadcast, that broadcast reaches the newcomer's connection and shows the newcomer's spawn |
| Server.IdentifierReuseEvictsSecondSession | main.go:135-155 | a second join under the same identifier replaces the first handle in the registry; when the first connection closes, the identifier is removed outright, so the still-open second connection is no longer addressed and its next update changes nothing |
| Server.InitialPlatformsNeverHealed | main.go:60-64 | the three starting platforms include no all-zero rectangle, so the heal never changes them, and the first is the same rectangle the heal writes |
| Server.InitialWorld | main.go:57-85 | the starting world has no players or connections, ten coins, no all-zero platform, and is well formed |
| Server.Reachable | main.go:57-85 | from the starting world every trace stays well formed and keeps the initial coins and the three platforms |
| Server.JoinUpdateLeaveScenario | main.go:128-189 | from a world with no players, a client that joins with the first colour draw, sends x 120, y 480, score 5, and leaves, each change broadcast before anything else runs, is shown at (50, 530) in red, then at (120, 480) with score 5, then not at all, and the world ends with no players |

## Left out

- WebSocket upgrade, reads, writes and closes (main.go:122-126, 156, 162-166, 113-117) are I/O. A broadcast is modelled as the frame plus the registry it is addressed to.
- JSON decoding and encoding (main.go:168-172, 99-111) are left out. A message either decodes to a `Player` record or is `Malformed`.
- Transitions.Broadcast: does not model the encode-failure early return at main.go:108-111. That return needs a non-finite float, which `real` cannot represent.
- Per-connection send failures are left out: they are only logged and change no state.
- The mutex, the goroutines and the 100 ms timer loop (main.go:228-233) are concurrency. Each locked section is one atomic event. A trace is any order of them, and the scheduler that picks the order is not modelled. A timer tick is a broadcast event.
- Seeding `rand` and `time` is left out. The colour draw and the coin-height draws are parameters with their range as a precondition.
- `handleGameState` (main.go:194-214), the static file server and `main` are HTTP plumbing and process start-up, not world-state transitions.
- Coins.CoinY: the band is proved half-open, [250, 350), in exact arithmetic. The server computes the height in float64, and `300 + f·100 − 50` rounds to exactly 350 for draws just below 1 (for example f = 1 − 2⁻⁵³). So the server's band is the closed [250, 350], and the model does not promise that a coin stays below 350 in the server.
- Coins.MakeCoin: the height band in its contract is the exact-arithmetic band of Coins.CoinY. In float64 the upper end 350 is reachable, so the model does not promise that the coin built by one iteration stays below 350 in the server.
- Coins.InitCoins: the height band it states is the exact-arithmetic band of Coins.CoinY, with the same float64 caveat at the upper end.
- Coordinates are `real`, so float64 rounding is not modelled. Apart from the coin heights above, the server only copies coordinates and compares them with zero.
- Score width: the score is an unbounded integer. The Go `int` is at most 64-bit, but a JSON number outside that range fails to decode, so it reaches the model as `Malformed`.
- Logging is left out everywhere.
