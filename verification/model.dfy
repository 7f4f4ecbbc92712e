/** The game's data model: players, coins, platforms, connection handles and
    the single shared world that aggregates them, together with the fixed
    screen dimensions and the colour palette. */
module Model {

  /** Fixed world dimensions; not configurable at runtime. */
  const ScreenWidth: int := 800
  const ScreenHeight: int := 600

  /** A connected client's character. Coordinates and velocity are float64
      in the server; they are only copied and compared with zero, so `real`
      stands in for them. */
  datatype Player = Player(
    id: string,
    x: real,
    y: real,
    velocityY: real,
    isJumping: bool,
    score: int,
    color: string)

  /** A collectible placed once when the process starts. */
  datatype Coin = Coin(id: string, x: real, y: real, active: bool)

  /** An axis-aligned static rectangle. */
  datatype Platform = Platform(x: real, y: real, width: real, height: real)

  /** An opaque stand-in for a live WebSocket connection. */
  datatype Handle = Handle(token: nat)

  /** The one authoritative game state: all four containers are guarded by
      the same lock in the server, so every transition below is atomic. */
  datatype World = World(
    players: map<string, Player>,
    coins: map<string, Coin>,
    platforms: seq<Platform>,
    connections: map<string, Handle>)

  /** The five colours a new player can be given. */
  const Palette: seq<string> := ["red", "blue", "green", "purple", "orange"]

  /** The colour picked by a random draw `k` in [0, 5); the draw itself is a
      parameter because randomness is not modelled. */
  function RandomColor(k: nat): (c: string)
    requires k < |Palette|
    ensures c in Palette
  {
    Palette[k]
  }
}
