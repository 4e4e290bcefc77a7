/** The game's configuration constants and its three kinds of records: the
    player, an enemy, and the state of the five keys the game reads. */
module Entities {
  import opened Geometry

  // CONFIG (the unused `segmentWidth` is left out)
  const Gravity: real := 0.6
  const JumpForce: real := 12.0
  const DoubleJumpForce: real := 10.0
  const MoveSpeed: real := 4.0
  const CrawlSpeed: real := 2.0
  const DashSpeed: real := 10.0
  const DashTime: int := 12
  const GroundY: real := 420.0

  /** Player width and height; the height never changes (the small height
      is used only when drawing). */
  const PlayerSize: real := 40.0
  /** The camera trails the player by this much. */
  const CameraLead: real := 150.0
  /** Respawn point: this far right of the camera, at this height. */
  const RespawnOffset: real := 100.0
  const RespawnY: real := 300.0
  const StompBounce: real := -6.0
  const StompReward: int := 100
  const MaxJumps: int := 2

  datatype Player = Player(
    x: real, y: real, w: real, h: real,
    vx: real, vy: real,
    onGround: bool,
    jumpsLeft: int,
    isSmall: bool,
    dashTimer: int,
    lives: int,
    score: int)
  {
    function Box(): Rect { Rect(x, y, w, h) }
  }

  /** An enemy: a rectangle that moves left by `speed` every frame. */
  datatype Enemy = Enemy(x: real, y: real, w: real, h: real, speed: real)
  {
    function Box(): Rect { Rect(x, y, w, h) }
  }

  /** Held state of the keys a, d, w, space and shift. */
  datatype Keys = Keys(a: bool, d: bool, w: bool, space: bool, shift: bool)

  /** The player record as the game starts. */
  function InitialPlayer(): Player
  {
    Player(100.0, 300.0, PlayerSize, PlayerSize, 0.0, 0.0, false, MaxJumps, false, 0, 3, 0)
  }

  /** The counters and the fixed size stay in their ranges. */
  ghost predicate ValidPlayer(p: Player)
  {
    p.w == PlayerSize && p.h == PlayerSize &&
    0 <= p.jumpsLeft <= MaxJumps &&
    0 <= p.dashTimer <= DashTime
  }

  /** resetPlayer: back to just right of the camera, at rest, with both
      jumps; size, dash, ground flag, lives and score are left alone. */
  function Reset(p: Player, cameraX: real): Player
  {
    p.(x := cameraX + RespawnOffset, y := RespawnY, vx := 0.0, vy := 0.0, jumpsLeft := MaxJumps)
  }
}
