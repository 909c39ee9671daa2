/** The fields of the RLBot telemetry records that the adapters read. */
module Packet {
  import opened Common

  /** Discrete air state reported by the simulation for each car. */
  datatype AirState = OnGround | Jumping | InAir | Dodging | DoubleJumping

  /** Phase of the match. */
  datatype MatchPhase = Inactive | Countdown | Kickoff | Active | GoalScored | Replay | Paused | Ended

  datatype BoxShape = BoxShape(length: real, width: real, height: real)

  /** The controller input the car applied on the last tick. */
  datatype ControllerInput = ControllerInput(jump: bool, boost: bool, handbrake: bool)

  /** The last ball touch of a player: when it happened and by whom. */
  datatype Touch = Touch(gameSeconds: real, playerIndex: int)

  datatype DodgeDirection = DodgeDirection(x: real, y: real)

  datatype ScoreInfo = ScoreInfo(goals: int, saves: int, shots: int, demolitions: int)

  /** One car's telemetry sample. `dodgeTimeout` and `demolishedTimeout`
      are -1 when no timeout is running. */
  datatype PlayerInfo = PlayerInfo(
    playerId: int,
    team: int,
    hitbox: BoxShape,
    hitboxOffset: Vec3,
    airState: AirState,
    boost: real,
    lastInput: ControllerInput,
    hasJumped: bool,
    hasDoubleJumped: bool,
    hasDodged: bool,
    dodgeElapsed: real,
    dodgeTimeout: real,
    dodgeDir: DodgeDirection,
    demolishedTimeout: real,
    isSupersonic: bool,
    latestTouch: Option<Touch>,
    physics: Physics,
    scoreInfo: ScoreInfo)

  datatype MatchInfo = MatchInfo(secondsElapsed: real, frameNum: int, matchPhase: MatchPhase)

  /** One telemetry packet: all cars plus match-wide information. */
  datatype GamePacket = GamePacket(
    players: seq<PlayerInfo>,
    blueScore: int,
    orangeScore: int,
    matchInfo: MatchInfo)

  /** Optional authoritative values from an out-of-band source; a `None`
      field leaves the value inferred from telemetry in place. */
  datatype ExtraPlayerInfo = ExtraPlayerInfo(
    wheelsWithContact: Option<(bool, bool, bool, bool)>,
    handbrake: Option<real>,
    ballTouches: Option<int>,
    carContactId: Option<int>,
    carContactCooldownTimer: Option<real>,
    isAutoflipping: Option<bool>,
    autoflipTimer: Option<real>,
    autoflipDirection: Option<real>)
}
