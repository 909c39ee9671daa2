/** The per-car state estimator: reconstructs timers and flags of one car
    from a stream of telemetry samples. */
module CarModel {
  import opened Common
  import opened Packet

  datatype Hitbox = Octane | Dominus | Plank | Breakout | Hybrid | Merc

  /** Wheel contact flags: front left, front right, back left, back right. */
  type Wheels = (bool, bool, bool, bool)

  /** Everything a car holds, as one value. */
  datatype CarData = CarData(
    teamNum: int,
    hitboxType: Hitbox,
    ballTouches: int,
    bumpVictimId: Option<int>,
    demoRespawnTimer: real,
    wheelsWithContact: Wheels,
    supersonicTime: real,
    boostAmount: real,
    boostActiveTime: real,
    handbrake: real,
    isJumping: bool,
    hasJumped: bool,
    isHoldingJump: bool,
    jumpTime: real,
    hasFlipped: bool,
    hasDoubleJumped: bool,
    airTimeSinceJump: real,
    flipTime: real,
    flipTorque: seq<real>,
    isAutoflipping: bool,
    autoflipTimer: real,
    autoflipDirection: real,
    physics: Physics,
    invertedPhysics: Option<Physics>,
    prevAirState: AirState,
    gameSeconds: real,
    curTick: int)

  // ---------------------------------------------------------------------
  // Derived properties

  function Flag(b: bool): nat { if b then 1 else 0 }

  /** The number of wheels with contact. */
  function ContactCount(w: Wheels): (n: nat)
    ensures n <= 4
  {
    Flag(w.0) + Flag(w.1) + Flag(w.2) + Flag(w.3)
  }

  /** The contact count is how many of the four wheel flags are set. */
  lemma ContactCountMeaning(w: Wheels)
    ensures ContactCount(w) == multiset([w.0, w.1, w.2, w.3])[true]
  {
  }

  /** A car is on the ground when at least three wheels touch it. */
  predicate WheelsOnGround(w: Wheels)
  {
    ContactCount(w) >= 3
  }

  /** On the ground exactly when at most one wheel lacks contact. */
  lemma OnGroundAtMostOneWheelOff(w: Wheels)
    ensures WheelsOnGround(w) <==>
      (w.0 && w.1 && w.2) || (w.0 && w.1 && w.3) || (w.0 && w.2 && w.3) || (w.1 && w.2 && w.3)
  {
  }

  /** The wheel tuple the `on_ground` setter writes. */
  function AllWheels(value: bool): (w: Wheels)
    ensures WheelsOnGround(w) == value
    ensures w.0 == value && w.1 == value && w.2 == value && w.3 == value
  {
    (value, value, value, value)
  }

  predicate IsBlue(c: CarData) { c.teamNum == BLUE_TEAM }
  predicate IsOrange(c: CarData) { c.teamNum == ORANGE_TEAM }
  predicate IsDemoed(c: CarData) { c.demoRespawnTimer > 0.0 }
  predicate IsBoosting(c: CarData) { c.boostActiveTime > 0.0 }
  predicate IsSupersonic(c: CarData) { c.supersonicTime > 0.0 }
  predicate CarOnGround(c: CarData) { WheelsOnGround(c.wheelsWithContact) }
  predicate HadCarContact(c: CarData) { c.bumpVictimId.Some? }

  /** The car still has its flip (or double jump) available. */
  predicate HasFlip(c: CarData)
  {
    !c.hasDoubleJumped && !c.hasFlipped && c.airTimeSinceJump < DOUBLEJUMP_MAX_DELAY
  }

  predicate CanFlip(c: CarData)
  {
    !CarOnGround(c) && !c.isHoldingJump && HasFlip(c)
  }

  predicate IsFlipping(c: CarData)
  {
    c.hasFlipped && c.flipTime < FLIP_TORQUE_TIME
  }

  /** The state the `is_flipping` setter leaves: afterwards the getter reads
      back the assigned value, and only the flip fields have moved. */
  function WithIsFlipping(c: CarData, value: bool): (r: CarData)
    ensures IsFlipping(r) == value
    ensures value ==> r.hasFlipped && (IsFlipping(c) ==> r.flipTime == c.flipTime)
    ensures !value ==> r.hasFlipped == c.hasFlipped
    ensures r == c.(hasFlipped := r.hasFlipped, flipTime := r.flipTime)
  {
    if value then
      c.(hasFlipped := true, flipTime := if c.flipTime >= FLIP_TORQUE_TIME then 0.0 else c.flipTime)
    else
      c.(flipTime := FLIP_TORQUE_TIME)
  }

  /** The inverted physics view: the cached one if present, else computed. */
  function InvertedView(c: CarData): Physics
  {
    if c.invertedPhysics.Some? then c.invertedPhysics.value else Invert(c.physics)
  }

  // ---------------------------------------------------------------------
  // Hitbox classification

  /** Reference hitbox shapes, in the order they are tried. */
  const HITBOX_REFERENCES: seq<(Hitbox, BoxShape)> := [
    (Octane, BoxShape(118.00738, 84.19941, 36.159073)),
    (Dominus, BoxShape(127.92678, 83.27995, 31.3)),
    (Plank, BoxShape(128.81978, 84.670364, 29.394402)),
    (Breakout, BoxShape(131.49236, 80.521, 30.3)),
    (Hybrid, BoxShape(127.01919, 82.18787, 34.159073)),
    (Merc, BoxShape(120.72023, 76.71031, 41.659073))
  ]

  function Abs(x: real): real { if x < 0.0 then -x else x }

  /** Shape comparison: every dimension within the tolerance. */
  predicate CompareHitboxShape(shape: BoxShape, length: real, width: real, height: real)
  {
    Abs(shape.length - length) <= HITBOX_TOLERANCE
    && Abs(shape.width - width) <= HITBOX_TOLERANCE
    && Abs(shape.height - height) <= HITBOX_TOLERANCE
  }

  predicate Matches(shape: BoxShape, reference: BoxShape)
  {
    CompareHitboxShape(shape, reference.length, reference.width, reference.height)
  }

  /** Classifies a hitbox: the first reference whose shape matches wins,
      and an unrecognised shape counts as an Octane. The offset is unused. */
  function DetectHitbox(shape: BoxShape, offset: Vec3): Hitbox
  {
    if CompareHitboxShape(shape, 118.00738, 84.19941, 36.159073) then Octane
    else if CompareHitboxShape(shape, 127.92678, 83.27995, 31.3) then Dominus
    else if CompareHitboxShape(shape, 128.81978, 84.670364, 29.394402) then Plank
    else if CompareHitboxShape(shape, 131.49236, 80.521, 30.3) then Breakout
    else if CompareHitboxShape(shape, 127.01919, 82.18787, 34.159073) then Hybrid
    else if CompareHitboxShape(shape, 120.72023, 76.71031, 41.659073) then Merc
    else Octane
  }

  /** The classifier answers with the first matching reference, and with
      Octane when none matches. */
  lemma DetectHitboxFirstMatch(shape: BoxShape, offset: Vec3)
    ensures (forall k :: 0 <= k < |HITBOX_REFERENCES| ==> !Matches(shape, HITBOX_REFERENCES[k].1))
            ==> DetectHitbox(shape, offset) == Octane
    ensures forall k :: 0 <= k < |HITBOX_REFERENCES| && Matches(shape, HITBOX_REFERENCES[k].1)
                        && (forall j :: 0 <= j < k ==> !Matches(shape, HITBOX_REFERENCES[j].1))
                        ==> DetectHitbox(shape, offset) == HITBOX_REFERENCES[k].0
  {
    var refs := HITBOX_REFERENCES;
    assert Matches(shape, refs[0].1) == CompareHitboxShape(shape, 118.00738, 84.19941, 36.159073);
    assert Matches(shape, refs[1].1) == CompareHitboxShape(shape, 127.92678, 83.27995, 31.3);
    assert Matches(shape, refs[2].1) == CompareHitboxShape(shape, 128.81978, 84.670364, 29.394402);
    assert Matches(shape, refs[3].1) == CompareHitboxShape(shape, 131.49236, 80.521, 30.3);
    assert Matches(shape, refs[4].1) == CompareHitboxShape(shape, 127.01919, 82.18787, 34.159073);
    assert Matches(shape, refs[5].1) == CompareHitboxShape(shape, 120.72023, 76.71031, 41.659073);
  }

  // ---------------------------------------------------------------------
  // Creation

  /** Air time since jump as read from the dodge timeout (-1: none running). */
  function AirTimeFromTimeout(dodgeTimeout: real): real
  {
    if dodgeTimeout == -1.0 then 0.0 else DOUBLEJUMP_MAX_DELAY - dodgeTimeout
  }

  /** The car built from its first sample: timers at zero, flags and dodge
      data from the sample, the packet's clock as the baseline. */
  function CompatCarData(packet: GamePacket, playerIndex: nat): CarData
    requires playerIndex < |packet.players|
  {
    var info := packet.players[playerIndex];
    CarData(
      teamNum := if info.team == 0 then BLUE_TEAM else ORANGE_TEAM,
      hitboxType := DetectHitbox(info.hitbox, info.hitboxOffset),
      ballTouches := 0,
      bumpVictimId := None,
      demoRespawnTimer := 0.0,
      wheelsWithContact := AllWheels(info.airState == OnGround),
      supersonicTime := 0.0,
      boostAmount := info.boost / 100.0,
      boostActiveTime := 0.0,
      handbrake := 0.0,
      isJumping := false,
      hasJumped := info.hasJumped,
      isHoldingJump := info.lastInput.jump,
      jumpTime := 0.0,
      hasFlipped := info.hasDodged,
      hasDoubleJumped := info.hasDoubleJumped,
      airTimeSinceJump := AirTimeFromTimeout(info.dodgeTimeout),
      flipTime := info.dodgeElapsed,
      flipTorque := [-info.dodgeDir.y, info.dodgeDir.x, 0.0],
      isAutoflipping := false,
      autoflipTimer := 0.0,
      autoflipDirection := 0.0,
      physics := ZERO_PHYSICS,
      invertedPhysics := None,
      prevAirState := info.airState,
      gameSeconds := packet.matchInfo.secondsElapsed,
      curTick := packet.matchInfo.frameNum)
  }

  /** The first sample fixes team, hitbox, contact and the clock baseline;
      every timer and counter starts at zero. */
  lemma CompatCarDataMeaning(packet: GamePacket, playerIndex: nat)
    requires playerIndex < |packet.players|
    ensures var info, c := packet.players[playerIndex], CompatCarData(packet, playerIndex);
      && (IsBlue(c) <==> info.team == 0)
      && (IsOrange(c) <==> info.team != 0)
      && c.hitboxType == DetectHitbox(info.hitbox, info.hitboxOffset)
      && (CarOnGround(c) <==> info.airState == OnGround)
      && c.ballTouches == 0 && !HadCarContact(c) && !IsDemoed(c)
      && !IsSupersonic(c) && !IsBoosting(c) && c.handbrake == 0.0 && c.jumpTime == 0.0
      && c.boostAmount * 100.0 == info.boost
      && c.prevAirState == info.airState
      && c.curTick == packet.matchInfo.frameNum && c.gameSeconds == packet.matchInfo.secondsElapsed
      && |c.flipTorque| == 3
  {
  }

  // ---------------------------------------------------------------------
  // One update, step by step

  /** Whole ticks between a touch and the car's clock, rounded as Python's `round`. */
  function TicksSinceTouch(now: real, touch: Touch): int
  {
    Round(SecondsToTicks(now - touch.gameSeconds))
  }

  /** A touch counts when it happened within the elapsed interval. */
  function TouchIncrement(now: real, latest: Option<Touch>, ticksElapsed: int): nat
  {
    if latest.Some? && TicksSinceTouch(now, latest.value) < ticksElapsed then 1 else 0
  }

  /** At most one touch is counted per update, and exactly when the latest
      touch lies within the elapsed interval. */
  lemma TouchIncrementCounts(now: real, latest: Option<Touch>, ticksElapsed: int)
    ensures TouchIncrement(now, latest, ticksElapsed) <= 1
    ensures TouchIncrement(now, latest, ticksElapsed) == 1
      <==> latest.Some? && TicksSinceTouch(now, latest.value) < ticksElapsed
  {
  }

  /** Supersonic time grows while supersonic and drops to zero otherwise. */
  function SupersonicStep(prev: real, supersonic: bool, dt: real): real
  {
    if supersonic then prev + dt else 0.0
  }

  lemma SupersonicStepMeaning(prev: real, supersonic: bool, dt: real)
    ensures supersonic ==> SupersonicStep(prev, supersonic, dt) - prev == dt
    ensures !supersonic ==> SupersonicStep(prev, supersonic, dt) == 0.0
    ensures prev >= 0.0 && dt >= 0.0 ==> SupersonicStep(prev, supersonic, dt) >= 0.0
  {
  }

  /** The boost-active timer: starts at one interval when boost is pressed,
      and once running it only stops after boost is released and the
      minimum boost time has been reached. */
  function BoostStep(prev: real, boost: bool, dt: real): real
  {
    if prev > 0.0 then
      if !boost && prev >= MIN_BOOST_TIME then 0.0 else prev + dt
    else if boost then dt
    else prev
  }

  /** Boost starts when pressed, and a running boost stops only once it is
      released after the minimum boost time. */
  lemma BoostStepMeaning(prev: real, boost: bool, dt: real)
    ensures prev <= 0.0 && boost ==> BoostStep(prev, boost, dt) == dt
    ensures prev <= 0.0 && !boost ==> BoostStep(prev, boost, dt) == prev
    ensures prev > 0.0 && !boost && prev >= MIN_BOOST_TIME ==> BoostStep(prev, boost, dt) == 0.0
    ensures prev > 0.0 && (boost || prev < MIN_BOOST_TIME) ==> BoostStep(prev, boost, dt) == prev + dt
    ensures prev >= 0.0 && dt >= 0.0 ==> BoostStep(prev, boost, dt) >= 0.0
    ensures prev > 0.0 && dt >= 0.0 && BoostStep(prev, boost, dt) <= 0.0 ==> !boost && prev >= MIN_BOOST_TIME
  {
  }

  /** The handbrake ramps up while held and down otherwise, within [0, 1]. */
  function HandbrakeStep(prev: real, held: bool, dt: real): real
  {
    var raw := if held then prev + POWERSLIDE_RISE_RATE * dt else prev - POWERSLIDE_FALL_RATE * dt;
    Min(1.0, Max(0.0, raw))
  }

  /** The handbrake stays within [0, 1], rises while held and falls
      otherwise, and saturates at the ends. */
  lemma HandbrakeStepMeaning(prev: real, held: bool, dt: real)
    ensures 0.0 <= HandbrakeStep(prev, held, dt) <= 1.0
    ensures 0.0 <= prev <= 1.0 && dt >= 0.0 && held ==> prev <= HandbrakeStep(prev, held, dt)
    ensures 0.0 <= prev <= 1.0 && dt >= 0.0 && !held ==> HandbrakeStep(prev, held, dt) <= prev
    ensures held && prev + POWERSLIDE_RISE_RATE * dt >= 1.0 ==> HandbrakeStep(prev, held, dt) == 1.0
    ensures !held && prev - POWERSLIDE_FALL_RATE * dt <= 0.0 ==> HandbrakeStep(prev, held, dt) == 0.0
  {
  }

  /** Outcome of the five-way match on the air state. */
  datatype AirOutcome = AirOutcome(wheels: Wheels, isJumping: bool, jumpTime: real, airTimeSinceJump: real)

  /** After pressing jump a car takes about six ticks to leave the ground. */
  const JUMP_GROUND_GRACE: real := TicksToSeconds(6)

  function AirStep(state: AirState, prev: AirState, jumpTime: real, airTime: real): AirOutcome
  {
    match state
    case OnGround => AirOutcome(AllWheels(true), false, jumpTime, 0.0)
    case Jumping =>
      var jt := if prev == OnGround then 0.0 else jumpTime;
      AirOutcome(AllWheels(jt <= JUMP_GROUND_GRACE), true, jt, airTime)
    case InAir => AirOutcome(AllWheels(false), false, jumpTime, airTime)
    case Dodging => AirOutcome(AllWheels(false), false, jumpTime, airTime)
    case DoubleJumping => AirOutcome(AllWheels(false), false, jumpTime, airTime)
  }

  /** On the ground all wheels touch; in the air none do and the car is
      not jumping; while jumping the car is still on the ground for the
      grace period, and the jump timer restarts when it left the ground. */
  lemma AirStepMeaning(state: AirState, prev: AirState, jumpTime: real, airTime: real)
    ensures var r := AirStep(state, prev, jumpTime, airTime);
      && (state == OnGround ==> WheelsOnGround(r.wheels) && !r.isJumping && r.airTimeSinceJump == 0.0)
      && (state in {InAir, Dodging, DoubleJumping} ==> !WheelsOnGround(r.wheels) && !r.isJumping)
      && (state == Jumping ==> r.isJumping && (WheelsOnGround(r.wheels) <==> r.jumpTime <= JUMP_GROUND_GRACE))
      && (state == Jumping && prev == OnGround ==> r.jumpTime == 0.0)
      && (!(state == Jumping && prev == OnGround) ==> r.jumpTime == jumpTime)
      && (state != OnGround ==> r.airTimeSinceJump == airTime)
      && r.wheels == AllWheels(WheelsOnGround(r.wheels))
  {
  }

  /** Clock and touch counting: the tick index and game clock advance by
      the elapsed ticks, and a touch inside the interval is counted. */
  function ClockPhase(c: CarData, info: PlayerInfo, gameTick: int): CarData
  {
    var ticksElapsed := gameTick - c.curTick;
    var seconds := c.gameSeconds + TicksToSeconds(ticksElapsed);
    c.(curTick := gameTick,
       gameSeconds := seconds,
       ballTouches := c.ballTouches + TouchIncrement(seconds, info.latestTouch, ticksElapsed))
  }

  /** Demolition, supersonic, boost and handbrake. */
  function TimerPhase(c: CarData, info: PlayerInfo, dt: real): CarData
  {
    c.(demoRespawnTimer := if info.demolishedTimeout == -1.0 then 0.0 else info.demolishedTimeout,
       supersonicTime := SupersonicStep(c.supersonicTime, info.isSupersonic, dt),
       boostAmount := info.boost / 100.0,
       boostActiveTime := BoostStep(c.boostActiveTime, info.lastInput.boost, dt),
       handbrake := HandbrakeStep(c.handbrake, info.lastInput.handbrake, dt))
  }

  /** Jump and flip flags copied from the sample, the flip torque rotated
      from the dodge direction, and the jump timer, which reads the
      previous tick's `isJumping`. */
  function JumpPhase(c: CarData, info: PlayerInfo, dt: real): CarData
  {
    c.(isHoldingJump := info.lastInput.jump,
       hasJumped := info.hasJumped,
       hasDoubleJumped := info.hasDoubleJumped,
       hasFlipped := info.hasDodged,
       flipTime := info.dodgeElapsed,
       flipTorque := if |c.flipTorque| >= 2 then [-info.dodgeDir.y, info.dodgeDir.x] + c.flipTorque[2..] else c.flipTorque,
       jumpTime := if info.hasJumped || c.isJumping then c.jumpTime + dt else c.jumpTime,
       airTimeSinceJump := AirTimeFromTimeout(info.dodgeTimeout))
  }

  /** The match on the sample's air state. */
  function AirPhase(c: CarData, state: AirState): CarData
  {
    var air := AirStep(state, c.prevAirState, c.jumpTime, c.airTimeSinceJump);
    c.(wheelsWithContact := air.wheels, isJumping := air.isJumping,
       jumpTime := air.jumpTime, airTimeSinceJump := air.airTimeSinceJump)
  }

  /** The sample's physics and its mirrored view. */
  function PhysicsPhase(c: CarData, p: Physics): CarData
  {
    c.(physics := p, invertedPhysics := Some(Invert(p)))
  }

  /** Everything `update` computes from the sample, before any override. */
  function Advance(c: CarData, info: PlayerInfo, gameTick: int): CarData
  {
    Flight(Tick(c, info, gameTick), info, TicksToSeconds(gameTick - c.curTick))
  }

  /** Clock, touches and timers. */
  function Tick(c: CarData, info: PlayerInfo, gameTick: int): CarData
  {
    TimerPhase(ClockPhase(c, info, gameTick), info, TicksToSeconds(gameTick - c.curTick))
  }

  /** Jump and flip state, the air state match, and physics. */
  function Flight(c: CarData, info: PlayerInfo, dt: real): CarData
  {
    PhysicsPhase(AirPhase(JumpPhase(c, info, dt), info.airState), info.physics)
  }

  /** A contact id with its cooldown: the id while the cooldown runs, none
      once it has run out; unchanged unless both are reported. */
  function BumpVictim(e: ExtraPlayerInfo, computed: Option<int>): Option<int>
  {
    if e.carContactId.Some? && e.carContactCooldownTimer.Some? then
      (if e.carContactCooldownTimer.value > 0.0 then Some(e.carContactId.value) else None)
    else computed
  }

  /** The override channel for contact, handbrake and touches. */
  function ContactExtra(c: CarData, e: ExtraPlayerInfo): CarData
  {
    c.(wheelsWithContact := e.wheelsWithContact.GetOr(c.wheelsWithContact),
       handbrake := e.handbrake.GetOr(c.handbrake),
       ballTouches := e.ballTouches.GetOr(c.ballTouches),
       bumpVictimId := BumpVictim(e, c.bumpVictimId))
  }

  /** The override channel for the autoflip state. */
  function AutoflipExtra(c: CarData, e: ExtraPlayerInfo): CarData
  {
    c.(isAutoflipping := e.isAutoflipping.GetOr(c.isAutoflipping),
       autoflipTimer := e.autoflipTimer.GetOr(c.autoflipTimer),
       autoflipDirection := e.autoflipDirection.GetOr(c.autoflipDirection))
  }

  /** The override channel: each present field replaces the computed value. */
  function ApplyExtra(c: CarData, e: ExtraPlayerInfo): CarData
  {
    AutoflipExtra(ContactExtra(c, e), e)
  }

  function Override(c: CarData, extra: Option<ExtraPlayerInfo>): CarData
  {
    if extra.Some? then ApplyExtra(c, extra.value) else c
  }

  /** One full update: advance from the sample, apply any override, and
      remember the sample's air state for the next call. */
  function UpdateData(c: CarData, info: PlayerInfo, gameTick: int, extra: Option<ExtraPlayerInfo>): (r: CarData)
    ensures r.curTick == gameTick
    ensures |r.flipTorque| == |c.flipTorque|
  {
    Override(Advance(c, info, gameTick), extra).(prevAirState := info.airState)
  }

  // Each phase, recognised from the fields it changes; the methods of
  // `Car` establish these premises field by field.

  lemma ClockPhaseIntro(c0: CarData, c1: CarData, info: PlayerInfo, gameTick: int)
    requires c1 == c0.(curTick := c1.curTick, gameSeconds := c1.gameSeconds, ballTouches := c1.ballTouches)
    requires c1.curTick == gameTick
    requires c1.gameSeconds == c0.gameSeconds + TicksToSeconds(gameTick - c0.curTick)
    requires c1.ballTouches == c0.ballTouches + TouchIncrement(c1.gameSeconds, info.latestTouch, gameTick - c0.curTick)
    ensures c1 == ClockPhase(c0, info, gameTick)
  {
  }

  lemma TimerPhaseIntro(c0: CarData, c1: CarData, info: PlayerInfo, dt: real)
    requires c1 == c0.(demoRespawnTimer := c1.demoRespawnTimer, supersonicTime := c1.supersonicTime,
                       boostAmount := c1.boostAmount, boostActiveTime := c1.boostActiveTime, handbrake := c1.handbrake)
    requires c1.demoRespawnTimer == if info.demolishedTimeout == -1.0 then 0.0 else info.demolishedTimeout
    requires c1.supersonicTime == SupersonicStep(c0.supersonicTime, info.isSupersonic, dt)
    requires c1.boostAmount == info.boost / 100.0
    requires c1.boostActiveTime == BoostStep(c0.boostActiveTime, info.lastInput.boost, dt)
    requires c1.handbrake == HandbrakeStep(c0.handbrake, info.lastInput.handbrake, dt)
    ensures c1 == TimerPhase(c0, info, dt)
  {
  }

  lemma JumpPhaseIntro(c0: CarData, c1: CarData, info: PlayerInfo, dt: real)
    requires |c0.flipTorque| >= 2
    requires c1 == c0.(isHoldingJump := c1.isHoldingJump, hasJumped := c1.hasJumped, hasDoubleJumped := c1.hasDoubleJumped,
                       hasFlipped := c1.hasFlipped, flipTime := c1.flipTime, flipTorque := c1.flipTorque,
                       jumpTime := c1.jumpTime, airTimeSinceJump := c1.airTimeSinceJump)
    requires c1.isHoldingJump == info.lastInput.jump
    requires c1.hasJumped == info.hasJumped && c1.hasDoubleJumped == info.hasDoubleJumped && c1.hasFlipped == info.hasDodged
    requires c1.flipTime == info.dodgeElapsed
    requires c1.flipTorque == [-info.dodgeDir.y, info.dodgeDir.x] + c0.flipTorque[2..]
    requires c1.jumpTime == if info.hasJumped || c0.isJumping then c0.jumpTime + dt else c0.jumpTime
    requires c1.airTimeSinceJump == AirTimeFromTimeout(info.dodgeTimeout)
    ensures c1 == JumpPhase(c0, info, dt)
  {
  }

  lemma AirPhaseIntro(c0: CarData, c1: CarData, state: AirState)
    requires c1 == c0.(wheelsWithContact := c1.wheelsWithContact, isJumping := c1.isJumping,
                       jumpTime := c1.jumpTime, airTimeSinceJump := c1.airTimeSinceJump)
    requires var air := AirStep(state, c0.prevAirState, c0.jumpTime, c0.airTimeSinceJump);
      c1.wheelsWithContact == air.wheels && c1.isJumping == air.isJumping
      && c1.jumpTime == air.jumpTime && c1.airTimeSinceJump == air.airTimeSinceJump
    ensures c1 == AirPhase(c0, state)
  {
  }

  lemma PhysicsPhaseIntro(c0: CarData, c1: CarData, p: Physics)
    requires c1 == c0.(physics := c1.physics, invertedPhysics := c1.invertedPhysics)
    requires c1.physics == p && c1.invertedPhysics == Some(Invert(p))
    ensures c1 == PhysicsPhase(c0, p)
  {
  }

  lemma ContactExtraIntro(c0: CarData, c1: CarData, e: ExtraPlayerInfo)
    requires c1 == c0.(wheelsWithContact := c1.wheelsWithContact, handbrake := c1.handbrake,
                       ballTouches := c1.ballTouches, bumpVictimId := c1.bumpVictimId)
    requires c1.wheelsWithContact == e.wheelsWithContact.GetOr(c0.wheelsWithContact)
    requires c1.handbrake == e.handbrake.GetOr(c0.handbrake)
    requires c1.ballTouches == e.ballTouches.GetOr(c0.ballTouches)
    requires c1.bumpVictimId == BumpVictim(e, c0.bumpVictimId)
    ensures c1 == ContactExtra(c0, e)
  {
  }

  lemma AutoflipExtraIntro(c0: CarData, c1: CarData, e: ExtraPlayerInfo)
    requires c1 == c0.(isAutoflipping := c1.isAutoflipping, autoflipTimer := c1.autoflipTimer,
                       autoflipDirection := c1.autoflipDirection)
    requires c1.isAutoflipping == e.isAutoflipping.GetOr(c0.isAutoflipping)
    requires c1.autoflipTimer == e.autoflipTimer.GetOr(c0.autoflipTimer)
    requires c1.autoflipDirection == e.autoflipDirection.GetOr(c0.autoflipDirection)
    ensures c1 == AutoflipExtra(c0, e)
  {
  }

  // ---------------------------------------------------------------------
  // The car as an object updated in place

  class Car {
    var teamNum: int
    var hitboxType: Hitbox
    var ballTouches: int
    var bumpVictimId: Option<int>
    var demoRespawnTimer: real
    var wheelsWithContact: Wheels
    var supersonicTime: real
    var boostAmount: real
    var boostActiveTime: real
    var handbrake: real
    var isJumping: bool
    var hasJumped: bool
    var isHoldingJump: bool
    var jumpTime: real
    var hasFlipped: bool
    var hasDoubleJumped: bool
    var airTimeSinceJump: real
    var flipTime: real
    var flipTorque: array<real>
    var isAutoflipping: bool
    var autoflipTimer: real
    var autoflipDirection: real
    var physics: Physics
    var invertedPhysics: Option<Physics>
    var prevAirState: AirState
    var gameSeconds: real
    var curTick: int

    ghost predicate Valid()
      reads this
    {
      flipTorque.Length == 3
    }

    /** The car's current state as a value. */
    ghost function Data(): CarData
      reads this, flipTorque
    {
      CarData(teamNum, hitboxType, ballTouches, bumpVictimId, demoRespawnTimer, wheelsWithContact,
              supersonicTime, boostAmount, boostActiveTime, handbrake, isJumping, hasJumped,
              isHoldingJump, jumpTime, hasFlipped, hasDoubleJumped, airTimeSinceJump, flipTime,
              flipTorque[..], isAutoflipping, autoflipTimer, autoflipDirection, physics,
              invertedPhysics, prevAirState, gameSeconds, curTick)
    }

    /** Builds the car for player `playerIndex` of its first packet. */
    constructor CreateCompat(packet: GamePacket, playerIndex: nat, actionTickDuration: int)
      requires playerIndex < |packet.players|
      ensures Valid() && fresh(flipTorque)
      ensures Data() == CompatCarData(packet, playerIndex)
    {
      var info := packet.players[playerIndex];
      teamNum := if info.team == 0 then BLUE_TEAM else ORANGE_TEAM;
      hitboxType := DetectHitbox(info.hitbox, info.hitboxOffset);
      ballTouches := 0;
      bumpVictimId := None;
      demoRespawnTimer := 0.0;
      wheelsWithContact := AllWheels(info.airState == OnGround);
      supersonicTime := 0.0;
      boostAmount := info.boost / 100.0;
      boostActiveTime := 0.0;
      handbrake := 0.0;
      hasJumped := info.hasJumped;
      isHoldingJump := info.lastInput.jump;
      isJumping := false;
      jumpTime := 0.0;
      hasFlipped := info.hasDodged;
      hasDoubleJumped := info.hasDoubleJumped;
      airTimeSinceJump := AirTimeFromTimeout(info.dodgeTimeout);
      flipTime := info.dodgeElapsed;
      var torque := new real[3] [-info.dodgeDir.y, info.dodgeDir.x, 0.0];
      assert torque[..] == [-info.dodgeDir.y, info.dodgeDir.x, 0.0];
      flipTorque := torque;
      isAutoflipping := false;
      autoflipTimer := 0.0;
      autoflipDirection := 0.0;
      physics := ZERO_PHYSICS;
      invertedPhysics := None;
      prevAirState := info.airState;
      gameSeconds := packet.matchInfo.secondsElapsed;
      curTick := packet.matchInfo.frameNum;
    }

    /** The `on_ground` setter: all four wheels take the assigned value. */
    method SetOnGround(value: bool)
      modifies this`wheelsWithContact
      ensures wheelsWithContact == AllWheels(value)
    {
      wheelsWithContact := (value, value, value, value);
    }

    /** The `is_flipping` setter. */
    method SetIsFlipping(value: bool)
      modifies this`hasFlipped, this`flipTime
      ensures Data() == WithIsFlipping(old(Data()), value)
    {
      if value {
        hasFlipped := true;
        if flipTime >= FLIP_TORQUE_TIME {
          flipTime := 0.0;
        }
      } else {
        flipTime := FLIP_TORQUE_TIME;
      }
    }

    method ResetBallTouches()
      modifies this`ballTouches
      ensures Data() == old(Data()).(ballTouches := 0)
    {
      ballTouches := 0;
    }

    /** The `inverted_physics` getter: fills the cache on first use. */
    method InvertedPhysics() returns (p: Physics)
      modifies this`invertedPhysics
      ensures p == InvertedView(old(Data()))
      ensures Data() == old(Data()).(invertedPhysics := Some(p))
    {
      if invertedPhysics.None? {
        invertedPhysics := Some(Invert(physics));
      }
      p := invertedPhysics.value;
    }

    /** Consumes one telemetry sample taken at `gameTick`. */
    method Update(info: PlayerInfo, gameTick: int, extra: Option<ExtraPlayerInfo>)
      requires Valid()
      modifies this, flipTorque
      ensures Valid() && flipTorque == old(flipTorque)
      ensures Data() == UpdateData(old(Data()), info, gameTick, extra)
    {
      AdvanceFrom(info, gameTick);
      if extra.Some? {
        OverrideFrom(extra.value);
      }
      RememberAirState(info.airState);
    }

    /** Everything `update` computes from the sample, phase by phase. */
    method AdvanceFrom(info: PlayerInfo, gameTick: int)
      requires Valid()
      modifies this, flipTorque
      ensures Valid() && flipTorque == old(flipTorque)
      ensures Data() == Advance(old(Data()), info, gameTick)
    {
      var timeElapsed := TicksToSeconds(gameTick - curTick);
      TickFrom(info, gameTick);
      FlightFrom(info, timeElapsed);
    }

    method TickFrom(info: PlayerInfo, gameTick: int)
      requires Valid()
      modifies this
      ensures Valid() && flipTorque == old(flipTorque)
      ensures Data() == Tick(old(Data()), info, gameTick)
    {
      var timeElapsed := TicksToSeconds(gameTick - curTick);
      ClockFrom(info, gameTick);
      TimersFrom(info, timeElapsed);
    }

    method FlightFrom(info: PlayerInfo, dt: real)
      requires Valid()
      modifies this, flipTorque
      ensures Valid() && flipTorque == old(flipTorque)
      ensures Data() == Flight(old(Data()), info, dt)
    {
      JumpFrom(info, dt);
      AirFrom(info.airState);
      PhysicsFrom(info.physics);
    }

    method ClockFrom(info: PlayerInfo, gameTick: int)
      requires Valid()
      modifies this
      ensures Valid() && flipTorque == old(flipTorque)
      ensures Data() == ClockPhase(old(Data()), info, gameTick)
    {
      ghost var c0 := Data();
      AdvanceClock(info, gameTick);
      ClockPhaseIntro(c0, Data(), info, gameTick);
    }

    method TimersFrom(info: PlayerInfo, dt: real)
      requires Valid()
      modifies this
      ensures Valid() && flipTorque == old(flipTorque)
      ensures Data() == TimerPhase(old(Data()), info, dt)
    {
      ghost var c0 := Data();
      UpdateTimers(info, dt);
      TimerPhaseIntro(c0, Data(), info, dt);
    }

    method JumpFrom(info: PlayerInfo, dt: real)
      requires Valid()
      modifies this, flipTorque
      ensures Valid() && flipTorque == old(flipTorque)
      ensures Data() == JumpPhase(old(Data()), info, dt)
    {
      ghost var c0 := Data();
      UpdateJumpFlags(info, dt);
      JumpPhaseIntro(c0, Data(), info, dt);
    }

    method AirFrom(state: AirState)
      requires Valid()
      modifies this
      ensures Valid() && flipTorque == old(flipTorque)
      ensures Data() == AirPhase(old(Data()), state)
    {
      ghost var c0 := Data();
      MatchAirState(state);
      AirPhaseIntro(c0, Data(), state);
    }

    method PhysicsFrom(p: Physics)
      requires Valid()
      modifies this
      ensures Valid() && flipTorque == old(flipTorque)
      ensures Data() == PhysicsPhase(old(Data()), p)
    {
      ghost var c0 := Data();
      SetPhysics(p);
      PhysicsPhaseIntro(c0, Data(), p);
    }

    method SetPhysics(p: Physics)
      modifies this`physics, this`invertedPhysics
      ensures physics == p && invertedPhysics == Some(Invert(p))
    {
      physics := p;
      invertedPhysics := Some(Invert(physics));
    }

    method OverrideFrom(e: ExtraPlayerInfo)
      requires Valid()
      modifies this
      ensures Valid() && flipTorque == old(flipTorque)
      ensures Data() == ApplyExtra(old(Data()), e)
    {
      ContactFrom(e);
      AutoflipFrom(e);
    }

    method ContactFrom(e: ExtraPlayerInfo)
      requires Valid()
      modifies this
      ensures Valid() && flipTorque == old(flipTorque)
      ensures Data() == ContactExtra(old(Data()), e)
    {
      ghost var c0 := Data();
      ApplyContactOverride(e);
      ContactExtraIntro(c0, Data(), e);
    }

    method AutoflipFrom(e: ExtraPlayerInfo)
      requires Valid()
      modifies this
      ensures Valid() && flipTorque == old(flipTorque)
      ensures Data() == AutoflipExtra(old(Data()), e)
    {
      ghost var c0 := Data();
      ApplyAutoflipOverride(e);
      AutoflipExtraIntro(c0, Data(), e);
    }

    method RememberAirState(state: AirState)
      requires Valid()
      modifies this
      ensures Valid() && flipTorque == old(flipTorque)
      ensures Data() == old(Data()).(prevAirState := state)
    {
      prevAirState := state;
    }

    /** Tick index, game clock and ball-touch count. */
    method AdvanceClock(info: PlayerInfo, gameTick: int)
      modifies this`curTick, this`gameSeconds, this`ballTouches
      ensures curTick == gameTick
      ensures gameSeconds == old(gameSeconds) + TicksToSeconds(gameTick - old(curTick))
      ensures ballTouches == old(ballTouches) + TouchIncrement(gameSeconds, info.latestTouch, gameTick - old(curTick))
    {
      var ticksElapsed := gameTick - curTick;
      curTick := gameTick;
      var timeElapsed := TicksToSeconds(ticksElapsed);
      gameSeconds := gameSeconds + timeElapsed;
      if info.latestTouch.Some? {
        var ticksSinceTouch := TicksSinceTouch(gameSeconds, info.latestTouch.value);
        if ticksSinceTouch < ticksElapsed {
          ballTouches := ballTouches + 1;
        }
      }
    }

    /** Demolition, supersonic, boost and handbrake timers. */
    method UpdateTimers(info: PlayerInfo, timeElapsed: real)
      modifies this`demoRespawnTimer, this`supersonicTime, this`boostAmount, this`boostActiveTime, this`handbrake
      ensures demoRespawnTimer == if info.demolishedTimeout == -1.0 then 0.0 else info.demolishedTimeout
      ensures supersonicTime == SupersonicStep(old(supersonicTime), info.isSupersonic, timeElapsed)
      ensures boostAmount == info.boost / 100.0
      ensures boostActiveTime == BoostStep(old(boostActiveTime), info.lastInput.boost, timeElapsed)
      ensures handbrake == HandbrakeStep(old(handbrake), info.lastInput.handbrake, timeElapsed)
    {
      demoRespawnTimer := if info.demolishedTimeout == -1.0 then 0.0 else info.demolishedTimeout;
      if info.isSupersonic {
        supersonicTime := supersonicTime + timeElapsed;
      } else {
        supersonicTime := 0.0;
      }
      boostAmount := info.boost / 100.0;
      // the boost-active state machine of the reference simulation
      if boostActiveTime > 0.0 {
        if !info.lastInput.boost && boostActiveTime >= MIN_BOOST_TIME {
          boostActiveTime := 0.0;
        } else {
          boostActiveTime := boostActiveTime + timeElapsed;
        }
      } else if info.lastInput.boost {
        boostActiveTime := timeElapsed;
      }
      if info.lastInput.handbrake {
        handbrake := handbrake + POWERSLIDE_RISE_RATE * timeElapsed;
      } else {
        handbrake := handbrake - POWERSLIDE_FALL_RATE * timeElapsed;
      }
      handbrake := Min(1.0, Max(0.0, handbrake));
    }

    /** Jump and flip flags, flip torque, jump timer and air time. */
    method UpdateJumpFlags(info: PlayerInfo, timeElapsed: real)
      requires Valid()
      modifies this`isHoldingJump, this`hasJumped, this`hasDoubleJumped, this`hasFlipped, this`flipTime,
               this`jumpTime, this`airTimeSinceJump, flipTorque
      ensures isHoldingJump == info.lastInput.jump
      ensures hasJumped == info.hasJumped && hasDoubleJumped == info.hasDoubleJumped && hasFlipped == info.hasDodged
      ensures flipTime == info.dodgeElapsed
      ensures flipTorque[..] == [-info.dodgeDir.y, info.dodgeDir.x] + old(flipTorque[..])[2..]
      ensures jumpTime == if info.hasJumped || isJumping then old(jumpTime) + timeElapsed else old(jumpTime)
      ensures airTimeSinceJump == AirTimeFromTimeout(info.dodgeTimeout)
    {
      isHoldingJump := info.lastInput.jump;
      hasJumped := info.hasJumped;
      hasDoubleJumped := info.hasDoubleJumped;
      hasFlipped := info.hasDodged;
      flipTime := info.dodgeElapsed;
      flipTorque[0] := -info.dodgeDir.y;
      flipTorque[1] := info.dodgeDir.x;
      // `isJumping` still holds the previous tick's value here
      if hasJumped || isJumping {
        jumpTime := jumpTime + timeElapsed;
      }
      airTimeSinceJump := AirTimeFromTimeout(info.dodgeTimeout);
      assert flipTorque[..] == [-info.dodgeDir.y, info.dodgeDir.x] + old(flipTorque[..])[2..];
    }

    /** The five-way match on the sample's air state. */
    method MatchAirState(state: AirState)
      modifies this`wheelsWithContact, this`isJumping, this`jumpTime, this`airTimeSinceJump
      ensures var air := AirStep(state, prevAirState, old(jumpTime), old(airTimeSinceJump));
        wheelsWithContact == air.wheels && isJumping == air.isJumping
        && jumpTime == air.jumpTime && airTimeSinceJump == air.airTimeSinceJump
    {
      match state
      case OnGround =>
        SetOnGround(true);
        isJumping := false;
        airTimeSinceJump := 0.0;
      case Jumping =>
        if prevAirState == OnGround {
          jumpTime := 0.0;
        }
        // it usually takes six ticks after pressing jump to leave the ground
        SetOnGround(jumpTime <= TicksToSeconds(6));
        isJumping := true;
      case InAir =>
        SetOnGround(false);
        isJumping := false;
      case Dodging =>
        SetOnGround(false);
        isJumping := false;
      case DoubleJumping =>
        SetOnGround(false);
        isJumping := false;
    }

    /** The override channel for contact, handbrake and touches. */
    method ApplyContactOverride(e: ExtraPlayerInfo)
      modifies this`wheelsWithContact, this`handbrake, this`ballTouches, this`bumpVictimId
      ensures wheelsWithContact == e.wheelsWithContact.GetOr(old(wheelsWithContact))
      ensures handbrake == e.handbrake.GetOr(old(handbrake))
      ensures ballTouches == e.ballTouches.GetOr(old(ballTouches))
      ensures bumpVictimId == BumpVictim(e, old(bumpVictimId))
    {
      if e.wheelsWithContact.Some? {
        wheelsWithContact := e.wheelsWithContact.value;
      }
      if e.handbrake.Some? {
        handbrake := e.handbrake.value;
      }
      if e.ballTouches.Some? {
        ballTouches := e.ballTouches.value;
      }
      if e.carContactId.Some? && e.carContactCooldownTimer.Some? {
        bumpVictimId := if e.carContactCooldownTimer.value > 0.0 then Some(e.carContactId.value) else None;
      }
    }

    /** The override channel for the autoflip state. */
    method ApplyAutoflipOverride(e: ExtraPlayerInfo)
      modifies this`isAutoflipping, this`autoflipTimer, this`autoflipDirection
      ensures isAutoflipping == e.isAutoflipping.GetOr(old(isAutoflipping))
      ensures autoflipTimer == e.autoflipTimer.GetOr(old(autoflipTimer))
      ensures autoflipDirection == e.autoflipDirection.GetOr(old(autoflipDirection))
    {
      if e.isAutoflipping.Some? {
        isAutoflipping := e.isAutoflipping.value;
      }
      if e.autoflipTimer.Some? {
        autoflipTimer := e.autoflipTimer.value;
      }
      if e.autoflipDirection.Some? {
        autoflipDirection := e.autoflipDirection.value;
      }
    }
  }
}
