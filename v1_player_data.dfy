/** The v1 player record and its projection from an estimated car. */
module V1Player {
  import opened Common
  import opened Packet
  import opened CarModel
  import opened CarProperties

  /** One player in the v1 schema. */
  datatype PlayerData = PlayerData(
    carId: int,
    teamNum: int,
    matchGoals: int,
    matchSaves: int,
    matchShots: int,
    matchDemolishes: int,
    boostPickups: int,
    isDemoed: bool,
    onGround: bool,
    ballTouched: bool,
    hasJump: bool,
    hasFlip: bool,
    boostAmount: real,
    carData: Physics,
    invertedCarData: Physics)

  /** The v1 record of a car: identity and score fields from the arguments
      and the sample, every flag derived from the car's own state. */
  function CreateFromV2(car: CarData, info: PlayerInfo, carId: int, boostPickups: int): (p: PlayerData)
    ensures p.carId == carId && p.teamNum == car.teamNum && p.boostPickups == boostPickups
    ensures p.matchGoals == info.scoreInfo.goals && p.matchSaves == info.scoreInfo.saves
    ensures p.matchShots == info.scoreInfo.shots && p.matchDemolishes == info.scoreInfo.demolitions
    ensures p.isDemoed <==> car.demoRespawnTimer > 0.0
    ensures p.onGround <==> ContactCount(car.wheelsWithContact) >= 3
    ensures p.ballTouched <==> car.ballTouches > 0
    ensures p.hasJump <==> !car.hasJumped
    ensures p.hasFlip == HasFlip(car)
    ensures CanFlip(car) <==> p.hasFlip && !CarOnGround(car) && !car.isHoldingJump
    ensures p.boostAmount == car.boostAmount
    ensures p.carData == car.physics && p.invertedCarData == InvertedView(car)
  {
    PlayerData(
      carId := carId,
      teamNum := car.teamNum,
      matchGoals := info.scoreInfo.goals,
      matchSaves := info.scoreInfo.saves,
      matchShots := info.scoreInfo.shots,
      matchDemolishes := info.scoreInfo.demolitions,
      boostPickups := boostPickups,
      isDemoed := IsDemoed(car),
      onGround := CarOnGround(car),
      ballTouched := car.ballTouches > 0,
      hasJump := !car.hasJumped,
      hasFlip := !car.hasFlipped && !car.hasDoubleJumped && car.airTimeSinceJump < DOUBLEJUMP_MAX_DELAY,
      boostAmount := car.boostAmount,
      carData := car.physics,
      invertedCarData := InvertedView(car))
  }

  /** The record of a car just updated from a sample reports what the
      sample says: demolition, jump, flip, boost, physics and its mirrored
      view, and contact for a car on the ground. */
  lemma ProjectionAfterUpdate(c: CarData, info: PlayerInfo, gameTick: int, extra: Option<ExtraPlayerInfo>,
                              carId: int, boostPickups: int)
    ensures var p := CreateFromV2(UpdateData(c, info, gameTick, extra), info, carId, boostPickups);
      && (p.isDemoed <==> info.demolishedTimeout > 0.0)
      && (p.hasJump <==> !info.hasJumped)
      && (info.hasDodged || info.hasDoubleJumped ==> !p.hasFlip)
      && (info.airState == OnGround && !info.hasDodged && !info.hasDoubleJumped ==> p.hasFlip)
      && (info.airState == OnGround && KeepsWheels(extra) ==> p.onGround)
      && (info.airState in {InAir, Dodging, DoubleJumping} && KeepsWheels(extra) ==> !p.onGround)
      && p.boostAmount * 100.0 == info.boost
      && p.carData == info.physics && p.invertedCarData == Invert(info.physics)
      && p.teamNum == c.teamNum
  {
    UpdateClock(c, info, gameTick, extra);
    UpdatePhysics(c, info, gameTick, extra);
    UpdateDemoAndBoostAmount(c, info, gameTick, extra);
    UpdateFlipState(c, info, gameTick, extra);
    UpdateAirState(c, info, gameTick, extra);
  }
}
