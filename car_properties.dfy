/** What one `update` call promises about the car's state, and what a run
    of updates promises over several ticks. */
module CarProperties {
  import opened Common
  import opened Packet
  import opened CarModel

  // ---------------------------------------------------------------------
  // Which parts of the state an override leaves to the estimator

  predicate KeepsWheels(extra: Option<ExtraPlayerInfo>)
  {
    extra.None? || extra.value.wheelsWithContact.None?
  }

  predicate KeepsHandbrake(extra: Option<ExtraPlayerInfo>)
  {
    extra.None? || extra.value.handbrake.None?
  }

  predicate KeepsTouches(extra: Option<ExtraPlayerInfo>)
  {
    extra.None? || extra.value.ballTouches.None?
  }

  // ---------------------------------------------------------------------
  // One update

  /** The clock advances by the elapsed ticks; the team and hitbox never
      change. */
  lemma UpdateClock(c: CarData, info: PlayerInfo, gameTick: int, extra: Option<ExtraPlayerInfo>)
    ensures var r := UpdateData(c, info, gameTick, extra);
      && r.curTick == gameTick
      && r.gameSeconds == c.gameSeconds + TICK_TIME * (gameTick - c.curTick) as real
      && r.teamNum == c.teamNum && r.hitboxType == c.hitboxType
  {
  }

  /** The physics come from the sample, the inverted view is refreshed
      with them, and the sample's air state is remembered. */
  lemma UpdatePhysics(c: CarData, info: PlayerInfo, gameTick: int, extra: Option<ExtraPlayerInfo>)
    ensures var r := UpdateData(c, info, gameTick, extra);
      && r.prevAirState == info.airState
      && r.physics == info.physics && r.invertedPhysics == Some(Invert(info.physics))
      && InvertedView(r) == Invert(info.physics)
  {
  }

  /** Unless overridden, at most one touch is counted, and one is counted
      exactly when the sample's latest touch lies within the elapsed ticks. */
  lemma UpdateTouches(c: CarData, info: PlayerInfo, gameTick: int, extra: Option<ExtraPlayerInfo>)
    ensures var r := UpdateData(c, info, gameTick, extra);
      && (KeepsTouches(extra) ==> c.ballTouches <= r.ballTouches <= c.ballTouches + 1)
      && (KeepsTouches(extra) ==>
            (r.ballTouches == c.ballTouches + 1 <==>
               info.latestTouch.Some? && TicksSinceTouch(r.gameSeconds, info.latestTouch.value) < gameTick - c.curTick))
      && (!KeepsTouches(extra) ==> r.ballTouches == extra.value.ballTouches.value)
  {
    TouchIncrementCounts(c.gameSeconds + TICK_TIME * (gameTick - c.curTick) as real, info.latestTouch, gameTick - c.curTick);
  }

  /** Supersonic time grows by the elapsed time while supersonic and drops
      to zero otherwise. */
  lemma UpdateSupersonic(c: CarData, info: PlayerInfo, gameTick: int, extra: Option<ExtraPlayerInfo>)
    ensures var r := UpdateData(c, info, gameTick, extra);
      && (info.isSupersonic ==> r.supersonicTime == c.supersonicTime + TICK_TIME * (gameTick - c.curTick) as real)
      && (!info.isSupersonic ==> r.supersonicTime == 0.0)
      && (c.supersonicTime >= 0.0 && gameTick > c.curTick ==> (IsSupersonic(r) <==> info.isSupersonic))
  {
  }

  /** The demolition timer and the boost amount come from the sample. */
  lemma UpdateDemoAndBoostAmount(c: CarData, info: PlayerInfo, gameTick: int, extra: Option<ExtraPlayerInfo>)
    ensures var r := UpdateData(c, info, gameTick, extra);
      && (IsDemoed(r) <==> info.demolishedTimeout > 0.0)
      && r.boostAmount * 100.0 == info.boost
  {
  }

  /** The boost-active timer never goes negative, runs on while boost is
      held, and a running boost only stops once boost is released after
      the minimum boost time. */
  lemma UpdateBoost(c: CarData, info: PlayerInfo, gameTick: int, extra: Option<ExtraPlayerInfo>)
    requires gameTick > c.curTick
    ensures var r := UpdateData(c, info, gameTick, extra);
      && (c.boostActiveTime >= 0.0 ==> r.boostActiveTime >= 0.0)
      && (c.boostActiveTime >= 0.0 && info.lastInput.boost ==>
            r.boostActiveTime == c.boostActiveTime + TICK_TIME * (gameTick - c.curTick) as real && IsBoosting(r))
      && (IsBoosting(c) && !IsBoosting(r) ==> !info.lastInput.boost && c.boostActiveTime >= MIN_BOOST_TIME)
      && (!IsBoosting(c) && !info.lastInput.boost ==> r.boostActiveTime == c.boostActiveTime)
  {
    BoostStepMeaning(c.boostActiveTime, info.lastInput.boost, TICK_TIME * (gameTick - c.curTick) as real);
  }

  /** Unless overridden the handbrake stays within [0, 1], rising while
      held and falling otherwise. */
  lemma UpdateHandbrake(c: CarData, info: PlayerInfo, gameTick: int, extra: Option<ExtraPlayerInfo>)
    ensures var r := UpdateData(c, info, gameTick, extra);
      && (KeepsHandbrake(extra) ==> 0.0 <= r.handbrake <= 1.0)
      && (KeepsHandbrake(extra) && 0.0 <= c.handbrake <= 1.0 && gameTick >= c.curTick ==>
            (info.lastInput.handbrake ==> c.handbrake <= r.handbrake) && (!info.lastInput.handbrake ==> r.handbrake <= c.handbrake))
      && (!KeepsHandbrake(extra) ==> r.handbrake == extra.value.handbrake.value)
  {
    HandbrakeStepMeaning(c.handbrake, info.lastInput.handbrake, TICK_TIME * (gameTick - c.curTick) as real);
  }

  /** The air state decides contact and the jumping flag: on the ground
      all wheels touch and the air time is reset; in the air no wheel
      touches; the car is jumping exactly while the sample says so. */
  lemma UpdateAirState(c: CarData, info: PlayerInfo, gameTick: int, extra: Option<ExtraPlayerInfo>)
    ensures var r := UpdateData(c, info, gameTick, extra);
      && (r.isJumping <==> info.airState == Jumping)
      && (info.airState == OnGround ==> r.airTimeSinceJump == 0.0)
      && (KeepsWheels(extra) && info.airState == OnGround ==> CarOnGround(r))
      && (KeepsWheels(extra) && info.airState in {InAir, Dodging, DoubleJumping} ==> !CarOnGround(r))
      && (!KeepsWheels(extra) ==> r.wheelsWithContact == extra.value.wheelsWithContact.value)
  {
  }

  /** While jumping the car counts as on the ground only within the
      six-tick grace period, and a jump that starts from the ground
      restarts the jump timer. */
  lemma UpdateJumpContact(c: CarData, info: PlayerInfo, gameTick: int, extra: Option<ExtraPlayerInfo>)
    requires info.airState == Jumping
    ensures var r := UpdateData(c, info, gameTick, extra);
      && (c.prevAirState == OnGround ==> r.jumpTime == 0.0)
      && (KeepsWheels(extra) ==> (CarOnGround(r) <==> r.jumpTime <= JUMP_GROUND_GRACE))
  {
  }

  /** The jump timer reads the previous tick's jumping flag: outside the
      start of a jump it advances by the elapsed time exactly when the car
      has jumped or was jumping. */
  lemma UpdateJumpTimer(c: CarData, info: PlayerInfo, gameTick: int, extra: Option<ExtraPlayerInfo>)
    requires !(info.airState == Jumping && c.prevAirState == OnGround)
    ensures var r := UpdateData(c, info, gameTick, extra);
      && (info.hasJumped || c.isJumping ==> r.jumpTime == c.jumpTime + TICK_TIME * (gameTick - c.curTick) as real)
      && (!info.hasJumped && !c.isJumping ==> r.jumpTime == c.jumpTime)
  {
  }

  /** Jump and flip flags follow the sample. A dodge or double jump
      spends the flip and landing without either restores it; in the air
      the dodge timeout decides as well (see `UpdateAirTime`). */
  lemma UpdateFlipState(c: CarData, info: PlayerInfo, gameTick: int, extra: Option<ExtraPlayerInfo>)
    ensures var r := UpdateData(c, info, gameTick, extra);
      && r.hasJumped == info.hasJumped && r.hasDoubleJumped == info.hasDoubleJumped
      && r.hasFlipped == info.hasDodged && r.isHoldingJump == info.lastInput.jump
      && r.flipTime == info.dodgeElapsed
      && (IsFlipping(r) <==> info.hasDodged && info.dodgeElapsed < FLIP_TORQUE_TIME)
      && (info.hasDoubleJumped || info.hasDodged ==> !HasFlip(r))
      && (info.airState == OnGround && !info.hasDoubleJumped && !info.hasDodged ==> HasFlip(r))
  {
  }

  /** Off the ground the air time is read from the dodge timeout, so a car
      that has neither dodged nor double jumped keeps its flip exactly while
      no timeout runs or the running one has time left. */
  lemma UpdateAirTime(c: CarData, info: PlayerInfo, gameTick: int, extra: Option<ExtraPlayerInfo>)
    requires info.airState != OnGround
    ensures var r := UpdateData(c, info, gameTick, extra);
      && r.airTimeSinceJump == AirTimeFromTimeout(info.dodgeTimeout)
      && (!info.hasDodged && !info.hasDoubleJumped ==>
            (HasFlip(r) <==> info.dodgeTimeout == -1.0 || info.dodgeTimeout > 0.0))
  {
  }

  /** The demolition timer is the sample's timeout, with -1 read as zero. */
  lemma UpdateDemoTimer(c: CarData, info: PlayerInfo, gameTick: int, extra: Option<ExtraPlayerInfo>)
    ensures UpdateData(c, info, gameTick, extra).demoRespawnTimer
      == if info.demolishedTimeout == -1.0 then 0.0 else info.demolishedTimeout
  {
  }

  /** The flip torque is the dodge direction turned a quarter: its first
      two components are rewritten and the rest are kept. */
  lemma UpdateFlipTorque(c: CarData, info: PlayerInfo, gameTick: int, extra: Option<ExtraPlayerInfo>)
    requires |c.flipTorque| >= 2
    ensures var r := UpdateData(c, info, gameTick, extra);
      && |r.flipTorque| == |c.flipTorque|
      && r.flipTorque[0] == -info.dodgeDir.y && r.flipTorque[1] == info.dodgeDir.x
      && r.flipTorque[2..] == c.flipTorque[2..]
  {
  }

  /** Present override fields win; every field the override leaves out
      has the value the update computes without any override; the car
      contact is sticky unless both the contact id and its cooldown are
      reported. */
  lemma UpdateOverride(c: CarData, info: PlayerInfo, gameTick: int, e: ExtraPlayerInfo)
    ensures var r, base := UpdateData(c, info, gameTick, Some(e)), UpdateData(c, info, gameTick, None);
      && r == base.(wheelsWithContact := r.wheelsWithContact, handbrake := r.handbrake,
                    ballTouches := r.ballTouches, bumpVictimId := r.bumpVictimId,
                    isAutoflipping := r.isAutoflipping, autoflipTimer := r.autoflipTimer,
                    autoflipDirection := r.autoflipDirection)
      && (e.wheelsWithContact.Some? ==> r.wheelsWithContact == e.wheelsWithContact.value)
      && (e.wheelsWithContact.None? ==> r.wheelsWithContact == base.wheelsWithContact)
      && (e.handbrake.Some? ==> r.handbrake == e.handbrake.value)
      && (e.handbrake.None? ==> r.handbrake == base.handbrake)
      && (e.ballTouches.Some? ==> r.ballTouches == e.ballTouches.value)
      && (e.ballTouches.None? ==> r.ballTouches == base.ballTouches)
      && (e.isAutoflipping.Some? ==> r.isAutoflipping == e.isAutoflipping.value)
      && (e.isAutoflipping.None? ==> r.isAutoflipping == c.isAutoflipping)
      && (e.autoflipTimer.Some? ==> r.autoflipTimer == e.autoflipTimer.value)
      && (e.autoflipTimer.None? ==> r.autoflipTimer == c.autoflipTimer)
      && (e.autoflipDirection.Some? ==> r.autoflipDirection == e.autoflipDirection.value)
      && (e.autoflipDirection.None? ==> r.autoflipDirection == c.autoflipDirection)
      && base.bumpVictimId == c.bumpVictimId
      && (e.carContactId.Some? && e.carContactCooldownTimer.Some? ==>
            (HadCarContact(r) <==> e.carContactCooldownTimer.value > 0.0)
            && (HadCarContact(r) ==> r.bumpVictimId.value == e.carContactId.value))
      && (e.carContactId.None? || e.carContactCooldownTimer.None? ==> r.bumpVictimId == c.bumpVictimId)
  {
  }

  // ---------------------------------------------------------------------
  // Touch counting across updates

  /** Python's rounding never falls below the floor, so a non-negative
      value plus a whole number of ticks rounds to at least that number. */
  lemma RoundAtLeastWhole(x: real, n: int)
    requires x >= 0.0
    ensures Round(x + n as real) >= n
  {
    assert (x + n as real).Floor >= n;
  }

  /** A touch that lies within the elapsed ticks, at least one tick before
      the new clock, is counted. */
  lemma FreshTouchCounted(c: CarData, info: PlayerInfo, gameTick: int, extra: Option<ExtraPlayerInfo>)
    requires KeepsTouches(extra) && info.latestTouch.Some?
    requires var now := c.gameSeconds + TICK_TIME * (gameTick - c.curTick) as real;
      (now - info.latestTouch.value.gameSeconds) * TICKS_PER_SECOND as real <= (gameTick - c.curTick - 1) as real
    ensures UpdateData(c, info, gameTick, extra).ballTouches == c.ballTouches + 1
  {
    var now := c.gameSeconds + TICK_TIME * (gameTick - c.curTick) as real;
    var ticks := TicksSinceTouch(now, info.latestTouch.value);
    assert ticks < gameTick - c.curTick;
    UpdateTouches(c, info, gameTick, extra);
  }

  /** A touch is not counted twice: once the car's clock has reached the
      touch's timestamp, a later sample that reports the same touch does
      not count it again. */
  lemma NoRecount(c: CarData, info: PlayerInfo, gameTick: int, extra: Option<ExtraPlayerInfo>)
    requires KeepsTouches(extra) && gameTick > c.curTick
    requires info.latestTouch.Some? && info.latestTouch.value.gameSeconds <= c.gameSeconds
    ensures UpdateData(c, info, gameTick, extra).ballTouches == c.ballTouches
  {
    var n := gameTick - c.curTick;
    var now := c.gameSeconds + TICK_TIME * n as real;
    var x := (c.gameSeconds - info.latestTouch.value.gameSeconds) * TICKS_PER_SECOND as real;
    assert (now - info.latestTouch.value.gameSeconds) * TICKS_PER_SECOND as real == x + n as real;
    RoundAtLeastWhole(x, n);
    UpdateTouches(c, info, gameTick, extra);
  }

  // ---------------------------------------------------------------------
  // Traces of updates

  /** One telemetry sample handed to `update`. */
  datatype Sample = Sample(info: PlayerInfo, gameTick: int, extra: Option<ExtraPlayerInfo>)

  /** `states` are the car's states while it consumes `samples`: each state
      is the update of the one before it by the next sample. */
  predicate IsTrace(states: seq<CarData>, samples: seq<Sample>)
  {
    |states| == |samples| + 1
    && forall i :: 0 <= i < |samples| ==>
         states[i + 1] == UpdateData(states[i], samples[i].info, samples[i].gameTick, samples[i].extra)
  }

  /** The sample ticks strictly increase from `start`. */
  predicate TicksIncrease(start: int, samples: seq<Sample>)
  {
    && (|samples| > 0 ==> start < samples[0].gameTick)
    && forall i :: 0 <= i < |samples| - 1 ==> samples[i].gameTick < samples[i + 1].gameTick
  }

  /** Over any trace the game clock advances by exactly the elapsed ticks,
      and the team and hitbox never change. */
  lemma {:induction false} TraceClock(states: seq<CarData>, samples: seq<Sample>, k: nat)
    requires IsTrace(states, samples) && k <= |samples|
    ensures states[k].gameSeconds == states[0].gameSeconds + TicksToSeconds(states[k].curTick - states[0].curTick)
    ensures states[k].teamNum == states[0].teamNum && states[k].hitboxType == states[0].hitboxType
  {
    if k > 0 {
      TraceClock(states, samples, k - 1);
      var i := k - 1;
      UpdateClock(states[i], samples[i].info, samples[i].gameTick, samples[i].extra);
    }
  }

  /** While the car stays supersonic, its supersonic time grows by exactly
      the elapsed time. */
  lemma {:induction false} TraceSupersonic(states: seq<CarData>, samples: seq<Sample>, k: nat)
    requires IsTrace(states, samples) && k <= |samples|
    requires forall i :: 0 <= i < k ==> samples[i].info.isSupersonic
    ensures states[k].supersonicTime == states[0].supersonicTime + TicksToSeconds(states[k].curTick - states[0].curTick)
  {
    if k > 0 {
      TraceSupersonic(states, samples, k - 1);
      var i := k - 1;
      UpdateClock(states[i], samples[i].info, samples[i].gameTick, samples[i].extra);
      UpdateSupersonic(states[i], samples[i].info, samples[i].gameTick, samples[i].extra);
    }
  }

  /** While boost is held and the ticks advance, the boost-active timer
      runs without interruption from its start value. */
  lemma {:induction false} TraceBoostHeld(states: seq<CarData>, samples: seq<Sample>, k: nat)
    requires IsTrace(states, samples) && k <= |samples|
    requires states[0].boostActiveTime >= 0.0 && TicksIncrease(states[0].curTick, samples)
    requires forall i :: 0 <= i < k ==> samples[i].info.lastInput.boost
    ensures states[k].boostActiveTime == states[0].boostActiveTime + TicksToSeconds(states[k].curTick - states[0].curTick)
    ensures k > 0 ==> IsBoosting(states[k])
  {
    if k > 0 {
      TraceBoostHeld(states, samples, k - 1);
      var i := k - 1;
      if i > 0 {
        assert states[i].curTick == samples[i - 1].gameTick;
      }
      UpdateClock(states[i], samples[i].info, samples[i].gameTick, samples[i].extra);
      UpdateBoost(states[i], samples[i].info, samples[i].gameTick, samples[i].extra);
    }
  }

  /** Handbrake overrides within [0, 1] keep the handbrake within [0, 1]
      along any trace. */
  lemma {:induction false} TraceHandbrakeInRange(states: seq<CarData>, samples: seq<Sample>, k: nat)
    requires IsTrace(states, samples) && k <= |samples|
    requires 0.0 <= states[0].handbrake <= 1.0
    requires forall i :: 0 <= i < k ==>
      KeepsHandbrake(samples[i].extra) || 0.0 <= samples[i].extra.value.handbrake.value <= 1.0
    ensures 0.0 <= states[k].handbrake <= 1.0
  {
    if k > 0 {
      TraceHandbrakeInRange(states, samples, k - 1);
      var i := k - 1;
      UpdateHandbrake(states[i], samples[i].info, samples[i].gameTick, samples[i].extra);
    }
  }

  /** Without touch overrides, at most one touch is counted per sample. */
  lemma {:induction false} TraceTouchesBounded(states: seq<CarData>, samples: seq<Sample>, k: nat)
    requires IsTrace(states, samples) && k <= |samples|
    requires forall i :: 0 <= i < k ==> KeepsTouches(samples[i].extra)
    ensures states[0].ballTouches <= states[k].ballTouches <= states[0].ballTouches + k
  {
    if k > 0 {
      TraceTouchesBounded(states, samples, k - 1);
      var i := k - 1;
      UpdateTouches(states[i], samples[i].info, samples[i].gameTick, samples[i].extra);
    }
  }

  // ---------------------------------------------------------------------
  // The jump grace period

  /** Samples on consecutive ticks after `start`, all reporting a jump in
      progress, with the wheel contact left to the estimator. */
  predicate JumpHeld(start: int, samples: seq<Sample>)
  {
    forall i :: 0 <= i < |samples| ==>
      && samples[i].gameTick == start + i + 1
      && samples[i].info.airState == Jumping
      && samples[i].info.hasJumped
      && KeepsWheels(samples[i].extra)
  }

  /** The take-off tick: the jump timer restarts and the car is still on
      the ground. */
  lemma JumpTakeOff(c: CarData, s: Sample)
    requires c.prevAirState == OnGround
    requires s.info.airState == Jumping && KeepsWheels(s.extra)
    ensures var c1 := UpdateData(c, s.info, s.gameTick, s.extra);
      c1.jumpTime == 0.0 && c1.prevAirState == Jumping && CarOnGround(c1)
  {
    UpdateJumpContact(c, s.info, s.gameTick, s.extra);
  }

  /** One tick of a jump that is already under way: the timer advances by
      one tick time and the car is on the ground while it is within the
      grace period. */
  lemma JumpStep(c: CarData, s: Sample)
    requires c.prevAirState == Jumping
    requires s.gameTick == c.curTick + 1 && s.info.airState == Jumping && s.info.hasJumped && KeepsWheels(s.extra)
    ensures var c1 := UpdateData(c, s.info, s.gameTick, s.extra);
      && c1.jumpTime == c.jumpTime + TicksToSeconds(1)
      && c1.prevAirState == Jumping
      && (CarOnGround(c1) <==> c1.jumpTime <= JUMP_GROUND_GRACE)
  {
    UpdateJumpTimer(c, s.info, s.gameTick, s.extra);
    UpdateJumpContact(c, s.info, s.gameTick, s.extra);
  }

  /** A car that jumps off the ground counts as on the ground for the first
      seven samples of the jump (the take-off tick and six more), and as
      airborne from then on. */
  lemma {:induction false} JumpLeavesGroundAfterGrace(states: seq<CarData>, samples: seq<Sample>, k: nat)
    requires IsTrace(states, samples) && 1 <= k <= |samples|
    requires states[0].prevAirState == OnGround && JumpHeld(states[0].curTick, samples)
    ensures states[k].jumpTime == TicksToSeconds(k - 1)
    ensures states[k].prevAirState == Jumping
    ensures CarOnGround(states[k]) <==> k <= 7
  {
    var i := k - 1;
    if k == 1 {
      JumpTakeOff(states[0], samples[0]);
    } else {
      JumpLeavesGroundAfterGrace(states, samples, k - 1);
      assert states[i].curTick == samples[i - 1].gameTick;
      JumpStep(states[i], samples[i]);
    }
  }
}
