/** The legacy game state: per-slot ground and air bookkeeping kept in
    fixed-size arrays, decoded player records, boost pads and the last
    touch. */
module LegacyState {
  import opened Common
  import opened Packet

  /** Size of the per-slot tick arrays. */
  const SLOT_COUNT: nat := 64
  /** Size of the per-slot jumped list. */
  const JUMP_SLOT_COUNT: nat := 10
  /** Air time written when the car dodges or double jumps: the flip is gone. */
  const SPENT_FLIP_AIR_TIME: int := 150
  /** Ticks off the ground during which a car still reports `on_ground`. */
  const GROUND_GRACE_TICKS: int := 6

  /** The legacy telemetry packet: the fields `decode` reads. The touch is
      always present; a game time of zero means there has been none. */
  datatype LegacyPacket = LegacyPacket(
    blueScore: int,
    orangeScore: int,
    padActive: seq<bool>,
    ballPhysics: Physics,
    latestTouch: Touch,
    players: seq<PlayerInfo>,
    secondsElapsed: real)

  /** A decoded player. */
  datatype LegacyPlayer = LegacyPlayer(
    carId: int,
    teamNum: int,
    matchGoals: int,
    matchSaves: int,
    matchShots: int,
    matchDemolishes: int,
    isDemoed: bool,
    onGround: bool,
    ballTouched: bool,
    hasJump: bool,
    hasFlip: bool,
    boostAmount: real,
    carData: Physics,
    invertedCarData: Physics)

  /** What the three per-slot arrays hold for one slot. */
  datatype Slot = Slot(onGroundTicks: int, airTimeSinceJump: int, hasJumped: bool)

  /** The slot after a sample with the given air state. */
  function SlotStep(s: Slot, state: AirState, ticksElapsed: int): Slot
  {
    match state
    case OnGround => Slot(0, 0, false)
    case Jumping => Slot(s.onGroundTicks + ticksElapsed, 0, true)
    case Dodging => Slot(s.onGroundTicks + ticksElapsed, SPENT_FLIP_AIR_TIME, s.hasJumped)
    case DoubleJumping => Slot(s.onGroundTicks + ticksElapsed, SPENT_FLIP_AIR_TIME, s.hasJumped)
    case InAir => Slot(s.onGroundTicks + ticksElapsed, s.airTimeSinceJump + ticksElapsed, s.hasJumped)
  }

  /** The player record built from a sample and its updated slot. */
  function PlayerView(info: PlayerInfo, index: int, slot: Slot): LegacyPlayer
  {
    LegacyPlayer(
      carId := index,
      teamNum := info.team,
      matchGoals := info.scoreInfo.goals,
      matchSaves := info.scoreInfo.saves,
      matchShots := info.scoreInfo.shots,
      matchDemolishes := info.scoreInfo.demolitions,
      isDemoed := info.demolishedTimeout > 0.0,
      onGround := info.airState == OnGround || slot.onGroundTicks <= GROUND_GRACE_TICKS,
      ballTouched := false,
      hasJump := !slot.hasJumped,
      hasFlip := slot.airTimeSinceJump < SPENT_FLIP_AIR_TIME,
      boostAmount := info.boost / 100.0,
      carData := info.physics,
      invertedCarData := Invert(info.physics))
  }

  /** The `has_jump` expression as written: it negates the whole jumped
      list, which is true only for an empty list. */
  function HasJumpAsWritten(hasJumped: seq<bool>, index: int): bool
  {
    |hasJumped| == 0
  }

  /** With the ten-slot list, the expression as written denies every player
      a jump, even one that has just landed, whose own slot says it has not
      jumped. */
  lemma HasJumpAsWrittenDeniesLandedCar(info: PlayerInfo, before: Slot)
    requires info.airState == OnGround
    ensures var jumped := seq(JUMP_SLOT_COUNT, j => false);
      && !HasJumpAsWritten(jumped, 0)
      && PlayerView(info, 0, SlotStep(before, info.airState, 1)).hasJump
  {
  }

  /** A player is marked as touching the ball when the packet's touch is
      real, is by that player, and is younger than `tickSkip` ticks. */
  predicate Touched(packet: LegacyPacket, index: int, tickSkip: int)
  {
    && packet.latestTouch.gameSeconds > 0.0
    && index == packet.latestTouch.playerIndex
    && packet.secondsElapsed - packet.latestTouch.gameSeconds < tickSkip as real / 120.0
  }

  /** The reversal of a sequence. */
  function Reverse<T>(s: seq<T>): (r: seq<T>)
    ensures |r| == |s|
  {
    seq(|s|, i requires 0 <= i < |s| => s[|s| - 1 - i])
  }

  /** Reversing twice gives back the pads in their original order. */
  lemma ReverseInvolution<T>(s: seq<T>)
    ensures Reverse(Reverse(s)) == s
  {
    assert forall i :: 0 <= i < |s| ==> Reverse(Reverse(s))[i] == s[i];
  }

  // ---------------------------------------------------------------------
  // What a sample does to a slot

  /** The slot and the reported flags after one sample: landing restores
      jump and flip; a jump keeps the flip but spends the jump; a dodge or
      double jump spends the flip; the ground grace counts elapsed ticks
      since the car last reported being on the ground. */
  lemma SampleOutcome(info: PlayerInfo, index: int, s: Slot, ticksElapsed: int)
    requires ticksElapsed >= 0 && s.onGroundTicks >= 0 && s.airTimeSinceJump >= 0
    ensures var s1 := SlotStep(s, info.airState, ticksElapsed);
      var p := PlayerView(info, index, s1);
      && s1.onGroundTicks >= 0 && s1.airTimeSinceJump >= 0
      && (info.airState == OnGround ==> p.onGround && p.hasJump && p.hasFlip)
      && (info.airState == Jumping ==> !p.hasJump && p.hasFlip)
      && (info.airState in {Dodging, DoubleJumping} ==> !p.hasFlip)
      && (info.airState != OnGround ==>
            s1.onGroundTicks == s.onGroundTicks + ticksElapsed
            && (p.onGround <==> s.onGroundTicks + ticksElapsed <= GROUND_GRACE_TICKS))
      && (info.airState == InAir ==>
            && p.hasJump == !s.hasJumped
            && (p.hasFlip <==> s.airTimeSinceJump + ticksElapsed < SPENT_FLIP_AIR_TIME))
  {
  }

  /** A sequence of samples for one slot: air state and elapsed ticks. */
  function SlotRun(s: Slot, samples: seq<(AirState, int)>): Slot
    decreases |samples|
  {
    if |samples| == 0 then s
    else SlotRun(SlotStep(s, samples[0].0, samples[0].1), samples[1..])
  }

  /** Total elapsed ticks of a sequence of samples. */
  function TotalTicks(samples: seq<(AirState, int)>): int
    decreases |samples|
  {
    if |samples| == 0 then 0 else samples[0].1 + TotalTicks(samples[1..])
  }

  /** Without landing, the ground counter adds up every elapsed tick. */
  lemma {:induction false} AirborneTicksAccumulate(s: Slot, samples: seq<(AirState, int)>)
    requires forall i :: 0 <= i < |samples| ==> samples[i].0 != OnGround
    ensures SlotRun(s, samples).onGroundTicks == s.onGroundTicks + TotalTicks(samples)
    decreases |samples|
  {
    if |samples| > 0 {
      AirborneTicksAccumulate(SlotStep(s, samples[0].0, samples[0].1), samples[1..]);
    }
  }

  /** Once the flip is spent it stays spent until the car lands or jumps
      again: further in-air, dodge or double-jump samples do not bring it
      back. */
  lemma {:induction false} SpentFlipStaysSpent(s: Slot, samples: seq<(AirState, int)>)
    requires s.airTimeSinceJump >= SPENT_FLIP_AIR_TIME
    requires forall i :: 0 <= i < |samples| ==> samples[i].0 in {InAir, Dodging, DoubleJumping} && samples[i].1 >= 0
    ensures SlotRun(s, samples).airTimeSinceJump >= SPENT_FLIP_AIR_TIME
    decreases |samples|
  {
    if |samples| > 0 {
      SpentFlipStaysSpent(SlotStep(s, samples[0].0, samples[0].1), samples[1..]);
    }
  }

  /** Once the car has jumped it keeps no jump until it lands. */
  lemma {:induction false} JumpSpentUntilLanding(s: Slot, samples: seq<(AirState, int)>)
    requires s.hasJumped
    requires forall i :: 0 <= i < |samples| ==> samples[i].0 != OnGround
    ensures SlotRun(s, samples).hasJumped
    decreases |samples|
  {
    if |samples| > 0 {
      JumpSpentUntilLanding(SlotStep(s, samples[0].0, samples[0].1), samples[1..]);
    }
  }

  // ---------------------------------------------------------------------
  // The game state, updated in place

  class GameState {
    var blueScore: int
    var orangeScore: int
    var lastTouch: int
    var players: seq<LegacyPlayer>
    var onGroundTicks: array<int>
    var airTimeSinceJump: array<int>
    var hasJumped: array<bool>
    var ball: Physics
    var invertedBall: Physics
    var boostPads: array<bool>
    var invertedBoostPads: array<bool>

    ghost predicate Valid()
      reads this
    {
      && onGroundTicks.Length == SLOT_COUNT
      && airTimeSinceJump.Length == SLOT_COUNT
      && onGroundTicks != airTimeSinceJump
      && hasJumped.Length == JUMP_SLOT_COUNT
      && invertedBoostPads.Length == boostPads.Length
      && invertedBoostPads != boostPads
      && hasJumped != boostPads && hasJumped != invertedBoostPads
    }

    /** What the per-slot arrays hold for slot `j`. */
    ghost function SlotAt(j: int): Slot
      requires Valid() && 0 <= j < JUMP_SLOT_COUNT
      reads this, onGroundTicks, airTimeSinceJump, hasJumped
    {
      Slot(onGroundTicks[j], airTimeSinceJump[j], hasJumped[j])
    }

    /** A fresh state for a field with `padCount` boost pads. */
    constructor(padCount: nat)
      ensures Valid()
      ensures fresh(onGroundTicks) && fresh(airTimeSinceJump) && fresh(hasJumped)
      ensures fresh(boostPads) && fresh(invertedBoostPads)
      ensures blueScore == 0 && orangeScore == 0 && lastTouch == -1 && players == []
      ensures forall j :: 0 <= j < SLOT_COUNT ==> onGroundTicks[j] == 0 && airTimeSinceJump[j] == 0
      ensures forall j :: 0 <= j < JUMP_SLOT_COUNT ==> !hasJumped[j]
      ensures boostPads.Length == padCount
      ensures forall j :: 0 <= j < padCount ==> !boostPads[j] && !invertedBoostPads[j]
    {
      blueScore := 0;
      orangeScore := 0;
      lastTouch := -1;
      players := [];
      onGroundTicks := new int[SLOT_COUNT](_ => 0);
      airTimeSinceJump := new int[SLOT_COUNT](_ => 0);
      hasJumped := new bool[JUMP_SLOT_COUNT](_ => false);
      ball := ZERO_PHYSICS;
      invertedBall := ZERO_PHYSICS;
      boostPads := new bool[padCount](_ => false);
      invertedBoostPads := new bool[padCount](_ => false);
    }

    /** Updates slot `index` from the sample's air state and builds the
      player record; no other slot changes. */
    method DecodePlayer(info: PlayerInfo, index: nat, ticksElapsed: int) returns (p: LegacyPlayer)
      requires Valid() && index < JUMP_SLOT_COUNT
      modifies onGroundTicks, airTimeSinceJump, hasJumped
      ensures SlotAt(index) == SlotStep(old(SlotAt(index)), info.airState, ticksElapsed)
      ensures forall j :: 0 <= j < SLOT_COUNT && j != index ==>
        onGroundTicks[j] == old(onGroundTicks[j]) && airTimeSinceJump[j] == old(airTimeSinceJump[j])
      ensures forall j :: 0 <= j < JUMP_SLOT_COUNT && j != index ==> hasJumped[j] == old(hasJumped[j])
      ensures p == PlayerView(info, index, SlotAt(index))
    {
      if info.airState == OnGround {
        onGroundTicks[index] := 0;
        airTimeSinceJump[index] := 0;
        hasJumped[index] := false;
      } else {
        onGroundTicks[index] := onGroundTicks[index] + ticksElapsed;
        if info.airState == Jumping {
          airTimeSinceJump[index] := 0;
          hasJumped[index] := true;
        } else if info.airState in {DoubleJumping, Dodging} {
          airTimeSinceJump[index] := SPENT_FLIP_AIR_TIME;
        } else {
          airTimeSinceJump[index] := airTimeSinceJump[index] + ticksElapsed;
        }
      }
      p := LegacyPlayer(
        carId := index,
        teamNum := info.team,
        matchGoals := info.scoreInfo.goals,
        matchSaves := info.scoreInfo.saves,
        matchShots := info.scoreInfo.shots,
        matchDemolishes := info.scoreInfo.demolitions,
        isDemoed := info.demolishedTimeout > 0.0,
        onGround := info.airState == OnGround || onGroundTicks[index] <= GROUND_GRACE_TICKS,
        ballTouched := false,
        hasJump := !hasJumped[index],
        hasFlip := airTimeSinceJump[index] < SPENT_FLIP_AIR_TIME,
        boostAmount := info.boost / 100.0,
        carData := info.physics,
        invertedCarData := Invert(info.physics));
    }

    /** Copies the packet's pad activity into the live pads. */
    method DecodePads(padActive: seq<bool>)
      requires Valid() && |padActive| <= boostPads.Length
      modifies boostPads
      ensures forall j :: 0 <= j < |padActive| ==> boostPads[j] == padActive[j]
      ensures forall j :: |padActive| <= j < boostPads.Length ==> boostPads[j] == old(boostPads[j])
    {
      var i := 0;
      while i < |padActive|
        invariant 0 <= i <= |padActive|
        invariant forall j :: 0 <= j < i ==> boostPads[j] == padActive[j]
        invariant forall j :: i <= j < boostPads.Length ==> boostPads[j] == old(boostPads[j])
      {
        boostPads[i] := padActive[i];
        i := i + 1;
      }
    }

    /** Writes the live pads, in reverse order, into the inverted pads. */
    method InvertPads()
      requires Valid()
      modifies invertedBoostPads
      ensures invertedBoostPads[..] == Reverse(boostPads[..])
    {
      var n := boostPads.Length;
      var i := 0;
      while i < n
        invariant 0 <= i <= n
        invariant forall j :: 0 <= j < i ==> invertedBoostPads[j] == boostPads[n - 1 - j]
      {
        invertedBoostPads[i] := boostPads[n - 1 - i];
        i := i + 1;
      }
    }

    /** Decodes every player in packet order, marking the touching one. */
    method DecodePlayers(packet: LegacyPacket, ticksElapsed: int, tickSkip: int)
      requires Valid() && |packet.players| <= JUMP_SLOT_COUNT
      modifies this`players, onGroundTicks, airTimeSinceJump, hasJumped
      ensures forall j :: 0 <= j < |packet.players| ==>
        SlotAt(j) == SlotStep(old(SlotAt(j)), packet.players[j].airState, ticksElapsed)
      ensures forall j :: |packet.players| <= j < SLOT_COUNT ==>
        onGroundTicks[j] == old(onGroundTicks[j]) && airTimeSinceJump[j] == old(airTimeSinceJump[j])
      ensures forall j :: |packet.players| <= j < JUMP_SLOT_COUNT ==> hasJumped[j] == old(hasJumped[j])
      ensures |players| == |packet.players|
      ensures forall j :: 0 <= j < |players| ==>
        players[j] == PlayerView(packet.players[j], j, SlotAt(j)).(ballTouched := Touched(packet, j, tickSkip))
    {
      players := [];
      var i := 0;
      while i < |packet.players|
        invariant 0 <= i <= |packet.players| && |players| == i
        invariant forall j :: 0 <= j < i ==>
          SlotAt(j) == SlotStep(old(SlotAt(j)), packet.players[j].airState, ticksElapsed)
        invariant forall j :: i <= j < SLOT_COUNT ==>
          onGroundTicks[j] == old(onGroundTicks[j]) && airTimeSinceJump[j] == old(airTimeSinceJump[j])
        invariant forall j :: i <= j < JUMP_SLOT_COUNT ==> hasJumped[j] == old(hasJumped[j])
        invariant forall j :: 0 <= j < i ==>
          players[j] == PlayerView(packet.players[j], j, SlotAt(j)).(ballTouched := Touched(packet, j, tickSkip))
      {
        var player := DecodePlayer(packet.players[i], i, ticksElapsed);
        if Touched(packet, i, tickSkip) {
          player := player.(ballTouched := true);
        }
        players := players + [player];
        i := i + 1;
      }
    }

    /** Consumes one legacy packet. */
    method Decode(packet: LegacyPacket, ticksElapsed: int, tickSkip: int)
      requires Valid()
      requires |packet.padActive| <= boostPads.Length && |packet.players| <= JUMP_SLOT_COUNT
      modifies this, onGroundTicks, airTimeSinceJump, hasJumped, boostPads, invertedBoostPads
      ensures Valid()
      ensures onGroundTicks == old(onGroundTicks) && airTimeSinceJump == old(airTimeSinceJump)
      ensures hasJumped == old(hasJumped)
      ensures boostPads == old(boostPads) && invertedBoostPads == old(invertedBoostPads)
      ensures blueScore == packet.blueScore && orangeScore == packet.orangeScore
      ensures forall j :: 0 <= j < |packet.padActive| ==> boostPads[j] == packet.padActive[j]
      ensures forall j :: |packet.padActive| <= j < boostPads.Length ==> boostPads[j] == old(boostPads[j])
      ensures invertedBoostPads[..] == Reverse(boostPads[..])
      ensures ball == packet.ballPhysics && invertedBall == Invert(packet.ballPhysics)
      ensures forall j :: 0 <= j < |packet.players| ==>
        SlotAt(j) == SlotStep(old(SlotAt(j)), packet.players[j].airState, ticksElapsed)
      ensures forall j :: |packet.players| <= j < SLOT_COUNT ==>
        onGroundTicks[j] == old(onGroundTicks[j]) && airTimeSinceJump[j] == old(airTimeSinceJump[j])
      ensures forall j :: |packet.players| <= j < JUMP_SLOT_COUNT ==> hasJumped[j] == old(hasJumped[j])
      ensures |players| == |packet.players|
      ensures forall j :: 0 <= j < |players| ==>
        players[j] == PlayerView(packet.players[j], j, SlotAt(j)).(ballTouched := Touched(packet, j, tickSkip))
      ensures lastTouch == if packet.latestTouch.gameSeconds > 0.0 then packet.latestTouch.playerIndex else old(lastTouch)
      ensures forall j :: 0 <= j < |players| && players[j].ballTouched ==> lastTouch == j
    {
      blueScore := packet.blueScore;
      orangeScore := packet.orangeScore;
      DecodePads(packet.padActive);
      InvertPads();
      ball := packet.ballPhysics;
      invertedBall := Invert(ball);
      DecodePlayers(packet, ticksElapsed, tickSkip);
      if packet.latestTouch.gameSeconds > 0.0 {
        lastTouch := packet.latestTouch.playerIndex;
      }
    }
  }
}
