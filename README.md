# rlgym-compat state estimation, modelled in Dafny

rlgym-compat turns the telemetry packets of the RLBot game interface into
the observation state that RLGym bots expect. This project models the
state-keeping core of that library and proves properties of the model.

- **The car estimator** (`Car` in `rlgym_compat/car.py`). Each packet gives
  one sample per car. The estimator rebuilds the timers and flags the packet
  lacks from those samples: ball-touch count, supersonic time, boost-active
  time, handbrake level, jump timer, jump grace period, flip state and
  wheel contact. An optional extra-info record can override some fields.
  The model is the class `CarModel.Car`, whose fields are updated in place
  and whose flip torque is an `array`. `Car.Update` is proved equal to the
  pure function `CarModel.UpdateData` on the car's state as a value, and
  each method it calls (`ClockFrom` through `AutoflipFrom`) to the phase
  function of its part of the update. `SetIsFlipping` is proved equal to
  `WithIsFlipping`. `SetOnGround`, `ResetBallTouches` and `InvertedPhysics`
  state the fields they write and frame the rest. The lemmas of `CarProperties` prove what one update promises and what a run
  of updates promises over several ticks.
- **The legacy game state** (`GameState` in `rlgym_compat/game_state.py`).
  It keeps three per-slot arrays: ticks since the car was on the ground,
  air time since the jump, and whether the car has jumped. It also decodes
  player records, copies and reverses the boost pads, and records the last
  touch. The model is the class `LegacyState.GameState` over Dafny arrays.
  `LegacyState.SlotStep` is what one sample does to a slot.
- **The v1 adapter** (`V1GameState` in `rlgym_compat/v1_game_state.py`) and
  the v1 player record (`create_from_v2` in
  `rlgym_compat/v1/player_data.py`). The adapter keeps per-player boost
  pickup counters and ball-touched flags across packets. It numbers the
  spectator ids (blue from 1, orange from 5 or after the last blue car),
  finds the latest toucher, and rebuilds the v1 player list, ball and pads.
  The model is the class `V1State.V1GameState`. Its loops are proved
  against recursive specification functions (`CountAll`, `Numbered`,
  `Refreshed`), and what those functions mean is proved in separate
  lemmas (`CountersGrow`, `RecentTouchMarked`, `TouchedOnlyByRecentTouch`,
  `PickupsPerUpdate`, `NumberedRank`, `NumberedKeeps`, `NumberedDomain`,
  `RefreshedAt`).

Two behaviours of the code are worth stating up front:

- `Car.update` does not check that `game_tick` advances, so the model has
  no such precondition. Lemmas that need forward time take it as a
  hypothesis.
- The `Jumping` branch (`car.py:289-294`) sets `is_jumping` and, during the
  six-tick grace period, `on_ground` as well. The model keeps both, and
  `CarProperties.JumpLeavesGroundAfterGrace` proves the grace period.

Integers are unbounded. Timing is linear:
`TicksToSeconds(n) = n / 120` and `SecondsToTicks(s) = 120 s`. The tuning
constants `MIN_BOOST_TIME`, `DOUBLEJUMP_MAX_DELAY`, `FLIP_TORQUE_TIME`, the
powerslide rates and the hitbox tolerance are positive but otherwise
unspecified. Python's `round` is modelled exactly, rounding half to even, in
`Common.Round`.

## Model

| member | source | states |
|---|---|---|
| Common.Round | rlgym_compat/car.py:232-237 | Python's `int(round(x))` lands within half a unit of `x` and never below its floor |
| Common.Mirror | rlgym_compat/physics_object.py:19 | the inversion vector (-1, -1, 1) negates x and y and keeps z |
| Common.Invert | rlgym_compat/physics_object.py:38-42 | inverting mirrors the position and both velocities through (-1, -1, 1) |
| Common.InvertInvolution | rlgym_compat/physics_object.py:38-42 | inverting twice gives back the original view |
| CarModel.ContactCount | rlgym_compat/car.py:109-111 | the sum of the wheel flags is at most four |
| CarModel.ContactCountMeaning | rlgym_compat/car.py:109-111 | the sum of the wheel flags is how many of the four flags are set |
| CarModel.OnGroundAtMostOneWheelOff | rlgym_compat/car.py:109-111 | a car is on the ground exactly when at least three of its four wheels touch |
| CarModel.AllWheels | rlgym_compat/car.py:113-115 | after the `on_ground` setter, every wheel holds the assigned value and the getter reads it back |
| CarModel.Car.SetOnGround | rlgym_compat/car.py:113-115 | the setter writes the value into all four wheel flags |
| CarModel.WithIsFlipping | rlgym_compat/car.py:129-140 | after the `is_flipping` setter the getter returns the assigned value; setting true marks the car as flipped and keeps a running flip timer; setting false leaves `has_flipped` alone; only the flip fields change |
| CarModel.Car.SetIsFlipping | rlgym_compat/car.py:133-140 | the setter leaves the car in the state `WithIsFlipping` describes |
| CarModel.DetectHitboxFirstMatch | rlgym_compat/car.py:159-173 | the classifier returns the first reference shape that matches within the tolerance, and Octane when none matches |
| CarModel.CompatCarDataMeaning | rlgym_compat/car.py:175-214 | a new car takes its team, hitbox, ground contact, boost, air state and clock from the first sample; touches, contact, demolition, supersonic, boost, handbrake and jump timers start at zero |
| CarModel.Car.CreateCompat | rlgym_compat/car.py:175-214 | the constructed car holds exactly the state `CompatCarData` describes, with a fresh three-element flip torque |
| CarModel.Car.ResetBallTouches | rlgym_compat/car.py:216-217 | the touch counter is zero and nothing else changes |
| CarModel.Car.InvertedPhysics | rlgym_compat/car.py:146-150 | the getter returns the cached inverted view, or the inversion of the physics, and caches it without changing anything else |
| CarModel.TouchIncrementCounts | rlgym_compat/car.py:231-239 | at most one touch is counted per update, and one is counted exactly when the latest touch lies fewer ticks back than the elapsed ticks |
| CarModel.SupersonicStepMeaning | rlgym_compat/car.py:245-248 | supersonic time grows by the elapsed time while supersonic, drops to zero otherwise, and stays non-negative |
| CarModel.BoostStepMeaning | rlgym_compat/car.py:250-261 | boost starts at one interval when pressed; a running boost stops only when released after the minimum boost time, and otherwise runs on; the timer stays non-negative |
| CarModel.HandbrakeStepMeaning | rlgym_compat/car.py:263-267 | the handbrake stays in [0, 1], rises while held, falls otherwise and saturates at both ends |
| CarModel.AirStepMeaning | rlgym_compat/car.py:284-303 | on the ground all wheels touch, the car is not jumping and the air time is reset; in the air, dodging or double jumping no wheel touches and the car is not jumping; while jumping, the car is on the ground exactly within the grace period, and the jump timer restarts on take-off |
| CarModel.UpdateData | rlgym_compat/car.py:219-332 | an update moves the car's tick to the sample's tick and keeps the flip torque's length |
| CarModel.Car.Update | rlgym_compat/car.py:219-332 | after `update` the car's state equals `UpdateData` of its state before, and the flip torque array is updated in place |
| CarModel.Car.AdvanceFrom | rlgym_compat/car.py:226-306 | the sample's effect before any override is the clock and timer phases followed by the jump, air and physics phases |
| CarModel.Car.TickFrom | rlgym_compat/car.py:226-267 | the clock phase followed by the timer phase, with the elapsed time of the clock step |
| CarModel.Car.FlightFrom | rlgym_compat/car.py:269-306 | the jump phase, the air-state match, then the physics |
| CarModel.Car.ClockFrom | rlgym_compat/car.py:226-239 | the car's state after the clock step is `ClockPhase` of the state before |
| CarModel.Car.TimersFrom | rlgym_compat/car.py:240-267 | the car's state after the timer step is `TimerPhase` of the state before |
| CarModel.Car.JumpFrom | rlgym_compat/car.py:269-282 | the car's state after the jump step is `JumpPhase` of the state before |
| CarModel.Car.AirFrom | rlgym_compat/car.py:284-303 | the car's state after the air-state match is `AirPhase` of the state before |
| CarModel.Car.PhysicsFrom | rlgym_compat/car.py:305-306 | the car's state after the physics step is `PhysicsPhase` of the state before |
| CarModel.Car.SetPhysics | rlgym_compat/car.py:305-306 | the physics become the sample's and the cached inverted view is refreshed |
| CarModel.Car.OverrideFrom | rlgym_compat/car.py:309-330 | the car's state after the override is `ApplyExtra` of the state before |
| CarModel.Car.ContactFrom | rlgym_compat/car.py:310-324 | the car's state after the contact override is `ContactExtra` of the state before |
| CarModel.Car.AutoflipFrom | rlgym_compat/car.py:325-330 | the car's state after the autoflip override is `AutoflipExtra` of the state before |
| CarModel.Car.RememberAirState | rlgym_compat/car.py:332 | only the remembered air state changes, to the sample's |
| CarModel.Car.AdvanceClock | rlgym_compat/car.py:226-239 | the tick becomes the sample's, the clock advances by the elapsed ticks, and the touch counter grows by the touch increment |
| CarModel.Car.UpdateTimers | rlgym_compat/car.py:240-267 | demolition timer from the sample (0 when -1), supersonic, boost and handbrake timers by their step rules, boost amount from the sample |
| CarModel.Car.UpdateJumpFlags | rlgym_compat/car.py:269-282 | jump and flip flags from the sample, the first two torque components rewritten from the dodge direction, the jump timer advanced when the car has jumped or was jumping, the air time from the dodge timeout |
| CarModel.Car.MatchAirState | rlgym_compat/car.py:284-303 | contact, jumping flag, jump timer and air time take the values of the five-way match |
| CarModel.Car.ApplyContactOverride | rlgym_compat/car.py:310-324 | each present contact, handbrake or touch field replaces the computed one; the bump victim follows the contact id and cooldown |
| CarModel.Car.ApplyAutoflipOverride | rlgym_compat/car.py:325-330 | each present autoflip field replaces the computed one |
| CarProperties.UpdateClock | rlgym_compat/car.py:225-229 | the clock advances by exactly the elapsed ticks; team and hitbox never change |
| CarProperties.UpdatePhysics | rlgym_compat/car.py:305-306 | the physics come from the sample, the inverted view is the inversion of them, and the sample's air state is remembered |
| CarProperties.UpdateTouches | rlgym_compat/car.py:231-239 | without a touch override, at most one touch is counted, exactly when the latest touch lies within the elapsed ticks; an override value wins |
| CarProperties.UpdateSupersonic | rlgym_compat/car.py:245-248 | supersonic time grows by the elapsed time or drops to zero, so the car is supersonic after an update exactly when the sample says so |
| CarProperties.UpdateDemoAndBoostAmount | rlgym_compat/car.py:240-249 | the car is demolished exactly when the sample's timeout is positive; the boost amount is the sample's, scaled to [0, 1] units |
| CarProperties.UpdateBoost | rlgym_compat/car.py:250-261 | the boost-active timer stays non-negative, runs on while boost is held, stops only after release past the minimum boost time, and stays put while idle |
| CarProperties.UpdateHandbrake | rlgym_compat/car.py:263-267 | without a handbrake override the handbrake stays in [0, 1], rising while held and falling otherwise; an override value wins |
| CarProperties.UpdateAirState | rlgym_compat/car.py:284-303 | the car is jumping exactly when the sample says `Jumping`; on the ground it is on the ground with air time zero; in the air it is not on the ground, unless contact is overridden |
| CarProperties.UpdateJumpContact | rlgym_compat/car.py:289-294 | while jumping, a jump started from the ground restarts the timer, and the car is on the ground exactly within the grace period |
| CarProperties.UpdateJumpTimer | rlgym_compat/car.py:277-278 | outside a take-off, the jump timer advances by the elapsed time exactly when the car has jumped or was jumping on the previous tick |
| CarProperties.UpdateFlipState | rlgym_compat/car.py:117-131 | jump and flip flags and the flip time follow the sample; the car is flipping exactly when it dodged less than the flip torque time ago; a dodge or double jump spends the flip, and landing without either restores it; in the air `UpdateAirTime` says what the dodge timeout adds |
| CarProperties.UpdateAirTime | rlgym_compat/car.py:279-282 | off the ground the air time is read from the dodge timeout, so a car that has neither dodged nor double jumped keeps its flip exactly while no timeout runs or the running one has time left |
| CarProperties.UpdateDemoTimer | rlgym_compat/car.py:240-244 | the demolition timer is the sample's timeout, with -1 read as zero |
| CarProperties.UpdateFlipTorque | rlgym_compat/car.py:275-276 | the flip torque is the dodge direction turned a quarter: its first two components are rewritten and the rest kept |
| CarProperties.UpdateOverride | rlgym_compat/car.py:308-330 | present override fields win; every other field has the value computed without the override; the bump victim changes only when both contact id and cooldown are reported |
| CarProperties.RoundAtLeastWhole | rlgym_compat/car.py:232-238 | a non-negative amount plus n ticks rounds to at least n |
| CarProperties.FreshTouchCounted | rlgym_compat/car.py:231-239 | a touch at least one tick inside the elapsed interval is counted |
| CarProperties.NoRecount | rlgym_compat/car.py:231-239 | a touch the car's clock had already reached is not counted again by a later sample |
| CarProperties.TraceClock | rlgym_compat/car.py:226-229 | over any run of updates the game clock advances by exactly the elapsed ticks, and team and hitbox never change |
| CarProperties.TraceSupersonic | rlgym_compat/car.py:245-248 | while the car stays supersonic, its supersonic time grows by exactly the elapsed time |
| CarProperties.TraceBoostHeld | rlgym_compat/car.py:250-261 | while boost is held and the ticks advance, the boost-active timer runs without a break and the car is boosting |
| CarProperties.TraceHandbrakeInRange | rlgym_compat/car.py:263-267 | with overrides in [0, 1], the handbrake stays in [0, 1] over any run |
| CarProperties.TraceTouchesBounded | rlgym_compat/car.py:231-239 | without touch overrides, k updates count at most k touches and never lose one |
| CarProperties.JumpTakeOff | rlgym_compat/car.py:289-294 | on take-off the jump timer restarts and the car is still on the ground |
| CarProperties.JumpStep | rlgym_compat/car.py:277-294 | each further tick of a jump advances the timer by one tick and keeps the car on the ground only within the grace period |
| CarProperties.JumpLeavesGroundAfterGrace | rlgym_compat/car.py:289-294 | a car that jumps off the ground counts as on the ground for the take-off sample and six more, and as airborne from then on |
| LegacyState.HasJumpAsWrittenDeniesLandedCar | rlgym_compat/game_state.py:90 | with the ten-slot jumped list, `has_jump` as written is false even for a car that has just landed, whose own slot has not jumped |
| LegacyState.Reverse | rlgym_compat/game_state.py:34 | the reversal keeps the number of pads |
| LegacyState.ReverseInvolution | rlgym_compat/game_state.py:34 | reversing the pads twice gives back their original order |
| LegacyState.SampleOutcome | rlgym_compat/game_state.py:58-91 | landing restores jump and flip and reports the car on the ground; a jump spends the jump and keeps the flip; a dodge or double jump spends the flip; in the air, the ground grace counts the ticks since the car was last on the ground |
| LegacyState.AirborneTicksAccumulate | rlgym_compat/game_state.py:58-63 | without landing, the ground counter adds up every elapsed tick |
| LegacyState.SpentFlipStaysSpent | rlgym_compat/game_state.py:68-74 | once the flip is spent, further in-air, dodge or double-jump samples do not bring it back |
| LegacyState.JumpSpentUntilLanding | rlgym_compat/game_state.py:58-67 | once the car has jumped it keeps no jump until it lands |
| LegacyState.GameState.constructor | rlgym_compat/game_state.py:10-26 | scores zero, no last touch, no players, zeroed slot arrays, a ten-entry jumped list and pad arrays of the field's size |
| LegacyState.GameState.DecodePlayer | rlgym_compat/game_state.py:52-94 | slot `index` moves as `SlotStep` says, no other slot changes, and the record is `PlayerView` of the sample and the new slot |
| LegacyState.GameState.DecodePads | rlgym_compat/game_state.py:32-33 | each reported pad's activity is copied and the other pads keep theirs |
| LegacyState.GameState.InvertPads | rlgym_compat/game_state.py:34 | the inverted pads are the live pads in reverse order |
| LegacyState.GameState.DecodePlayers | rlgym_compat/game_state.py:39-46 | every packet player is decoded in order into its slot and record, marked as touching exactly when the packet's touch is real, by that player and recent |
| LegacyState.GameState.Decode | rlgym_compat/game_state.py:28-49 | scores, pads, inverted pads, ball and players as the packet says; the last touch moves only for a real touch; a player marked as touching is the last toucher |
| V1Player.CreateFromV2 | rlgym_compat/v1/player_data.py:26-50 | identity and score fields come from the arguments and the sample; demolished, on-ground, touched, jump and flip flags are the car's; a flip can be used exactly when it is available, the car is airborne and jump is not held |
| V1Player.ProjectionAfterUpdate | rlgym_compat/v1/player_data.py:38-49 | the record of a car just updated reports the sample's demolition, jump, flip, boost and physics, and the ground contact of the sample's air state |
| V1State.IndexOf | rlgym_compat/v1_game_state.py:42-50 | the first position of a car in the dictionary order |
| V1State.CountTeamStep | rlgym_compat/v1_game_state.py:42-50 | counting a team over one more car adds one exactly for a car of that team |
| V1State.CountTeamRankBelow | rlgym_compat/v1_game_state.py:42-50 | an earlier car of a team has a smaller rank than any later position |
| V1State.SpectatorIdsDistinct | rlgym_compat/v1_game_state.py:40-50 | spectator ids are pairwise distinct; blue ids lie in 1..number of blue cars, orange ids start at max(5, one past the last blue id) |
| V1State.NumberedDomain | rlgym_compat/v1_game_state.py:42-50 | numbering a team adds exactly that team's cars to the map and keeps every earlier entry |
| V1State.NumberedKeeps | rlgym_compat/v1_game_state.py:42-50 | numbering a team leaves every other entry's id unchanged |
| V1State.NumberedRank | rlgym_compat/v1_game_state.py:42-50 | a team car's id is the first id plus the number of team cars before it |
| V1State.NumberTeam | rlgym_compat/v1_game_state.py:42-50 | the numbering loop builds `Numbered` and returns the first id plus the team's size |
| V1State.SpectatorIds | rlgym_compat/v1_game_state.py:40-50 | every car in the dictionary order gets its `SpectatorId`, and every key of the map is a car of the wrapped state |
| V1State.LatestTouchIndex | rlgym_compat/v1_game_state.py:73-80 | the search returns the first position whose touch key is maximal, as Python's `max` does |
| V1State.LastTouchMeaning | rlgym_compat/v1_game_state.py:81-85 | with non-negative touch times, the last touch is -1 exactly when nobody has touched the ball, and otherwise a player whose touch is the latest |
| V1State.CountAllStep | rlgym_compat/v1_game_state.py:92-116 | counting one more player applies that player's update to the counters |
| V1State.CountersGrow | rlgym_compat/v1_game_state.py:94-115 | known players stay known, every packet player becomes known, a touch flag is never reset and a pickup count never decreases |
| V1State.RecentTouchMarked | rlgym_compat/v1_game_state.py:99-110 | a player whose touch is fewer than tick-skip ticks old is marked as touching |
| V1State.TouchedOnlyByRecentTouch | rlgym_compat/v1_game_state.py:96-110 | a player is marked as touching after an update only if it was marked before or the packet reports a recent touch for it |
| V1State.PickupsPerUpdate | rlgym_compat/v1_game_state.py:86-115 | with distinct ids, a packet player's pickups grow by one exactly when its boost rose above the old amount during play, and otherwise stay; absent players keep their counters |
| V1State.SortedCons | rlgym_compat/v1_game_state.py:59-60 | a record no larger than the head of a sorted list keeps it sorted |
| V1State.InsertByCarIdSorted | rlgym_compat/v1_game_state.py:59-60 | inserting a record keeps the list sorted by car id |
| V1State.InsertByCarIdPermutes | rlgym_compat/v1_game_state.py:59-60 | inserting a record adds exactly that record |
| V1State.SortByCarId | rlgym_compat/v1_game_state.py:59-60 | the sorted list is ordered by car id and holds the same records |
| V1State.Arrange | rlgym_compat/v1_game_state.py:59-60 | the records stay as built, or are sorted by car id when asked, a permutation in either case |
| V1State.PadFlags | rlgym_compat/v1_game_state.py:65-68 | a pad reads 1 exactly when its timer is zero and 0 exactly when it is not |
| V1State.Refreshed | rlgym_compat/v1_game_state.py:51-58 | one refreshed record per packet player |
| V1State.RefreshedAt | rlgym_compat/v1_game_state.py:51-58 | the record at each position is the refresh of that packet player from its car, its spectator id, its pickup count and its touch flag |
| V1State.BuildRecords | rlgym_compat/v1_game_state.py:51-58 | the loop refreshes each record from its car with its spectator id and counters, in packet order |
| V1State.V1GameState.constructor | rlgym_compat/v1_game_state.py:14-37 | scores zero, no last touch, no players, no ball or pads yet, empty counters, the given tick skip and sort choice |
| V1State.V1GameState.CountPlayers | rlgym_compat/v1_game_state.py:92-115 | the counters become `CountAll` of the counters before, and every packet player has both counters |
| V1State.V1GameState.RecalculateFields | rlgym_compat/v1_game_state.py:39-68 | the players are the refreshed records, arranged as asked; ball, inverted ball and both pad flag lists come from the wrapped state |
| V1State.V1GameState.UpdateScores | rlgym_compat/v1_game_state.py:71-85 | scores from the packet; the last touch is that of a first maximal touch key |
| V1State.V1GameState.Update | rlgym_compat/v1_game_state.py:70-117 | scores, last touch, counters, refreshed and arranged players, ball and pads, as the parts above state, with tick skip and sort choice kept |

The seven `CarModel.*Intro` lemmas (`ClockPhaseIntro` through
`AutoflipExtraIntro`) are proof helpers: they let the `Car` methods, which
write fields one at a time, conclude that the new state is the phase
function of the old one. They state nothing about the library beyond that.

## Left out

- Floating point: every quantity is an exact `real`. float32 storage,
  numpy casts and rounding of physical values are not modelled.
- Physics internals: orientation, Euler angles, rotation matrices and
  quaternions of `physics_object.py` are not part of this model. `Invert`
  covers the position and the two velocities, mirrored by (-1, -1, 1).
- The `__slots__`/`exec` generated initialiser of `Car` and the RLBot
  flatbuffer types are not modelled. The packet is plain datatypes in
  module `Packet`.
- Of `common_values`, the model fixes four values: `TICKS_PER_SECOND = 120`,
  `TICK_TIME = 1/120`, `BLUE_TEAM = 0` and `ORANGE_TEAM = 1`. The touch
  lemmas `FreshTouchCounted` and `NoRecount` rely on
  `TICK_TIME * TICKS_PER_SECOND == 1`. The other tuning constants
  (`MIN_BOOST_TIME`, `DOUBLEJUMP_MAX_DELAY`, `FLIP_TORQUE_TIME`, the
  powerslide rates) are positive but otherwise unspecified, and the hitbox
  tolerance is a single positive bound applied to each dimension.
- `compare_hitbox_shape` is not part of this model. It is assumed to
  compare each dimension within the tolerance.
- CarModel.Car.Update: the caller's ticks are not required to advance. The
  lemmas that need forward time take it as a hypothesis: `UpdateBoost`,
  `NoRecount` and `TraceBoostHeld` in their requires, and
  `UpdateSupersonic` and `UpdateHandbrake` inside their ensures.
- CarModel.UpdateData: its own contract states only the tick and the
  torque length. Its meaning is stated field by field by the
  `CarProperties.Update*` lemmas.
- The legacy boost-pickup heuristic (`game_state.py:82-86`) sets
  `boost_pickups` on the record that `decode` appends to the player list.
  `LegacyPlayer` omits that field, because its value depends on the
  defaults of the legacy `PlayerData()`, which are not part of this model.
- Legacy boost pads are booleans rather than float32 0/1 flags.
- LegacyState.GameState.DecodePlayer: requires `index < 10`. Python writes
  the ten-entry jumped list for an `OnGround` or `Jumping` sample and raises
  an IndexError there for an index of 10 or more. The corrected `has_jump`
  reads that list for every sample.
- LegacyState.GameState.DecodePlayers: requires at most ten players, for the
  same reason. Past ten players Python raises an IndexError only for an
  `OnGround` or `Jumping` sample (`game_state.py:61,67`); `InAir`, `Dodging`
  and `DoubleJumping` samples at indices 10 to 63 decode without error, and
  the model does not cover them.
- LegacyState.GameState.Decode: requires at most ten players, as
  `DecodePlayers` does, and at most as many reported pads as the field has,
  past which Python raises an IndexError (`game_state.py:33`).
- The wrapped v2 game state is not part of this model. Its cars, pads and
  ball after the packet are a parameter (`V2View`), and so are the tracked
  cars' boost amounts before it.
- `create_base` and `update_from_v2`, which the adapter calls, are not in
  `v1/player_data.py`. The model takes them as one function parameter
  (`Refresh`).
- V1State.SortByCarId: proves sorted order and the same records, not the
  stability of Python's `list.sort`.
- V1State.SpectatorIds: promises every car in the dictionary order its id,
  and that every key is a key of the cars map. It does not state that the
  keys are exactly the cars in the dictionary order.
- V1State.LatestTouchIndex: requires a non-empty player list, because
  Python's `max` raises on an empty one.
- V1State.V1GameState.Update: requires every packet player to be a tracked
  car, because the refresh loop raises a KeyError otherwise.
- V1State.PickupsPerUpdate: requires distinct player ids. With a repeated id
  a player can gain more than one pickup per update.
- Clocks, I/O and the RLBot connection are not part of this model.

## Findings

| source | as written | input that shows it | evidently intended | confidence | as-written member | corrected member |
|---|---|---|---|---|---|---|
| rlgym_compat/game_state.py:90 | `has_jump = not self.has_jumped` negates the whole ten-entry list, which is never empty, so every player reports no jump | a car reporting `OnGround`, whose slot has just been reset to not jumped, gets `has_jump == False` | `has_jump = not self.has_jumped[index]` | not executed | LegacyState.HasJumpAsWritten | LegacyState.PlayerView |
