/** Shared vocabulary: optional values, the simulation's timing constants,
    Python's `round`, and the physics view of one body. */
module Common {

  datatype Option<+T> = None | Some(value: T) {
    /** The carried value, or `default` when there is none. */
    function GetOr(default: T): T
    {
      if Some? then value else default
    }
  }

  /** A strictly positive real. */
  type PosReal = x: real | x > 0.0 witness 1.0

  /** The simulation runs at a fixed 120 ticks per second. */
  const TICKS_PER_SECOND: int := 120
  const TICK_TIME: real := 1.0 / 120.0

  /** The duration of `ticks` ticks, `TICK_TIME * ticks`, in seconds. */
  function TicksToSeconds(ticks: int): real
  {
    ticks as real / 120.0
  }

  /** A duration in seconds counted in ticks, `seconds * TICKS_PER_SECOND`. */
  function SecondsToTicks(seconds: real): real
  {
    seconds * 120.0
  }

  /** Tuning constants of the simulation; only their positivity is assumed. */
  const MIN_BOOST_TIME: PosReal
  const DOUBLEJUMP_MAX_DELAY: PosReal
  const FLIP_TORQUE_TIME: PosReal
  const POWERSLIDE_RISE_RATE: PosReal
  const POWERSLIDE_FALL_RATE: PosReal
  /** Per-dimension tolerance of the hitbox shape comparison. */
  const HITBOX_TOLERANCE: PosReal

  /** Team numbers. */
  const BLUE_TEAM: int := 0
  const ORANGE_TEAM: int := 1

  /** Python's `int(round(x))`: round to nearest, ties to the even neighbour. */
  function Round(x: real): (r: int)
    ensures x - 0.5 <= r as real <= x + 0.5
    ensures x.Floor <= r
  {
    var f := x.Floor;
    var d := x - f as real;
    if d < 0.5 then f
    else if d > 0.5 then f + 1
    else if f % 2 == 0 then f
    else f + 1
  }

  function Min(a: real, b: real): real { if a <= b then a else b }
  function Max(a: real, b: real): real { if a >= b then a else b }
  function MaxInt(a: int, b: int): int { if a >= b then a else b }

  datatype Vec3 = Vec3(x: real, y: real, z: real)

  /** Position and velocities of one body. */
  datatype Physics = Physics(position: Vec3, linearVelocity: Vec3, angularVelocity: Vec3)

  const ZERO_PHYSICS: Physics := Physics(Vec3(0.0, 0.0, 0.0), Vec3(0.0, 0.0, 0.0), Vec3(0.0, 0.0, 0.0))

  /** Componentwise product with (-1, -1, 1): the half-turn about the vertical axis. */
  function Mirror(v: Vec3): (r: Vec3)
    ensures r.z == v.z && r.x == -v.x && r.y == -v.y
  {
    Vec3(-v.x, -v.y, v.z)
  }

  /** The view of the same body from the other team's side of the field. */
  function Invert(p: Physics): (r: Physics)
    ensures r.position == Mirror(p.position)
    ensures r.linearVelocity == Mirror(p.linearVelocity)
    ensures r.angularVelocity == Mirror(p.angularVelocity)
  {
    Physics(Mirror(p.position), Mirror(p.linearVelocity), Mirror(p.angularVelocity))
  }

  /** Inverting twice gives back the original view. */
  lemma InvertInvolution(p: Physics)
    ensures Invert(Invert(p)) == p
  {
  }
}
