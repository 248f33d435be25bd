/** The decision stage: a three-mode controller (`forward`, `stop`,
    `pickup`) that turns the bearings left by perception and the rover's
    kinematic state into throttle, brake and steering commands, a mode, the
    pickup request and the samples-found count. */
module Decision {
  import opened RoverState

  /** Steering is clamped to plus or minus this many degrees. */
  const SteerLimit: real := 15.0
  /** Below or at this speed a stopped rover may turn or set off. */
  const StopSpeed: real := 0.2
  /** The radians-to-degrees factor `180 / pi`. */
  const DegreesPerRadian: real := 180.0 / Pi

  /** The controller's configuration, fixed for a run. */
  datatype DriveConfig = DriveConfig(stopForward: int, goForward: int, maxVel: real,
                                     throttleSet: real, brakeSet: real)

  /** What the controller reads and never writes. */
  datatype Percepts = Percepts(navAngles: Option<seq<real>>, vel: real,
                               nearSample: bool, pickingUp: bool)

  /** What the controller writes (and also reads). */
  datatype Controls = Controls(mode: Mode, flag: int, sendPickup: bool, samplesFound: int,
                               throttle: real, brake: real, steer: real)

  // ---------------------------------------------------------------------------
  // Mean bearing and the steering clamp
  // ---------------------------------------------------------------------------

  function Sum(s: seq<real>): real
  {
    if |s| == 0 then 0.0 else s[0] + Sum(s[1..])
  }

  function Mean(s: seq<real>): real
    requires |s| > 0
  {
    Sum(s) / |s| as real
  }

  function ToDegrees(angles: seq<real>): (d: seq<real>)
    ensures |d| == |angles|
  {
    seq(|angles|, k requires 0 <= k < |angles| => angles[k] * DegreesPerRadian)
  }

  /** Converting every bearing to degrees scales their sum by the same factor. */
  lemma {:induction false} SumToDegrees(angles: seq<real>)
    ensures Sum(ToDegrees(angles)) == Sum(angles) * DegreesPerRadian
  {
    if |angles| > 0 {
      SumToDegrees(angles[1..]);
      assert ToDegrees(angles)[1..] == ToDegrees(angles[1..]);
    }
  }

  /** `mean(nav_angles * 180 / pi)`: the mean of the bearings in degrees is
      the mean bearing converted to degrees. */
  function MeanBearing(angles: seq<real>): (r: real)
    requires |angles| > 0
    ensures r == Mean(angles) * DegreesPerRadian
  {
    SumToDegrees(angles);
    var n, total := |angles| as real, Sum(angles);
    var q := total / n;
    assert total * DegreesPerRadian == (q * DegreesPerRadian) * n by {
      assert total == q * n;
    }
    assert (total * DegreesPerRadian) / n == q * DegreesPerRadian;
    Mean(ToDegrees(angles))
  }

  /** `clip(v, -15, 15)`. */
  function ClipSteer(v: real): (r: real)
    ensures -SteerLimit <= r <= SteerLimit
    ensures -SteerLimit <= v <= SteerLimit ==> r == v
    ensures v < -SteerLimit ==> r == -SteerLimit
    ensures v > SteerLimit ==> r == SteerLimit
  {
    if v < -SteerLimit then -SteerLimit else if v > SteerLimit then SteerLimit else v
  }

  lemma {:induction false} SumBetween(s: seq<real>, lo: real, hi: real)
    requires forall k :: 0 <= k < |s| ==> lo <= s[k] <= hi
    ensures |s| as real * lo <= Sum(s) <= |s| as real * hi
  {
    if |s| > 0 {
      SumBetween(s[1..], lo, hi);
    }
  }

  /** A mean lies between any bounds of its elements. */
  lemma MeanBetween(s: seq<real>, lo: real, hi: real)
    requires |s| > 0
    requires forall k :: 0 <= k < |s| ==> lo <= s[k] <= hi
    ensures lo <= Mean(s) <= hi
  {
    SumBetween(s, lo, hi);
    var n := |s| as real;
    assert Sum(s) / n >= lo by { assert Sum(s) >= n * lo; }
    assert Sum(s) / n <= hi by { assert Sum(s) <= n * hi; }
  }

  // ---------------------------------------------------------------------------
  // The controller as a function of its inputs
  // ---------------------------------------------------------------------------

  /** Near a sample, standing still and not already picking one up. */
  predicate CanPickUp(p: Percepts)
  {
    p.nearSample && p.vel == 0.0 && !p.pickingUp
  }

  /** Every branch that takes the mean bearing has at least one bearing. */
  predicate MeanDefined(cfg: DriveConfig, p: Percepts, c: Controls)
  {
    p.navAngles.Some? ==>
      var n := |p.navAngles.value|;
      (c.mode == Forward && n >= cfg.stopForward ==> n > 0) &&
      (c.mode == Pickup ==> n > 0) &&
      (c.mode == Stop && p.vel <= StopSpeed && n >= cfg.goForward ==> n > 0)
  }

  /** The controls after one decision tick. */
  function Decide(cfg: DriveConfig, p: Percepts, c: Controls): (r: Controls)
    requires MeanDefined(cfg, p, c)
    // Bookkeeping, whatever the mode.
    ensures r.samplesFound == c.samplesFound + (if CanPickUp(p) then 1 else 0)
    ensures r.sendPickup <==>
      c.sendPickup || (p.navAngles.Some? && c.mode == Pickup && CanPickUp(p) && c.flag == 0)
    // No bearings at all: cruise straight on.
    ensures p.navAngles.None? ==>
      r.throttle == cfg.throttleSet && r.steer == 0.0 && r.brake == 0.0 &&
      r.mode == c.mode && r.flag == c.flag
    // Forward with enough navigable terrain: keep going, steering clamped.
    ensures p.navAngles.Some? && c.mode == Forward && |p.navAngles.value| >= cfg.stopForward ==>
      r.flag == 0 && r.brake == 0.0 &&
      r.throttle == (if p.vel < cfg.maxVel then cfg.throttleSet else 0.0) &&
      r.steer == ClipSteer(MeanBearing(p.navAngles.value)) && r.mode == Forward
    // Forward without enough navigable terrain: brake and stop.
    ensures p.navAngles.Some? && c.mode == Forward && |p.navAngles.value| < cfg.stopForward ==>
      r.flag == 0 && r.throttle == 0.0 && r.brake == cfg.brakeSet && r.steer == 0.0 && r.mode == Stop
    // Pickup, stationary next to a sample, not yet requested: request it.
    ensures p.navAngles.Some? && c.mode == Pickup && CanPickUp(p) && c.flag == 0 ==>
      r.sendPickup && r.flag == 1 && r.mode == Stop &&
      r.brake == cfg.brakeSet && r.throttle == 0.0 && r.steer == 0.0
    // Pickup, next to a sample but still rolling or busy: brake in pickup.
    ensures p.navAngles.Some? && c.mode == Pickup && p.nearSample && !CanPickUp(p) && c.flag == 0 ==>
      r.flag == 0 && r.mode == Pickup &&
      r.brake == cfg.brakeSet && r.throttle == 0.0 && r.steer == 0.0
    // Pickup, next to a sample, request already made: brake and stop.
    ensures p.navAngles.Some? && c.mode == Pickup && p.nearSample && c.flag == 1 ==>
      r.flag == 1 && r.mode == Stop &&
      r.brake == cfg.brakeSet && r.throttle == 0.0 && r.steer == 0.0
    // Pickup, not next to a sample (or with a flag that is neither 0 nor 1):
    // only the steering changes, unclamped.
    ensures p.navAngles.Some? && c.mode == Pickup && (!p.nearSample || (c.flag != 0 && c.flag != 1)) ==>
      r.steer == MeanBearing(p.navAngles.value) &&
      r.mode == c.mode && r.brake == c.brake && r.throttle == c.throttle && r.flag == c.flag
    // Stop and still moving: keep braking.
    ensures p.navAngles.Some? && c.mode == Stop && p.vel > StopSpeed ==>
      r.flag == 0 && r.mode == Stop &&
      r.brake == cfg.brakeSet && r.throttle == 0.0 && r.steer == 0.0
    // Stopped with too little terrain: turn on the spot to the right.
    ensures p.navAngles.Some? && c.mode == Stop && p.vel <= StopSpeed && |p.navAngles.value| < cfg.goForward ==>
      r.flag == 0 && r.mode == Stop &&
      r.brake == 0.0 && r.throttle == 0.0 && r.steer == -SteerLimit
    // Stopped with enough terrain: set off forward, steering clamped.
    ensures p.navAngles.Some? && c.mode == Stop && p.vel <= StopSpeed && |p.navAngles.value| >= cfg.goForward ==>
      r.flag == 0 && r.mode == Forward &&
      r.brake == 0.0 && r.throttle == cfg.throttleSet &&
      r.steer == ClipSteer(MeanBearing(p.navAngles.value))
    // Outside pickup the steering always lies within the clamp.
    ensures p.navAngles.None? || c.mode != Pickup ==> -SteerLimit <= r.steer <= SteerLimit
    // The only mode changes are forward to stop, stop to forward and pickup to stop.
    ensures r.mode != c.mode ==>
      (c.mode == Forward && r.mode == Stop) || (c.mode == Stop && r.mode == Forward) ||
      (c.mode == Pickup && r.mode == Stop)
    // A 0/1 flag stays 0/1.
    ensures c.flag == 0 || c.flag == 1 ==> r.flag == 0 || r.flag == 1
  {
    var acted :=
      if p.navAngles.None? then
        c.(throttle := cfg.throttleSet, steer := 0.0, brake := 0.0)
      else
        var angles := p.navAngles.value;
        match c.mode
        case Forward =>
          if |angles| >= cfg.stopForward then
            c.(flag := 0, throttle := if p.vel < cfg.maxVel then cfg.throttleSet else 0.0,
               brake := 0.0, steer := ClipSteer(MeanBearing(angles)))
          else
            c.(flag := 0, throttle := 0.0, brake := cfg.brakeSet, steer := 0.0, mode := Stop)
        case Pickup =>
          var steered := c.(steer := MeanBearing(angles));
          if CanPickUp(p) && c.flag == 0 then
            steered.(brake := cfg.brakeSet, throttle := 0.0, steer := 0.0,
                     sendPickup := true, mode := Stop, flag := 1)
          else if p.nearSample && c.flag == 0 then
            steered.(brake := cfg.brakeSet, throttle := 0.0, steer := 0.0)
          else if p.nearSample && c.flag == 1 then
            steered.(brake := cfg.brakeSet, throttle := 0.0, steer := 0.0, mode := Stop)
          else
            steered
        case Stop =>
          if p.vel > StopSpeed then
            c.(flag := 0, throttle := 0.0, brake := cfg.brakeSet, steer := 0.0)
          else if |angles| < cfg.goForward then
            c.(flag := 0, throttle := 0.0, brake := 0.0, steer := -SteerLimit)
          else
            c.(flag := 0, throttle := cfg.throttleSet, brake := 0.0,
               steer := ClipSteer(MeanBearing(angles)), mode := Forward);
    if CanPickUp(p) then acted.(samplesFound := acted.samplesFound + 1) else acted
  }

  /** With bearings from `atan2` (within plus or minus pi), the unclamped
      pickup steering stays within plus or minus 180 degrees. */
  lemma PickupSteerWithinHalfTurn(cfg: DriveConfig, p: Percepts, c: Controls)
    requires MeanDefined(cfg, p, c)
    requires p.navAngles.Some? && c.mode == Pickup
    requires forall k :: 0 <= k < |p.navAngles.value| ==>
      -Pi <= p.navAngles.value[k] <= Pi
    ensures -180.0 <= Decide(cfg, p, c).steer <= 180.0
  {
    var d := ToDegrees(p.navAngles.value);
    forall k | 0 <= k < |d|
      ensures -180.0 <= d[k] <= 180.0
    {
      var a := p.navAngles.value[k];
      assert d[k] == a * DegreesPerRadian;
      assert Pi * DegreesPerRadian == 180.0;
    }
    MeanBetween(d, -180.0, 180.0);
  }

  // ---------------------------------------------------------------------------
  // The controller on the rover record
  // ---------------------------------------------------------------------------

  function ConfigOf(rover: Rover): DriveConfig
    reads rover`stopForward, rover`goForward, rover`maxVel, rover`throttleSet, rover`brakeSet
  {
    DriveConfig(rover.stopForward, rover.goForward, rover.maxVel, rover.throttleSet, rover.brakeSet)
  }

  function PerceptsOf(rover: Rover): Percepts
    reads rover`navAngles, rover`vel, rover`nearSample, rover`pickingUp
  {
    Percepts(rover.navAngles, rover.vel, rover.nearSample, rover.pickingUp)
  }

  function ControlsOf(rover: Rover): Controls
    reads rover`mode, rover`flag, rover`sendPickup, rover`samplesFound,
          rover`throttle, rover`brake, rover`steer
  {
    Controls(rover.mode, rover.flag, rover.sendPickup, rover.samplesFound,
             rover.throttle, rover.brake, rover.steer)
  }

  /** One decision tick, assigning the rover's fields branch by branch; the
      outcome is `Decide` of the state before the tick, and nothing but the
      controls changes. */
  method DecisionStep(rover: Rover)
    requires MeanDefined(ConfigOf(rover), PerceptsOf(rover), ControlsOf(rover))
    modifies rover`mode, rover`flag, rover`sendPickup, rover`samplesFound,
             rover`throttle, rover`brake, rover`steer
    ensures ControlsOf(rover) ==
      Decide(ConfigOf(rover), PerceptsOf(rover), old(ControlsOf(rover)))
  {
    if rover.navAngles.Some? {
      var angles := rover.navAngles.value;
      if rover.mode == Forward {
        rover.flag := 0;
        if |angles| >= rover.stopForward {
          if rover.vel < rover.maxVel {
            rover.throttle := rover.throttleSet;
          } else {
            rover.throttle := 0.0;
          }
          rover.brake := 0.0;
          rover.steer := ClipSteer(MeanBearing(angles));
        } else if |angles| < rover.stopForward {
          rover.throttle := 0.0;
          rover.brake := rover.brakeSet;
          rover.steer := 0.0;
          rover.mode := Stop;
        }
      } else if rover.mode == Pickup {
        rover.steer := MeanBearing(angles);
        if rover.nearSample && rover.vel == 0.0 && !rover.pickingUp && rover.flag == 0 {
          rover.brake := rover.brakeSet;
          rover.throttle := 0.0;
          rover.steer := 0.0;
          rover.sendPickup := true;
          rover.mode := Stop;
          rover.flag := 1;
        } else if rover.nearSample && rover.flag == 0 {
          rover.brake := rover.brakeSet;
          rover.throttle := 0.0;
          rover.steer := 0.0;
        } else if rover.nearSample && rover.flag == 1 {
          rover.brake := rover.brakeSet;
          rover.throttle := 0.0;
          rover.steer := 0.0;
          rover.mode := Stop;
        }
      } else if rover.mode == Stop {
        rover.flag := 0;
        if rover.vel > StopSpeed {
          rover.throttle := 0.0;
          rover.brake := rover.brakeSet;
          rover.steer := 0.0;
        } else if rover.vel <= StopSpeed {
          // Two separate tests on the bearing count; exactly one holds.
          if |angles| < rover.goForward {
            rover.throttle := 0.0;
            rover.brake := 0.0;
            rover.steer := -SteerLimit;
          }
          if |angles| >= rover.goForward {
            rover.throttle := rover.throttleSet;
            rover.brake := 0.0;
            rover.steer := ClipSteer(MeanBearing(angles));
            rover.mode := Forward;
          }
        }
      }
    } else {
      rover.throttle := rover.throttleSet;
      rover.steer := 0.0;
      rover.brake := 0.0;
    }
    if rover.nearSample && rover.vel == 0.0 && !rover.pickingUp {
      rover.samplesFound := rover.samplesFound + 1;
    }
  }
}
