/** The rover record shared by the perception and decision stages, and the
    value types both of them use. The record is mutated in place by each
    stage once per simulation tick. */
module RoverState {

  datatype Option<+T> = None | Some(value: T)

  /** Pi to 16 significant digits, used to convert between degrees and radians. */
  const Pi: real := 3.141592653589793

  /** The controller's three modes. */
  datatype Mode = Forward | Stop | Pickup

  /** One RGB sample of a camera frame. */
  datatype Rgb = Rgb(r: int, g: int, b: int)

  /** A frame: rows of RGB samples (row 0 is the top of the image). */
  type Image = seq<seq<Rgb>>

  /** A single-channel mask: rows of 0/1 values. */
  type Mask = seq<seq<int>>

  /** Every row has the same length, as for a two-dimensional array. */
  ghost predicate Rectangular<T>(g: seq<seq<T>>)
  {
    forall i :: 0 <= i < |g| ==> |g[i]| == |g[0]|
  }

  /** Two grids with the same number of rows and the same row lengths. */
  ghost predicate SameShape<A, B>(a: seq<seq<A>>, b: seq<seq<B>>)
  {
    |a| == |b| && forall i :: 0 <= i < |a| ==> |a[i]| == |b[i]|
  }

  /** The second dimension of a grid (zero for a grid without rows). */
  function Width<T>(g: seq<seq<T>>): nat
  {
    if |g| == 0 then 0 else |g[0]|
  }

  class Rover {
    // Pose, supplied by the simulator.
    var xpos: real
    var ypos: real
    var yaw: real          // degrees
    var vel: real

    // Perception outputs.
    var worldmap: array3<int>      // [y, x, channel]; 0 obstacle, 1 rock, 2 navigable
    var visionImage: Image         // diagnostic overlay of the three masks
    var navAngles: Option<seq<real>>
    var navDists: Option<seq<real>>

    // Status flags, supplied by the simulator.
    var nearSample: bool
    var pickingUp: bool

    // Controller state and outputs.
    var mode: Mode
    var flag: int
    var sendPickup: bool
    var samplesFound: int
    var throttle: real
    var brake: real
    var steer: real

    // Configuration.
    var stopForward: int
    var goForward: int
    var maxVel: real
    var throttleSet: real
    var brakeSet: real

    /** The world map is a square grid with three evidence channels. */
    ghost predicate Valid()
      reads this`worldmap
    {
      worldmap.Length0 == worldmap.Length1 && worldmap.Length0 >= 1 && worldmap.Length2 == 3
    }

    /** A rover at the origin in `forward` mode with an empty world map and a
        black overlay of the camera's frame size; the thresholds and
        set-points are the caller's configuration. */
    constructor (mapSize: nat, frameRows: nat, frameCols: nat, stopForward: int, goForward: int, maxVel: real, throttleSet: real, brakeSet: real)
      requires mapSize >= 1
      ensures Valid() && fresh(worldmap) && worldmap.Length0 == mapSize
      ensures forall i, j, k :: 0 <= i < mapSize && 0 <= j < mapSize && 0 <= k < 3 ==> worldmap[i, j, k] == 0
      ensures |visionImage| == frameRows
      ensures forall i :: 0 <= i < frameRows ==>
        |visionImage[i]| == frameCols && forall j :: 0 <= j < frameCols ==> visionImage[i][j] == Rgb(0, 0, 0)
      ensures mode == Forward && navAngles == None && navDists == None
      ensures samplesFound == 0 && flag == 0 && !sendPickup
      ensures this.stopForward == stopForward && this.goForward == goForward
      ensures this.maxVel == maxVel && this.throttleSet == throttleSet && this.brakeSet == brakeSet
    {
      worldmap := new int[mapSize, mapSize, 3]((i, j, k) => 0);
      visionImage := seq(frameRows, i => seq(frameCols, j => Rgb(0, 0, 0)));
      navAngles, navDists := None, None;
      mode := Forward;
      flag, sendPickup, samplesFound := 0, false, 0;
      throttle, brake, steer := 0.0, 0.0, 0.0;
      xpos, ypos, yaw, vel := 0.0, 0.0, 0.0, 0.0;
      nearSample, pickingUp := false, false;
      this.stopForward, this.goForward := stopForward, goForward;
      this.maxVel, this.throttleSet, this.brakeSet := maxVel, throttleSet, brakeSet;
    }
  }
}
