# Rover perception and decision core, modelled in Dafny

This project models the per-tick core of an autonomous sample-collecting
rover in a simulated world:

- **Perception** (`perception.py`). Three per-pixel colour tests turn the
  perspective-warped camera frame into masks of navigable ground, obstacles
  and sample rocks. The nonzero pixels of a mask become rover-centric points
  (x forward, y left). These are rotated by the rover's yaw, scaled,
  translated to its world position, truncated and clamped to world-map cells.
  The persistent world map then gains obstacle evidence (+1), navigable
  evidence (+10) and a rock marker (255) at the rock pixel nearest the rover.
  The navigation bearings and distances point at open ground, or at the rock
  when one is visible. The mode switches to `pickup` when a rock is seen and
  falls back from `pickup` to `forward` when none is.
- **Decision** (`decision.py`). A controller with three modes (`forward`,
  `stop`, `pickup`). It sets throttle, brake, steering, the mode, a one-shot
  pickup flag, the pickup request and the samples-found counter.

Files:

- `rover_state.dfy`: the mutable rover record (`RoverState.Rover`) with its
  pose, world map (`array3<int>`, indexed `[y, x, channel]`), overlay,
  bearing lists, flags, controls and configuration. It also holds the value
  types (`Mode`, `Rgb`, `Image`, `Mask`, `Option`). Its constructor only sets
  up a starting state.
- `perception.dfy`: the classifiers, pixel enumeration, coordinate maps and
  nearest-rock choice as pure functions with lemmas. The world-map update is
  a set of methods that change the rover and its map array in place.
- `decision.dfy`: `Decide`, the controller as a function from
  (configuration, percepts, controls) to new controls, with every branch's
  outcome in its contract. `DecisionStep` assigns the rover's fields branch by
  branch, as the Python controller does, and is proved to produce `Decide` of the old
  state.

The floating-point library calls (cos, sin, sqrt, atan2) are inputs of the
model, passed in as a `MathLib` value. The arithmetic around them is modelled
exactly over the reals.

## Model

| member | source | states |
|---|---|---|
| `Perception.ColorThresh` | perception.py:6-18 | The mask has the frame's shape, holds only 0 and 1, and is 1 exactly where all three channels are strictly above the threshold. |
| `Perception.Obstacles` | perception.py:20-32 | The mask has the frame's shape and is 0/1. It is 1 exactly where all three channels are strictly below the threshold. No pixel is 1 in both this mask and the navigable mask. A pixel equal to the threshold is in neither. |
| `Perception.Rocks` | perception.py:34-48 | The mask has the frame's shape and is 0/1. It is 1 exactly where red > 110, green > 110 and blue < 50 (for the default threshold). |
| `Perception.NavigableObstacleCount` | perception.py:6-32 | The navigable and obstacle masks together have no more 1s than the frame has pixels. |
| `Perception.RowPixelsSpec` | perception.py:53 | Within one row, `nonzero()` lists exactly the nonzero columns, each once, left to right. |
| `Perception.PixelsFromSpec` | perception.py:53 | From a given row down, `nonzero()` lists exactly the nonzero pixels, each once, in strictly increasing row-major order. |
| `Perception.NonzeroPixels` | perception.py:53 | `nonzero()` lists exactly as many pixels as the mask has nonzero entries. |
| `Perception.PixelsFromCount` | perception.py:53 | From a given row down, the scan lists as many pixels as those rows have nonzero entries. |
| `Perception.NonzeroPixelsSpec` | perception.py:53 | `nonzero()` of a mask lists exactly its nonzero pixels in strictly increasing row-major order. The list is empty iff the mask is all zeros. |
| `Perception.RoverCoords` | perception.py:51-58 | There is one rover-centric point per nonzero pixel. The list is empty iff the mask is all zeros. |
| `Perception.RoverCoordsSpec` | perception.py:51-58 | The k-th nonzero pixel (row, col) gives the k-th point (H - row, W/2 - col). Every nonzero pixel's point is in the list. Every point has 1 <= x <= H and -W/2 < y <= W/2. |
| `Perception.Distances` | perception.py:62-69 | There is one distance per point, in the points' order. If `sqrt` is a true square root, each distance is non-negative and its square is x*x + y*y of its point. |
| `Perception.Bearings` | perception.py:62-69 | There is one bearing per point, in the points' order. If `atan2` gives the direction of (x, y), then (distance, bearing) is the point's polar form: distance times the cosine and sine of the bearing gives back x and y. |
| `Perception.RotatePix` | perception.py:72-79 | The yaw is converted from degrees to radians. If cos^2 + sin^2 = 1 at that angle, the rotated point is as far from the rover as the original. If cos = 1 and sin = 0 (yaw 0), the point is unchanged. |
| `Perception.TranslatePix` | perception.py:81-86 | Undoing the translation and the scaling recovers the rotated point: (x' - xpos) * scale = x and (y' - ypos) * scale = y. |
| `Perception.Trunc` | perception.py:97-98 | `np.int_` truncates toward zero: for v >= 0 the result is the largest integer <= v, and for v < 0 the smallest integer >= v. |
| `Perception.Clip` | perception.py:97-98 | The result lies in [lo, hi]. It equals v inside the range, lo below it and hi above it. |
| `Perception.PixToWorld` | perception.py:81-100 | Both world indices lie in [0, world_size - 1] for every input point, pose and scale. |
| `Perception.ClipTruncIsClipFloor` | perception.py:97-98 | Clamping at 0 after truncation gives the same result as clamping after flooring. |
| `Perception.PixToWorldAtZeroYaw` | perception.py:72-100 | At yaw 0 (with cos 0 = 1 and sin 0 = 0) a point maps to (clip(floor(x/scale + xpos)), clip(floor(y/scale + ypos))). |
| `Perception.WorldCells` | perception.py:162-163 | There is one world cell per point, and every cell is inside the map. |
| `Perception.FirstMin` | perception.py:182 | `argmin`: the index is in range, its value is <= every value, and it is strictly below every earlier value (ties go to the first index). |
| `Perception.NearestBySquaredDistance` | perception.py:180-182 | If sqrt is strictly increasing, the argmin over distances equals the argmin over squared distances x*x + y*y. |
| `Perception.RockTarget` | perception.py:175-185 | A rock cell exists iff some rock pixel is visible, and it lies inside the map. |
| `Perception.PaintRedBlue` | perception.py:150-151 | The overlay keeps its shape. At every pixel red becomes obstacle*255 and blue becomes ground*255, and green keeps its old value. |
| `Perception.PaintGreen` | perception.py:186-192 | The overlay keeps its shape. At every pixel green becomes mask*255 (the rock mask at line 186, an all-zero mask at line 192), and red and blue keep their old values. |
| `Perception.OverlayAfterTick` | perception.py:150-192 | Whatever the overlay held before, assigning its red and blue channels and then its green channel gives the overlay of the three masks. |
| `Perception.AddEvidence` | perception.py:166-168 | NumPy `+=` on index arrays: each distinct listed cell of the channel gains the increment exactly once, however often it is listed. Every other cell and channel is unchanged. |
| `Perception.SetCell` | perception.py:185 | Only the addressed cell takes the new value. |
| `Perception.RecordTerrain` | perception.py:142-172 | Obstacle cells gain 1 in channel 0 and navigable cells gain 10 in channel 2. The map's rock channel is untouched. Bearings and distances are those of the navigable pixels. The overlay's red and blue channels become obstacles*255 and ground*255; its green channel is kept. |
| `Perception.RecordRock` | perception.py:174-195 | With a rock visible, only the nearest rock's cell in channel 1 changes (to 255). Bearings and distances become the rock pixels' values, the mode becomes `pickup` and the overlay's green channel becomes rocks*255. With no rock visible, the map and bearings are unchanged, the overlay's green channel is set to 0, and `pickup` becomes `forward`. In both cases the overlay's red and blue channels are kept. |
| `Perception.PerceptionStep` | perception.py:111-199 | The whole tick as a new state of the old one. The map is changed only at hit cells and the named channel, and earlier rock markers remain. Bearings point at the rock if one is seen, else at ground. The mode is `pickup` iff a rock is seen; otherwise `pickup` becomes `forward` and other modes stay. In `pickup` the bearing list is never empty. The overlay is the overlay of the obstacle, rock (or zero) and ground masks, whatever it held before, and it keeps the frame's shape. |
| `Decision.MeanBearing` | decision.py:29 | The mean of the bearings converted to degrees equals the mean bearing converted to degrees (the same expression appears at decision.py:43 and 91). |
| `Decision.ClipSteer` | decision.py:29 | The steering lies in [-15, 15]. It equals the input inside that range and is clamped at the nearer bound outside it. |
| `Decision.MeanBetween` | decision.py:43 | The mean of a non-empty list lies between any lower and upper bound of its elements. |
| `Decision.Decide` | decision.py:6-105 | Per branch: no bearings gives cruise throttle, steer 0, brake 0, and mode and flag kept. Forward/go gives flag 0, brake 0, throttle set below max speed (else 0) and clamped mean steer. Forward/stop gives throttle 0, brake set, steer 0 and mode `stop`. The three `pickup` sub-cases each have their stated outcome; with no sample near, or with a flag that is neither 0 nor 1, only the steering changes, to the unclamped mean. Stop covers moving, turning (steer -15) and setting off (mode `forward`). `samples_found` rises by exactly 1 iff near_sample, vel == 0 and not picking_up, whatever the mode. `send_pickup` is set only by the pickup request. Outside `pickup` the steering always lies in [-15, 15]. The only mode changes are forward to stop, stop to forward and pickup to stop. A 0/1 flag stays 0/1. |
| `Decision.PickupSteerWithinHalfTurn` | decision.py:43 | With bearings in [-pi, pi] (the range of atan2), the unclamped pickup steering lies in [-180, 180] degrees. |
| `Decision.DecisionStep` | decision.py:6-105 | Assigning the rover's fields step by step, including the two independent tests of the stopped branch, yields exactly `Decide` of the old controls. Configuration and percepts are untouched. |

## Left out

- `perspect_transform` (perception.py:103-107) calls OpenCV's projective warp, so it is not modelled. `PerceptionStep` takes the already-warped frame, which means the calibration points (perception.py:128-137) are not modelled either.
- The trigonometry and square root (perception.py:62-79) come from the `MathLib` input. As a result, rotation by 360 degrees equalling rotation by 0, and the polar values of particular points, are not stated.
- All floating-point values are real numbers. The model does not cover rounding, NaN, infinities, the double nearest 0.2, or the float result of `W/2`. Pi is the 16-digit decimal 3.141592653589793 read as a real, not the double nearest pi.
- `Perception.Trunc`: converts to an unbounded integer. NumPy's `np.int_` converts to a 64-bit integer, and outside its range the conversion is undefined (it usually gives the smallest 64-bit integer, which clips to 0). For v >= 2^63 the model instead clips to the far edge, world_size - 1. For v <= -2^63 both give 0. Only a pose or scale far outside the map reaches such values.
- `Decision.Decide`: requires a non-empty bearing list wherever a mean is taken. In Python, the mean of an empty list is NaN, which reals cannot represent. `Perception.PerceptionStep` guarantees a non-empty list in `pickup` mode. For `forward` and `stop`, the list is non-empty when `stop_forward` and `go_forward` are at least 1.
- `Decision.DecisionStep`: has the same precondition on the mean as `Decide`.
- The mode is one of three values. The Python code compares strings, and any other string would match no branch; no code in the model sets one.
- `near_sample` and `picking_up` are booleans. The Python code only tests their truth value.
- The masks hold `int` 0/1 rather than the image's 8-bit type. The world map holds integers. Its element type comes from the rover record's class, which is not part of this model.
- The overlay is a field of integer RGB values. The array's float element type comes from the rover record's class, which is not part of this model.
- `Perception.PerceptionStep`: requires the overlay to have the frame's shape, as do `RecordTerrain` and `RecordRock`. With another shape NumPy's channel assignments raise an error, and the model has no error path for that. The constructor makes a black overlay of a given frame size, and each tick keeps the shape.
- The `print` calls (perception.py:190, 195; decision.py:41) are output only.
- The simulator loop, telemetry and drive-command transport are not part of this model.
