/**
  The records the planner passes between its stages. Distances, angles and times
  that the source wraps in unit objects are their base values here.
*/
module Records {

  /** A path point and the heading to pass through it with (structs/waypoint.py). */
  datatype Waypoint = Waypoint(x: real, y: real, angle: real)

  /** A point in the field frame. */
  datatype Coord = Coord(x: real, y: real)

  /** A point on a Hermite spline with its heading and the parameter it was taken at. */
  datatype SplineCoord = SplineCoord(time: real, x: real, y: real, angle: real)

  /** One time step of a planned path (Structs/Segment.py). */
  datatype Segment = Segment(
    dt: real,
    x: real,
    y: real,
    displacement: real,
    velocity: real,
    acceleration: real,
    jerk: real,
    heading: real)

  /** The parameters of the filter-chain planner (Structs/TrajectoryConfig.py). */
  datatype TrajectoryConfig = TrajectoryConfig(
    dt: real,
    maxV: real,
    maxA: real,
    maxJ: real,
    srcV: real,
    srcTheta: real,
    destPos: real,
    destV: real,
    destTheta: real,
    sampleCount: int)

  /** What the planner derives from its configuration (structs/trajectory_info.py). */
  datatype TrajectoryInfo = TrajectoryInfo(
    filter1: int,
    filter2: int,
    length: int,
    dt: real,
    u: real,
    v: real,
    impulse: real)

  /**
    A one-dimensional motion sample as the velocity profiles read and write it
    (structs/segment.py, with the `distance` field the profiles use).
  */
  datatype ProfileSegment = ProfileSegment(time: real, distance: real, velocity: real, acceleration: real)

  /** A freshly built profile segment: every field 0. */
  const ZeroProfileSegment: ProfileSegment := ProfileSegment(0.0, 0.0, 0.0, 0.0)

  /** A pose on the field (structs/segment_2d.py). */
  datatype Segment2D = Segment2D(x: real, y: real, angle: real)

  /** Center, left and right tracks of a tank drive, in one and two dimensions (structs/coupled_segment.py). */
  datatype CoupledSegment = CoupledSegment(
    center: ProfileSegment,
    left: ProfileSegment,
    right: ProfileSegment,
    center2d: Segment2D,
    left2d: Segment2D,
    right2d: Segment2D)

  const ZeroCoupledSegment: CoupledSegment := CoupledSegment(
    ZeroProfileSegment, ZeroProfileSegment, ZeroProfileSegment,
    Segment2D(0.0, 0.0, 0.0), Segment2D(0.0, 0.0, 0.0), Segment2D(0.0, 0.0, 0.0))

  /** The limits of the coupled tank generator (structs/config.py). */
  datatype Config = Config(dt: real, maxVelocity: real, maxAcceleration: real, maxJerk: real, sampleCount: int)
}
