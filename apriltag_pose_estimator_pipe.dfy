/**
 * AprilTagPoseEstimatorPipe: pose estimation for one AprilTag detection.
 * The estimator's configuration is cached and replaced only when it
 * changes; each detection's corners are undistorted and flattened back
 * into the [x0, y0, x1, y1, x2, y2, x3, y3] layout a detection carries.
 */
module AprilTagPose {
  import opened Wrappers
  import opened VisionSource

  datatype Point = Point(x: real, y: real)

  /** AprilTagPoseEstimator.Config: tag size and camera intrinsics. */
  datatype EstimatorConfig = EstimatorConfig(tagSize: real, fx: real, fy: real, cx: real, cy: real)

  datatype PoseEstimatorParams = PoseEstimatorParams(config: EstimatorConfig, calibration: CameraCalibration, nIters: int)

  datatype Detection = Detection(
    family: string, id: int, hamming: int, decisionMargin: real,
    homography: seq<real>, centerX: real, centerY: real, corners: seq<real>)

  /** The estimation request handed to the native estimator. */
  datatype PoseRequest = PoseRequest(detection: Detection, config: EstimatorConfig, nIters: int)

  /**
   * How process fails: fewer than four undistorted points (an array index
   * out of bounds), or no params set yet (a null dereference).
   */
  datatype PoseError = MissingCorner | MissingParams

  /** The estimator's configuration before any params are set. */
  const InitialConfig := EstimatorConfig(0.0, 0.0, 0.0, 0.0, 0.0)

  /** Whether setParams replaces the estimator's configuration. */
  predicate NeedsReconfigure(current: Option<PoseEstimatorParams>, newParams: PoseEstimatorParams) {
    current.None? || current.value.config != newParams.config
  }

  /** Setting the same configuration twice reconfigures at most once. */
  lemma RepeatedConfigIsCached(first: PoseEstimatorParams, second: PoseEstimatorParams)
    requires second.config == first.config
    ensures !NeedsReconfigure(Some(first), second)
    ensures NeedsReconfigure(None, second)
  {
  }

  /** Points laid out as [x0, y0, x1, y1, ...]. */
  function Flatten(ps: seq<Point>): (r: seq<real>)
    ensures |r| == 2 * |ps|
    ensures forall i :: 0 <= i < |ps| ==> r[2 * i] == ps[i].x && r[2 * i + 1] == ps[i].y
  {
    if ps == [] then [] else Flatten(ps[..|ps| - 1]) + [ps[|ps| - 1].x, ps[|ps| - 1].y]
  }

  /** Reads the points back out of an [x0, y0, x1, y1, ...] layout. */
  function Unflatten(xs: seq<real>): (r: seq<Point>)
    requires |xs| % 2 == 0
    ensures |r| == |xs| / 2
    ensures forall i :: 0 <= i < |r| ==> r[i] == Point(xs[2 * i], xs[2 * i + 1])
  {
    seq(|xs| / 2, i requires 0 <= i < |xs| / 2 => Point(xs[2 * i], xs[2 * i + 1]))
  }

  /** Flattening loses nothing: the points come back in order. */
  lemma FlattenRoundTrip(ps: seq<Point>)
    ensures Unflatten(Flatten(ps)) == ps
  {
  }

  /** Any even-length layout is the flattening of its points. */
  lemma UnflattenRoundTrip(xs: seq<real>)
    requires |xs| % 2 == 0
    ensures Flatten(Unflatten(xs)) == xs
  {
    var ps := Unflatten(xs);
    var r := Flatten(ps);
    forall k | 0 <= k < |xs| ensures r[k] == xs[k] {
      var i := k / 2;
      if k % 2 == 0 {
        assert k == 2 * i && r[2 * i] == ps[i].x;
      } else {
        assert k == 2 * i + 1 && r[2 * i + 1] == ps[i].y;
      }
    }
  }

  /** getCornerX(i), getCornerY(i) of a detection. */
  function Corner(d: Detection, i: nat): Point
    requires 2 * i + 1 < |d.corners|
  {
    Point(d.corners[2 * i], d.corners[2 * i + 1])
  }

  class AprilTagPoseEstimatorPipe {
    /** Null until the first setParams. */
    var params: Option<PoseEstimatorParams>
    /** The configuration the estimator currently holds. */
    var estimatorConfig: EstimatorConfig
    /** The scratch point matrix, overwritten by every process. */
    var temp: seq<Point>
    /** Number of times the estimator has been reconfigured. */
    ghost var reconfigurations: nat
    /** Calib3d.undistortImagePoints with a calibration's intrinsics, which is not part of this model. */
    const undistort: (seq<Point>, CameraCalibration) -> seq<Point>

    /** The estimator holds the stored params' configuration. */
    ghost predicate Valid()
      reads this
    {
      params.Some? ==> estimatorConfig == params.value.config
    }

    constructor (undistort: (seq<Point>, CameraCalibration) -> seq<Point>)
      ensures Valid()
      ensures params == None && estimatorConfig == InitialConfig && temp == [] && reconfigurations == 0
      ensures this.undistort == undistort
    {
      params := None;
      estimatorConfig := InitialConfig;
      temp := [];
      reconfigurations := 0;
      this.undistort := undistort;
    }

    /** setParams: reconfigure only on the first call or a changed config; always keep the new params. */
    method SetParams(newParams: PoseEstimatorParams)
      requires Valid()
      modifies this`params, this`estimatorConfig, this`reconfigurations
      ensures Valid()
      ensures params == Some(newParams)
      ensures NeedsReconfigure(old(params), newParams) ==>
                estimatorConfig == newParams.config && reconfigurations == old(reconfigurations) + 1
      ensures !NeedsReconfigure(old(params), newParams) ==>
                estimatorConfig == old(estimatorConfig) && reconfigurations == old(reconfigurations)
      ensures estimatorConfig == newParams.config
    {
      if params.None? || params.value.config != newParams.config {
        estimatorConfig := newParams.config;
        reconfigurations := reconfigurations + 1;
      }
      params := Some(newParams);
    }

    /** The loop of process that reads the four corners of a detection, in index order. */
    static method CollectCorners(d: Detection) returns (ps: seq<Point>)
      requires |d.corners| >= 8
      ensures ps == Unflatten(d.corners[..8])
      ensures |ps| == 4 && forall i :: 0 <= i < 4 ==> ps[i] == Corner(d, i)
    {
      var corners := new Point[4](_ => Point(0.0, 0.0));
      for i := 0 to 4
        invariant forall j :: 0 <= j < i ==> corners[j] == Corner(d, j)
      {
        corners[i] := Point(d.corners[2 * i], d.corners[2 * i + 1]);
      }
      ps := corners[..];
    }

    /** The loop of process that lays the first four points out as [x0, y0, ..., x3, y3]. */
    static method FlattenCorners(ps: seq<Point>) returns (xs: seq<real>)
      requires |ps| >= 4
      ensures xs == Flatten(ps[..4])
      ensures |xs| == 8
    {
      var fixedCorners := new real[8](_ => 0.0);
      for i := 0 to 4
        invariant forall j :: 0 <= j < i ==> fixedCorners[2 * j] == ps[j].x && fixedCorners[2 * j + 1] == ps[j].y
      {
        fixedCorners[i * 2] := ps[i].x;
        fixedCorners[i * 2 + 1] := ps[i].y;
      }
      xs := fixedCorners[..];
      var f := Flatten(ps[..4]);
      forall k | 0 <= k < 8 ensures xs[k] == f[k] {
        var i := k / 2;
        if k % 2 == 0 {
          assert k == 2 * i && f[2 * i] == ps[i].x;
        } else {
          assert k == 2 * i + 1 && f[2 * i + 1] == ps[i].y;
        }
      }
    }

    /**
     * process: the four corners are collected, undistorted through `temp`,
     * flattened into eight coordinates and put into a copy of the detection
     * that keeps every other field; the estimate is requested with the
     * params' iteration count. Fewer than four undistorted points fail, and
     * so does a call before any params are set, after the raw corners have
     * already been stored in `temp`.
     */
    method Process(d: Detection) returns (r: Result<PoseRequest, PoseError>)
      requires |d.corners| >= 8
      modifies this`temp
      ensures params.None? ==> r == Failure(MissingParams) && temp == Unflatten(d.corners[..8])
      ensures params.Some? ==> temp == undistort(Unflatten(d.corners[..8]), params.value.calibration)
      ensures params.Some? ==> (r.Failure? <==> |temp| < 4)
      ensures r.Failure? && params.Some? ==> r == Failure(MissingCorner)
      ensures r.Success? ==>
                && params.Some?
                && r.value.detection == d.(corners := Flatten(temp[..4]))
                && |r.value.detection.corners| == 8
                && r.value.config == estimatorConfig
                && r.value.nIters == params.value.nIters
    {
      var corners := CollectCorners(d);
      temp := corners;
      if params.None? {
        return Failure(MissingParams);
      }
      temp := undistort(temp, params.value.calibration);
      var undistorted := temp;
      if |undistorted| < 4 {
        return Failure(MissingCorner);
      }
      var fixedCorners := FlattenCorners(undistorted);
      var corrected := Detection(d.family, d.id, d.hamming, d.decisionMargin, d.homography, d.centerX, d.centerY, fixedCorners);
      return Success(PoseRequest(corrected, estimatorConfig, params.value.nIters));
    }
  }
}
