/**
 * The closed set of pipeline kinds (Java's PipelineType enum) and their
 * numeric base indices, which is how a type change is requested.
 */
module PipelineKinds {
  import opened Wrappers

  datatype PipelineKind =
    | Calib3d | DriverMode
    | Reflective | ColoredShape | AprilTag | AprilTagCuda | Aruco | ObjectDetection

  /** Built-in pipeline indices used by the manager. */
  const DriverModeIndex: int := -1
  const Cal3dIndex: int := -2

  /** The base index of each kind (the enum's `baseIndex`). */
  function BaseIndex(k: PipelineKind): int {
    match k
    case Calib3d => Cal3dIndex
    case DriverMode => DriverModeIndex
    case Reflective => 0
    case ColoredShape => 1
    case AprilTag => 2
    case Aruco => 3
    case ObjectDetection => 4
    case AprilTagCuda => 5
  }

  /** Kinds that users may add, i.e. every kind but the two built-ins. */
  predicate IsUserKind(k: PipelineKind) {
    k != Calib3d && k != DriverMode
  }

  /** Distinct kinds have distinct base indices. */
  lemma BaseIndexInjective(a: PipelineKind, b: PipelineKind)
    ensures BaseIndex(a) == BaseIndex(b) <==> a == b
  {
  }

  /** The kind whose base index is `n`, if any (the enum filter/findAny). */
  function KindOfBaseIndex(n: int): (r: Option<PipelineKind>)
    ensures r.Some? ==> BaseIndex(r.value) == n
    ensures r.None? <==> forall k: PipelineKind :: BaseIndex(k) != n
  {
    if n == -2 then Some(Calib3d)
    else if n == -1 then Some(DriverMode)
    else if n == 0 then Some(Reflective)
    else if n == 1 then Some(ColoredShape)
    else if n == 2 then Some(AprilTag)
    else if n == 3 then Some(Aruco)
    else if n == 4 then Some(ObjectDetection)
    else if n == 5 then Some(AprilTagCuda)
    else
      assert forall k: PipelineKind :: -2 <= BaseIndex(k) <= 5;
      None
  }

  /** Looking up a kind's own base index gives that kind back. */
  lemma KindOfBaseIndexRoundTrip(k: PipelineKind)
    ensures KindOfBaseIndex(BaseIndex(k)) == Some(k)
  {
  }
}
