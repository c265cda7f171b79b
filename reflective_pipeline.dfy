/**
 * ReflectivePipeline: the retro-reflective target pipeline. Its parameters
 * are derived from the settings, and one frame runs a fixed chain of stages
 * (contours through 2d targets, then optionally corners and solvePNP), each
 * stage's time landing in a profile slot.
 */
module Reflective {
  import opened Wrappers
  import opened VisionSource

  datatype TargetOrientation = Portrait | Landscape

  datatype Point = Point(x: real, y: real)

  datatype Bounds = Bounds(lower: real, upper: real)

  /** The settings fields the pipeline reads; enumerations other than the orientation are carried as codes. */
  datatype ReflectiveSettings = ReflectiveSettings(
    offsetDualPointA: Point,
    offsetDualPointAArea: real,
    offsetDualPointB: Point,
    offsetDualPointBArea: real,
    contourSpecklePercentage: real,
    contourArea: Bounds,
    contourRatio: Bounds,
    contourFullness: Bounds,
    contourFilterRangeX: int,
    contourFilterRangeY: int,
    contourTargetOrientation: TargetOrientation,
    contourGroupingMode: int,
    contourIntersection: int,
    contourSortMode: int,
    outputShowMultipleTargets: bool,
    offsetRobotOffsetMode: int,
    offsetSinglePoint: Point,
    contourTargetOffsetPointEdge: int,
    cornerDetectionStrategy: int,
    cornerDetectionUseConvexHulls: bool,
    cornerDetectionExactSideCount: bool,
    cornerDetectionSideCount: int,
    cornerDetectionAccuracyPercentage: real,
    targetModel: int,
    solvePNPEnabled: bool)

  datatype DualOffsetValues = DualOffsetValues(firstPoint: Point, firstArea: real, secondPoint: Point, secondArea: real)

  datatype SpeckleRejectParams = SpeckleRejectParams(minPercentOfAvg: real)
  datatype FilterContoursParams = FilterContoursParams(
    area: Bounds, ratio: Bounds, fullness: Bounds, frameProps: FrameStaticProperties,
    xRange: int, yRange: int, isLandscape: bool)
  datatype GroupContoursParams = GroupContoursParams(groupingMode: int, intersection: int)
  datatype SortContoursParams = SortContoursParams(sortMode: int, maxTargets: int, frameProps: FrameStaticProperties)
  datatype Collect2dTargetsParams = Collect2dTargetsParams(
    offsetMode: int, singlePoint: Point, dualOffsets: DualOffsetValues, offsetPointEdge: int,
    orientation: TargetOrientation, frameProps: FrameStaticProperties)
  datatype CornerDetectionParams = CornerDetectionParams(
    strategy: int, useConvexHulls: bool, exactSideCount: bool, sideCount: int, accuracyPercentage: real)
  datatype SolvePNPParams = SolvePNPParams(calibration: Option<CameraCalibration>, targetModel: int)

  /** The parameters of every stage (FindContoursParams has no fields and is left implicit). */
  datatype StageParams = StageParams(
    speckle: SpeckleRejectParams,
    filter: FilterContoursParams,
    group: GroupContoursParams,
    sort: SortContoursParams,
    collect: Collect2dTargetsParams,
    corners: CornerDetectionParams,
    solvePNP: SolvePNPParams)

  /** setPipeParamsImpl's derivation of every stage's parameters from the settings. */
  function DeriveParams(s: ReflectiveSettings, frameProps: FrameStaticProperties, maxMultiTargetResults: int): (r: StageParams)
    ensures r.filter.isLandscape <==> s.contourTargetOrientation == Landscape
    ensures r.sort.maxTargets == if s.outputShowMultipleTargets then maxMultiTargetResults else 1
    ensures r.collect.dualOffsets ==
              DualOffsetValues(s.offsetDualPointA, s.offsetDualPointAArea, s.offsetDualPointB, s.offsetDualPointBArea)
    ensures r.solvePNP.calibration == frameProps.calibration
    ensures r.filter.frameProps == r.sort.frameProps == r.collect.frameProps == frameProps
  {
    var dual := DualOffsetValues(s.offsetDualPointA, s.offsetDualPointAArea, s.offsetDualPointB, s.offsetDualPointBArea);
    StageParams(
      SpeckleRejectParams(s.contourSpecklePercentage),
      FilterContoursParams(s.contourArea, s.contourRatio, s.contourFullness, frameProps,
                           s.contourFilterRangeX, s.contourFilterRangeY, s.contourTargetOrientation == Landscape),
      GroupContoursParams(s.contourGroupingMode, s.contourIntersection),
      SortContoursParams(s.contourSortMode, if s.outputShowMultipleTargets then maxMultiTargetResults else 1, frameProps),
      Collect2dTargetsParams(s.offsetRobotOffsetMode, s.offsetSinglePoint, dual, s.contourTargetOffsetPointEdge,
                             s.contourTargetOrientation, frameProps),
      CornerDetectionParams(s.cornerDetectionStrategy, s.cornerDetectionUseConvexHulls, s.cornerDetectionExactSideCount,
                            s.cornerDetectionSideCount, s.cornerDetectionAccuracyPercentage),
      SolvePNPParams(frameProps.calibration, s.targetModel))
  }

  /** Settings that differ only in solvePNPEnabled derive the same parameters. */
  lemma DeriveIgnoresSolvePNPFlag(s: ReflectiveSettings, frameProps: FrameStaticProperties, maxMultiTargetResults: int)
    ensures DeriveParams(s, frameProps, maxMultiTargetResults)
            == DeriveParams(s.(solvePNPEnabled := !s.solvePNPEnabled), frameProps, maxMultiTargetResults)
  {
  }

  /** With a positive multi-target limit, showing multiple targets never sorts fewer than one. */
  lemma SortLimitAtLeastOne(s: ReflectiveSettings, frameProps: FrameStaticProperties, maxMultiTargetResults: int)
    requires maxMultiTargetResults >= 1
    ensures DeriveParams(s, frameProps, maxMultiTargetResults).sort.maxTargets >= 1
    ensures !s.outputShowMultipleTargets ==> DeriveParams(s, frameProps, maxMultiTargetResults).sort.maxTargets == 1
  {
  }

  /** The stages of the chain. */
  datatype ReflectiveStage =
    | FindContours | SpeckleReject | FilterContours | GroupContours | SortContours | Collect2dTargets
    | CornerDetection | SolvePNP

  /** One stage's output and run time. */
  datatype StageRun<D> = StageRun(output: D, nanos: nat)

  /** The stages run for one frame, in order. */
  function StageOrder(solvePNPEnabled: bool): (r: seq<ReflectiveStage>)
    ensures |r| == if solvePNPEnabled then 8 else 6
    ensures solvePNPEnabled <==> SolvePNP in r
  {
    [FindContours, SpeckleReject, FilterContours, GroupContours, SortContours, Collect2dTargets]
    + (if solvePNPEnabled then [CornerDetection, SolvePNP] else [])
  }

  /** The runs of one frame, each stage fed the previous stage's output. */
  function Trace<D>(image: D, run: (ReflectiveStage, D) -> StageRun<D>, solvePNPEnabled: bool): seq<StageRun<D>> {
    var c := run(FindContours, image);
    var s := run(SpeckleReject, c.output);
    var f := run(FilterContours, s.output);
    var g := run(GroupContours, f.output);
    var o := run(SortContours, g.output);
    var t := run(Collect2dTargets, o.output);
    if solvePNPEnabled then
      var k := run(CornerDetection, t.output);
      [c, s, f, g, o, t, k, run(SolvePNP, k.output)]
    else [c, s, f, g, o, t]
  }

  /** The trace is the stage order run as a chain: the first stage reads the image, each later one its predecessor's output. */
  lemma TraceIsChain<D>(image: D, run: (ReflectiveStage, D) -> StageRun<D>, solvePNPEnabled: bool)
    ensures |Trace(image, run, solvePNPEnabled)| == |StageOrder(solvePNPEnabled)|
    ensures Trace(image, run, solvePNPEnabled)[0] == run(StageOrder(solvePNPEnabled)[0], image)
    ensures forall i :: 1 <= i < |StageOrder(solvePNPEnabled)| ==>
              Trace(image, run, solvePNPEnabled)[i]
              == run(StageOrder(solvePNPEnabled)[i], Trace(image, run, solvePNPEnabled)[i - 1].output)
  {
  }

  /** Total run time of a sequence of runs. */
  function SumNanos<D>(runs: seq<StageRun<D>>): nat {
    if runs == [] then 0 else SumNanos(runs[..|runs| - 1]) + runs[|runs| - 1].nanos
  }

  lemma SumNanosAppend<D>(runs: seq<StageRun<D>>, x: StageRun<D>)
    ensures SumNanos(runs + [x]) == SumNanos(runs) + x.nanos
  {
    assert (runs + [x])[..|runs|] == runs;
  }

  /** The total of six runs, written out. */
  lemma SumNanosSix<D>(a: StageRun<D>, b: StageRun<D>, c: StageRun<D>, d: StageRun<D>, e: StageRun<D>, f: StageRun<D>)
    ensures SumNanos([a, b, c, d, e, f]) == a.nanos + b.nanos + c.nanos + d.nanos + e.nanos + f.nanos
  {
    SumNanosAppend([], a);
    assert [] + [a] == [a];
    SumNanosAppend([a], b);
    assert [a] + [b] == [a, b];
    SumNanosAppend([a, b], c);
    assert [a, b] + [c] == [a, b, c];
    SumNanosAppend([a, b, c], d);
    assert [a, b, c] + [d] == [a, b, c, d];
    SumNanosAppend([a, b, c, d], e);
    assert [a, b, c, d] + [e] == [a, b, c, d, e];
    SumNanosAppend([a, b, c, d, e], f);
    assert [a, b, c, d, e] + [f] == [a, b, c, d, e, f];
  }

  /** Without solvePNP the first six runs are those of the full chain. */
  lemma TracePrefix<D>(image: D, run: (ReflectiveStage, D) -> StageRun<D>)
    ensures Trace(image, run, true)[..6] == Trace(image, run, false)
    ensures SumNanos(Trace(image, run, true))
            == SumNanos(Trace(image, run, false)) + Trace(image, run, true)[6].nanos + Trace(image, run, true)[7].nanos
  {
    var t := Trace(image, run, true);
    assert t[..8][..7] == t[..7];
    assert t[..7][..6] == t[..6];
    assert t[..8] == t;
  }

  datatype ReflectiveFrame<D> = ReflectiveFrame(sequenceID: int, processedImage: D)

  datatype ReflectiveResult<D> = ReflectiveResult(sequenceID: int, nanosElapsed: nat, fps: int, targets: D, frame: ReflectiveFrame<D>)

  class ReflectivePipeline {
    /** The per-stage profile, in nanoseconds; ReflectivePipeCount slots. */
    const pipeProfileNanos: array<nat>
    /** CVPipeline's MAX_MULTI_TARGET_RESULTS, which is not part of this model. */
    const maxMultiTargetResults: int
    var settings: ReflectiveSettings
    /** The stage parameters; none until setPipeParamsImpl has run. */
    var params: Option<StageParams>

    ghost predicate Valid()
      reads this
    {
      pipeProfileNanos.Length >= 10
    }

    constructor (settings: ReflectiveSettings, pipeCount: nat, maxMultiTargetResults: int)
      requires pipeCount >= 10
      ensures Valid() && fresh(pipeProfileNanos) && pipeProfileNanos.Length == pipeCount
      ensures forall i :: 0 <= i < pipeCount ==> pipeProfileNanos[i] == 0
      ensures this.settings == settings && this.maxMultiTargetResults == maxMultiTargetResults
      ensures params == None
    {
      pipeProfileNanos := new nat[pipeCount](_ => 0);
      this.settings := settings;
      this.maxMultiTargetResults := maxMultiTargetResults;
      params := None;
    }

    /**
     * setPipeParamsImpl: every stage's parameters rebuilt from the current
     * settings and the frame's static properties.
     */
    method SetPipeParamsImpl(frameProps: FrameStaticProperties)
      modifies this`params
      ensures params == Some(DeriveParams(settings, frameProps, maxMultiTargetResults))
    {
      params := Some(DeriveParams(settings, frameProps, maxMultiTargetResults));
    }

    /**
     * process: run the chain on the processed image. Slots 2-7 take the
     * six fixed stages, slots 8-9 corners and solvePNP or zero; the
     * targets are the last stage's output. Stage runs and the fps reading
     * are inputs.
     */
    method Process<D>(frame: ReflectiveFrame<D>, s: ReflectiveSettings, run: (ReflectiveStage, D) -> StageRun<D>, fps: int)
        returns (r: ReflectiveResult<D>)
      requires Valid()
      modifies pipeProfileNanos
      ensures var tr := Trace(frame.processedImage, run, s.solvePNPEnabled);
              && (forall i :: 0 <= i < pipeProfileNanos.Length ==>
                    pipeProfileNanos[i] == if 2 <= i < 2 + |tr| then tr[i - 2].nanos
                                           else if i == 8 || i == 9 then 0
                                           else old(pipeProfileNanos[i]))
              && r.nanosElapsed == SumNanos(tr)
              && r.targets == tr[|tr| - 1].output
      ensures r.sequenceID == frame.sequenceID && r.frame == frame && r.fps == fps
    {
      var p := pipeProfileNanos;
      var sum: nat := 0;
      var findContoursResult := run(FindContours, frame.processedImage);
      p[2] := findContoursResult.nanos;
      sum := sum + p[2];
      var speckleRejectResult := run(SpeckleReject, findContoursResult.output);
      p[3] := speckleRejectResult.nanos;
      sum := sum + p[3];
      var filterContoursResult := run(FilterContours, speckleRejectResult.output);
      p[4] := filterContoursResult.nanos;
      sum := sum + p[4];
      var groupContoursResult := run(GroupContours, filterContoursResult.output);
      p[5] := groupContoursResult.nanos;
      sum := sum + p[5];
      var sortContoursResult := run(SortContours, groupContoursResult.output);
      p[6] := sortContoursResult.nanos;
      sum := sum + p[6];
      var collect2dTargetsResult := run(Collect2dTargets, sortContoursResult.output);
      p[7] := collect2dTargetsResult.nanos;
      sum := sum + p[7];
      SumNanosSix(findContoursResult, speckleRejectResult, filterContoursResult, groupContoursResult,
                  sortContoursResult, collect2dTargetsResult);
      var targetList;
      if s.solvePNPEnabled {
        var cornerDetectionResult := run(CornerDetection, collect2dTargetsResult.output);
        p[8] := cornerDetectionResult.nanos;
        sum := sum + p[8];
        var solvePNPResult := run(SolvePNP, cornerDetectionResult.output);
        p[9] := solvePNPResult.nanos;
        sum := sum + p[9];
        targetList := solvePNPResult.output;
        TracePrefix(frame.processedImage, run);
      } else {
        p[8] := 0;
        p[9] := 0;
        targetList := collect2dTargetsResult.output;
      }
      r := ReflectiveResult(frame.sequenceID, sum, fps, targetList, frame);
    }
  }
}
