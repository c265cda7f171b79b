/**
 * OutputStreamPipeline: the drawing stages every pipeline shares. One call
 * resizes the frames, draws crosshair and target overlays by pipeline
 * kind, and records each stage's time in a 12-slot profile.
 */
module OutputStream {
  import opened Wrappers
  import opened PipelineKinds

  /** The drawing stages whose run time lands in a profile slot. */
  datatype Stage =
    | ResizeInput | ResizeOutput | ConvertOutput | CrosshairOnInput | CrosshairOnOutput
    | Draw3dTargets | Draw2dTargets | DrawCalibration
    | Draw3dAprilTags | Draw2dAprilTags | Draw3dAruco | Draw2dAruco

  /** What one call does to a profile slot. */
  datatype SlotAction = Untouched | Zeroed | Timed(stage: Stage)

  /** The parts of a frame the stage selection looks at. */
  datatype Frame = Frame(sequenceID: int, inputEmpty: bool, outputEmpty: bool, outputChannels: int)

  /** The settings the output stage reads. */
  datatype StreamSettings = StreamSettings(
    kind: PipelineKind,
    solvePNPEnabled: bool,
    streamingFrameDivisor: int,
    drawAllSnapshots: bool)

  datatype CalibrationDrawParams = CalibrationDrawParams(divisor: int, drawAllSnapshots: bool)

  /** CVPipelineResult: sequence id, total stage time, fps, the targets drawn, the frame. */
  datatype StreamResult<T> = StreamResult(sequenceID: int, nanosElapsed: nat, fps: int, targets: seq<T>, frame: Frame)

  const ProfileSlots: nat := 12

  /** Kinds drawn by the generic 2d/3d target branch. */
  predicate IsGeneric(k: PipelineKind) {
    k != AprilTag && k != AprilTagCuda && k != Aruco && k != Calib3d
  }

  /** Which stage, if any, writes each profile slot for this frame and these settings. */
  function SlotPlan(slot: nat, f: Frame, s: StreamSettings): SlotAction {
    if slot == 0 then (if f.inputEmpty then Untouched else Timed(ResizeInput))
    else if slot > 8 || f.outputEmpty then Untouched
    else if slot == 1 then Timed(ResizeOutput)
    else if slot == 2 then (if f.outputChannels == 1 then Timed(ConvertOutput) else Zeroed)
    else if slot == 3 then Timed(CrosshairOnInput)
    else if IsGeneric(s.kind) then
      if slot == 4 then Timed(CrosshairOnOutput)
      else if s.solvePNPEnabled then (if slot == 8 then Timed(Draw3dTargets) else Zeroed)
      else if slot == 6 then Timed(Draw2dTargets) else Zeroed
    else if slot == 4 then Untouched
    else if s.kind == Calib3d then (if slot == 7 then Timed(DrawCalibration) else Zeroed)
    else if s.solvePNPEnabled then
      (if slot == 7 then Timed(if s.kind == Aruco then Draw3dAruco else Draw3dAprilTags) else Zeroed)
    else if slot == 5 then Timed(if s.kind == Aruco then Draw2dAruco else Draw2dAprilTags) else Zeroed
  }

  /** A slot's value after the action, given each stage's run time. */
  function Applied(a: SlotAction, prev: nat, nanos: Stage -> nat): nat {
    match a
    case Untouched => prev
    case Zeroed => 0
    case Timed(stage) => nanos(stage)
  }

  /** The time an action adds to the total: its stage's time if it runs one. */
  function TimedNanos(a: SlotAction, nanos: Stage -> nat): nat {
    if a.Timed? then nanos(a.stage) else 0
  }

  /** Total time of the stages timed in slots below `n`. */
  function PlannedElapsed(f: Frame, s: StreamSettings, nanos: Stage -> nat, n: nat): nat {
    if n == 0 then 0
    else PlannedElapsed(f, s, nanos, n - 1) + TimedNanos(SlotPlan(n - 1, f, s), nanos)
  }

  /** The planned total over all slots is the sum over slots 0-8, written out. */
  lemma PlannedElapsedSlots(f: Frame, s: StreamSettings, nanos: Stage -> nat)
    ensures PlannedElapsed(f, s, nanos, ProfileSlots)
            == TimedNanos(SlotPlan(0, f, s), nanos) + TimedNanos(SlotPlan(1, f, s), nanos)
             + TimedNanos(SlotPlan(2, f, s), nanos) + TimedNanos(SlotPlan(3, f, s), nanos)
             + TimedNanos(SlotPlan(4, f, s), nanos) + TimedNanos(SlotPlan(5, f, s), nanos)
             + TimedNanos(SlotPlan(6, f, s), nanos) + TimedNanos(SlotPlan(7, f, s), nanos)
             + TimedNanos(SlotPlan(8, f, s), nanos)
  {
    var e := n => PlannedElapsed(f, s, nanos, n);
    assert e(12) == e(11) == e(10) == e(9);
    assert e(9) == e(8) + TimedNanos(SlotPlan(8, f, s), nanos);
    assert e(8) == e(7) + TimedNanos(SlotPlan(7, f, s), nanos);
    assert e(7) == e(6) + TimedNanos(SlotPlan(6, f, s), nanos);
    assert e(6) == e(5) + TimedNanos(SlotPlan(5, f, s), nanos);
    assert e(5) == e(4) + TimedNanos(SlotPlan(4, f, s), nanos);
    assert e(4) == e(3) + TimedNanos(SlotPlan(3, f, s), nanos);
    assert e(3) == e(2) + TimedNanos(SlotPlan(2, f, s), nanos);
    assert e(2) == e(1) + TimedNanos(SlotPlan(1, f, s), nanos);
    assert e(1) == e(0) + TimedNanos(SlotPlan(0, f, s), nanos);
    assert e(0) == 0;
  }

  /** An empty output frame leaves slots 1-8 as they were. */
  lemma EmptyOutputLeavesDrawSlots(f: Frame, s: StreamSettings, slot: nat)
    requires f.outputEmpty && 1 <= slot <= 8
    ensures SlotPlan(slot, f, s) == Untouched
  {
  }

  /** Slot 0 is timed exactly when the input frame is non-empty, and slots 9-11 are never written. */
  lemma InputSlotAndSpareSlots(f: Frame, s: StreamSettings, slot: nat)
    ensures SlotPlan(0, f, s).Timed? <==> !f.inputEmpty
    ensures SlotPlan(0, f, s) != Zeroed
    ensures slot >= 9 ==> SlotPlan(slot, f, s) == Untouched
  {
  }

  /** On a non-empty output, slot 2 is zeroed unless the output has one channel, and slot 3 is timed. */
  lemma ConvertAndCrosshairSlots(f: Frame, s: StreamSettings)
    requires !f.outputEmpty
    ensures SlotPlan(2, f, s) == Zeroed <==> f.outputChannels != 1
    ensures SlotPlan(2, f, s) != Untouched
    ensures SlotPlan(3, f, s) == Timed(CrosshairOnInput)
  {
  }

  /** Slot 4 is written only by the generic branch. */
  lemma CrosshairOutputOnlyGeneric(f: Frame, s: StreamSettings)
    ensures SlotPlan(4, f, s) != Zeroed
    ensures SlotPlan(4, f, s).Timed? <==> !f.outputEmpty && IsGeneric(s.kind)
  {
  }

  /** Generic kinds: 3d targets in slot 8 with solvePNP, else 2d targets in slot 6; the rest of 5-8 zeroed. */
  lemma GenericSlots(f: Frame, s: StreamSettings)
    requires !f.outputEmpty && IsGeneric(s.kind)
    ensures s.solvePNPEnabled ==>
              && SlotPlan(5, f, s) == Zeroed && SlotPlan(6, f, s) == Zeroed && SlotPlan(7, f, s) == Zeroed
              && SlotPlan(8, f, s) == Timed(Draw3dTargets)
    ensures !s.solvePNPEnabled ==>
              && SlotPlan(5, f, s) == Zeroed && SlotPlan(6, f, s) == Timed(Draw2dTargets)
              && SlotPlan(7, f, s) == Zeroed && SlotPlan(8, f, s) == Zeroed
  {
  }

  /** Calibration times slot 7 and zeroes 5, 6 and 8, whatever solvePNP says. */
  lemma CalibrationSlots(f: Frame, s: StreamSettings, t: StreamSettings)
    requires !f.outputEmpty && s.kind == Calib3d && t == s.(solvePNPEnabled := !s.solvePNPEnabled)
    ensures SlotPlan(7, f, s) == Timed(DrawCalibration)
    ensures SlotPlan(5, f, s) == Zeroed && SlotPlan(6, f, s) == Zeroed && SlotPlan(8, f, s) == Zeroed
    ensures forall slot: nat :: SlotPlan(slot, f, s) == SlotPlan(slot, f, t)
  {
  }

  /** AprilTag, AprilTagCuda and Aruco: slot 7 with solvePNP, slot 5 without, the rest of 5-8 zeroed. */
  lemma MarkerSlots(f: Frame, s: StreamSettings)
    requires !f.outputEmpty && (s.kind == AprilTag || s.kind == AprilTagCuda || s.kind == Aruco)
    ensures s.solvePNPEnabled ==>
              && SlotPlan(7, f, s).Timed?
              && SlotPlan(5, f, s) == Zeroed && SlotPlan(6, f, s) == Zeroed && SlotPlan(8, f, s) == Zeroed
    ensures !s.solvePNPEnabled ==>
              && SlotPlan(5, f, s).Timed?
              && SlotPlan(6, f, s) == Zeroed && SlotPlan(7, f, s) == Zeroed && SlotPlan(8, f, s) == Zeroed
    ensures SlotPlan(5, f, s).Timed? || SlotPlan(7, f, s).Timed?
    ensures s.kind == Aruco <==> SlotPlan(5, f, s) == Timed(Draw2dAruco) || SlotPlan(7, f, s) == Timed(Draw3dAruco)
  {
  }

  class OutputStreamPipeline {
    /** The per-stage profile, in nanoseconds. */
    const pipeProfileNanos: array<nat>
    /** The resize stage's frame divisor. */
    var resizeDivisor: int
    /** The calibration overlay's parameters, set only from calibration settings. */
    var calibrationParams: Option<CalibrationDrawParams>

    ghost predicate Valid()
      reads this
    {
      pipeProfileNanos.Length == ProfileSlots
    }

    constructor ()
      ensures Valid() && fresh(pipeProfileNanos)
      ensures forall i :: 0 <= i < ProfileSlots ==> pipeProfileNanos[i] == 0
      ensures calibrationParams == None
    {
      pipeProfileNanos := new nat[ProfileSlots](_ => 0);
      resizeDivisor := 1;
      calibrationParams := None;
    }

    /** setPipeParams: the resize divisor always follows the settings; the calibration overlay only for calibration settings. */
    method SetPipeParams(s: StreamSettings)
      modifies this`resizeDivisor, this`calibrationParams
      ensures resizeDivisor == s.streamingFrameDivisor
      ensures s.kind == Calib3d ==> calibrationParams == Some(CalibrationDrawParams(s.streamingFrameDivisor, s.drawAllSnapshots))
      ensures s.kind != Calib3d ==> calibrationParams == old(calibrationParams)
    {
      resizeDivisor := s.streamingFrameDivisor;
      if s.kind == Calib3d {
        calibrationParams := Some(CalibrationDrawParams(s.streamingFrameDivisor, s.drawAllSnapshots));
      }
    }

    /**
     * process: run the stages the plan selects, each slot ending as the plan
     * says, and report the total of the stages timed in this call. The
     * stage timings and the fps reading are inputs.
     */
    method Process<T>(frame: Frame, settings: StreamSettings, targetsToDraw: seq<T>, nanos: Stage -> nat, fps: int)
        returns (r: StreamResult<T>)
      requires Valid()
      modifies this`resizeDivisor, this`calibrationParams, pipeProfileNanos
      ensures Valid()
      ensures forall i :: 0 <= i < ProfileSlots ==>
                pipeProfileNanos[i] == Applied(SlotPlan(i, frame, settings), old(pipeProfileNanos[i]), nanos)
      ensures r.nanosElapsed == PlannedElapsed(frame, settings, nanos, ProfileSlots)
      ensures r.sequenceID == frame.sequenceID && r.targets == targetsToDraw && r.frame == frame && r.fps == fps
      ensures resizeDivisor == settings.streamingFrameDivisor
      ensures settings.kind == Calib3d ==>
                calibrationParams == Some(CalibrationDrawParams(settings.streamingFrameDivisor, settings.drawAllSnapshots))
      ensures settings.kind != Calib3d ==> calibrationParams == old(calibrationParams)
    {
      SetPipeParams(settings);
      PlannedElapsedSlots(frame, settings, nanos);
      var sum: nat := 0;
      var p := pipeProfileNanos;
      if !frame.inputEmpty {
        p[0] := nanos(ResizeInput);
        sum := sum + p[0];
      }
      if !frame.outputEmpty {
        p[1] := nanos(ResizeOutput);
        sum := sum + p[1];
      }
      if !frame.outputEmpty {
        if frame.outputChannels == 1 {
          p[2] := nanos(ConvertOutput);
          sum := sum + p[2];
        } else {
          p[2] := 0;
        }
        p[3] := nanos(CrosshairOnInput);
        sum := sum + p[3];
        var drawn := DrawOverlays(frame, settings, nanos);
        sum := sum + drawn;
      }
      r := StreamResult(frame.sequenceID, sum, fps, targetsToDraw, frame);
    }

    /** The overlay stages of process (slots 4-8), chosen by pipeline kind and solvePNP. */
    method DrawOverlays(frame: Frame, settings: StreamSettings, nanos: Stage -> nat) returns (sum: nat)
      requires Valid() && !frame.outputEmpty
      modifies pipeProfileNanos
      ensures forall i :: 0 <= i < ProfileSlots ==>
                pipeProfileNanos[i] == if 4 <= i <= 8 then Applied(SlotPlan(i, frame, settings), old(pipeProfileNanos[i]), nanos)
                                       else old(pipeProfileNanos[i])
      ensures sum == TimedNanos(SlotPlan(4, frame, settings), nanos) + TimedNanos(SlotPlan(5, frame, settings), nanos)
                   + TimedNanos(SlotPlan(6, frame, settings), nanos) + TimedNanos(SlotPlan(7, frame, settings), nanos)
                   + TimedNanos(SlotPlan(8, frame, settings), nanos)
    {
      sum := 0;
      var p := pipeProfileNanos;
      var kind := settings.kind;
      if kind != AprilTag && kind != AprilTagCuda && kind != Aruco && kind != Calib3d {
        p[4] := nanos(CrosshairOnOutput);
        sum := sum + p[4];
        if settings.solvePNPEnabled {
          p[5] := 0;
          p[6] := 0;
          p[7] := 0;
          p[8] := nanos(Draw3dTargets);
          sum := sum + p[8];
        } else {
          p[5] := 0;
          p[6] := nanos(Draw2dTargets);
          sum := sum + p[6];
          p[7] := 0;
          p[8] := 0;
        }
      } else if kind == Calib3d {
        p[5] := 0;
        p[6] := 0;
        p[7] := nanos(DrawCalibration);
        sum := sum + p[7];
        p[8] := 0;
      } else if kind == AprilTag || kind == AprilTagCuda {
        if settings.solvePNPEnabled {
          p[5] := 0;
          p[6] := 0;
          p[7] := nanos(Draw3dAprilTags);
          sum := sum + p[7];
          p[8] := 0;
        } else {
          p[5] := nanos(Draw2dAprilTags);
          sum := sum + p[5];
          p[6] := 0;
          p[7] := 0;
          p[8] := 0;
        }
      } else if kind == Aruco {
        if settings.solvePNPEnabled {
          p[5] := 0;
          p[6] := 0;
          p[7] := nanos(Draw3dAruco);
          sum := sum + p[7];
          p[8] := 0;
        } else {
          p[5] := nanos(Draw2dAruco);
          sum := sum + p[5];
          p[6] := 0;
          p[7] := 0;
          p[8] := 0;
        }
      }
    }
  }
}
