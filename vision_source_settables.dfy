/**
 * VisionSourceSettables: the per-camera bookkeeping shared by every camera
 * kind. It keeps the camera configuration (field of view, calibrations), the
 * current video mode and the frame properties derived from them.
 */
module VisionSource {
  import opened Wrappers

  datatype VideoMode = VideoMode(width: int, height: int, fps: int, pixelFormat: int)

  datatype ImageSize = ImageSize(width: int, height: int)

  /** A calibration's coefficients are carried as an opaque tag. */
  datatype CameraCalibration = CameraCalibration(unrotatedImageSize: ImageSize, coefficients: int)

  datatype CameraConfiguration = CameraConfiguration(nickname: string, fov: real, calibrations: seq<CameraCalibration>)

  datatype FrameStaticProperties = FrameStaticProperties(mode: VideoMode, fov: real, calibration: Option<CameraCalibration>)

  /** A calibration applies to a video mode when its unrotated size is the mode's size. */
  predicate Fits(c: CameraCalibration, mode: VideoMode) {
    c.unrotatedImageSize.width == mode.width && c.unrotatedImageSize.height == mode.height
  }

  /** The first calibration in list order that fits the mode, or None when none fits. */
  function SelectCalibration(cals: seq<CameraCalibration>, mode: VideoMode): (r: Option<CameraCalibration>)
    ensures r.None? <==> forall i :: 0 <= i < |cals| ==> !Fits(cals[i], mode)
    ensures r.Some? ==> exists i :: 0 <= i < |cals| && cals[i] == r.value && Fits(cals[i], mode)
                                   && forall j :: 0 <= j < i ==> !Fits(cals[j], mode)
  {
    if cals == [] then None
    else if Fits(cals[0], mode) then Some(cals[0])
    else
      var rest := SelectCalibration(cals[1..], mode);
      assert forall i :: 1 <= i < |cals| ==> cals[i] == cals[1..][i - 1];
      if rest.Some? then
        assert exists i :: 1 <= i < |cals| && cals[i] == rest.value && Fits(cals[i], mode)
                           && forall j :: 0 <= j < i ==> !Fits(cals[j], mode);
        rest
      else rest
  }

  /** The frame properties computed from a mode, a field of view and a calibration list. */
  function FramePropsFor(mode: VideoMode, fov: real, cals: seq<CameraCalibration>): (r: FrameStaticProperties)
    ensures r.mode == mode && r.fov == fov
    ensures r.calibration.Some? ==> Fits(r.calibration.value, mode) && r.calibration.value in cals
    ensures r.calibration.None? ==> forall c :: c in cals ==> !Fits(c, mode)
  {
    FrameStaticProperties(mode, fov, SelectCalibration(cals, mode))
  }

  /** A calibration that fits is found, whatever precedes or follows it that does not fit. */
  lemma SelectSkipsMisfits(before: seq<CameraCalibration>, c: CameraCalibration, after: seq<CameraCalibration>, mode: VideoMode)
    requires forall i :: 0 <= i < |before| ==> !Fits(before[i], mode)
    requires Fits(c, mode)
    ensures SelectCalibration(before + [c] + after, mode) == Some(c)
  {
    var cals := before + [c] + after;
    var r := SelectCalibration(cals, mode);
    assert cals[|before|] == c;
    var i :| 0 <= i < |cals| && cals[i] == r.value && Fits(cals[i], mode) && forall j :: 0 <= j < i ==> !Fits(cals[j], mode);
    assert i == |before|;
  }

  class VisionSourceSettables {
    /** The camera's stored configuration. */
    var configuration: CameraConfiguration
    /** Null until the first computation. */
    var frameStaticProperties: Option<FrameStaticProperties>
    /** Whether the device has connected at least once. */
    var cameraPropertiesCached: bool
    /** The mode reported by getCurrentVideoMode. */
    var currentVideoMode: VideoMode
    /** The modes reported by getAllVideoModes. */
    var videoModes: map<int, VideoMode>
    /** CameraConfiguration.addCalibration, which is not part of this model. */
    const addToConfiguration: (CameraConfiguration, CameraCalibration) -> CameraConfiguration

    constructor (configuration: CameraConfiguration, currentVideoMode: VideoMode, videoModes: map<int, VideoMode>,
                 addToConfiguration: (CameraConfiguration, CameraCalibration) -> CameraConfiguration)
      ensures this.configuration == configuration && this.currentVideoMode == currentVideoMode
      ensures this.videoModes == videoModes && this.addToConfiguration == addToConfiguration
      ensures frameStaticProperties == None
      ensures !cameraPropertiesCached
    {
      this.configuration := configuration;
      this.currentVideoMode := currentVideoMode;
      this.videoModes := videoModes;
      this.addToConfiguration := addToConfiguration;
      frameStaticProperties := None;
      cameraPropertiesCached := false;
    }

    method OnCameraConnected()
      modifies this`cameraPropertiesCached
      ensures cameraPropertiesCached
    {
      cameraPropertiesCached := true;
    }

    function GetFOV(): (r: real)
      reads this
      ensures r == configuration.fov
    {
      configuration.fov
    }

    /** calculateFrameStaticProps: current mode, stored FOV and the first fitting calibration. */
    method CalculateFrameStaticProps()
      modifies this`frameStaticProperties
      ensures frameStaticProperties == Some(FramePropsFor(currentVideoMode, configuration.fov, configuration.calibrations))
    {
      var videoMode := currentVideoMode;
      var fov := GetFOV();
      var calibration := SelectCalibration(configuration.calibrations, videoMode);
      frameStaticProperties := Some(FrameStaticProperties(videoMode, fov, calibration));
    }

    /** setFOV: the configuration keeps the new value, then the frame properties are recomputed. */
    method SetFOV(fov: real)
      modifies this`configuration, this`frameStaticProperties
      ensures configuration == old(configuration).(fov := fov)
      ensures GetFOV() == fov
      ensures frameStaticProperties == Some(FramePropsFor(currentVideoMode, fov, configuration.calibrations))
    {
      configuration := configuration.(fov := fov);
      CalculateFrameStaticProps();
    }

    /** addCalibration: hand the calibration to the configuration, then recompute. */
    method AddCalibration(c: CameraCalibration)
      modifies this`configuration, this`frameStaticProperties
      ensures configuration == addToConfiguration(old(configuration), c)
      ensures frameStaticProperties == Some(FramePropsFor(currentVideoMode, configuration.fov, configuration.calibrations))
    {
      configuration := addToConfiguration(configuration, c);
      CalculateFrameStaticProps();
    }

    /** setVideoMode: the camera switches to the mode, then the frame properties are recomputed. */
    method SetVideoMode(mode: VideoMode)
      modifies this`currentVideoMode, this`frameStaticProperties
      ensures currentVideoMode == mode
      ensures frameStaticProperties == Some(FramePropsFor(mode, configuration.fov, configuration.calibrations))
    {
      currentVideoMode := mode;
      CalculateFrameStaticProps();
    }

    /**
     * setVideoModeInternal(int): nothing happens when there are no modes; an
     * index with no mode fails (a null mode) before anything changes.
     */
    method SetVideoModeByIndex(index: int) returns (ok: bool)
      modifies this`currentVideoMode, this`frameStaticProperties
      ensures ok <==> |videoModes| != 0 ==> index in videoModes
      ensures !ok || |videoModes| == 0 ==>
                currentVideoMode == old(currentVideoMode) && frameStaticProperties == old(frameStaticProperties)
      ensures ok && |videoModes| != 0 ==>
                && currentVideoMode == videoModes[index]
                && frameStaticProperties == Some(FramePropsFor(videoModes[index], configuration.fov, configuration.calibrations))
    {
      if |videoModes| != 0 {
        if index !in videoModes {
          return false;
        }
        SetVideoMode(videoModes[index]);
      }
      return true;
    }
  }
}
