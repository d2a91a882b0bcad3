/**
  Saving and loading a calibration: the 28 calibration fields of the
  projector-size, interpolator and translator components are copied into one
  record and back. The record's text encoding and the file dialogs are not
  modelled; the encoding is taken to be faithful, so a saved record is the
  record that is loaded.
 */
module CalibrationStore {
  import opened UnityMath
  import opened Trilinear
  import opened ProjectorSizing
  import opened ProjectorTranslator

  /** The saved calibration: every field name-for-name with the component it comes from. */
  datatype CalibrationData = CalibrationData(
    // projector size
    projectorWidth: real, projectorHeight: real, projectorDepth: real,
    projectorWidthIn: real, projectorHeightIn: real, projectorDepthIn: real,
    projectorScaleFactor: real,
    backgroundWidth: real, backgroundHeight: real,
    backgroundWidthIn: real, backgroundHeightIn: real,
    cameraDistanceToBackground: real, cameraFOV: real,
    // trilinear interpolator
    flipPosX: bool, flipPosY: bool, flipPosZ: bool,
    fudgeMaxX: real, fudgeMinX: real, fudgeMaxY: real, fudgeMinY: real, fudgeMaxZ: real, fudgeMinZ: real,
    sourceCubeCorners: seq<Vec3>, destinationCubeCorners: seq<Vec3>,
    // translator
    rotateOffset: Vec3,
    flipRotX: bool, flipRotY: bool, flipRotZ: bool)

  /** The field initialisers of the record. */
  function DefaultCalibrationData(): CalibrationData {
    CalibrationData(
      0.355, 0.28, 0.01, 14.0, 11.0, 0.39, 1.0,
      4.44, 2.5, 174.8, 98.4,
      5.0, 25.0,
      false, false, false,
      0.0, 0.0, 0.0, 0.0, 0.0, 0.0,
      seq(8, _ => Zero), seq(8, _ => Zero),
      Zero,
      false, false, false)
  }

  class CalibrationSaveLoad {
    const ps: ProjectorSize
    const ti: TrilinearInterpolator
    const opt: OptitrackProjectorTranslator

    ghost predicate Valid()
      reads this, ps, ti, opt, opt.trinterp
    {
      ps.Valid() && ti.Valid() && opt.Valid()
    }

    constructor (ps: ProjectorSize, ti: TrilinearInterpolator, opt: OptitrackProjectorTranslator)
      ensures this.ps == ps && this.ti == ti && this.opt == opt
    {
      this.ps := ps;
      this.ti := ti;
      this.opt := opt;
    }

    /** `GetCalibrationString` before encoding: a snapshot of the 28 fields. */
    function GetCalibration(): CalibrationData
      reads this, ps, ti, opt, ti.sourceCubeCorners, ti.destinationCubeCorners
    {
      CalibrationData(
        ps.projectorWidth, ps.projectorHeight, ps.projectorDepth,
        ps.projectorWidthIn, ps.projectorHeightIn, ps.projectorDepthIn,
        ps.projectorScaleFactor,
        ps.backgroundWidth, ps.backgroundHeight,
        ps.backgroundWidthIn, ps.backgroundHeightIn,
        ps.cameraDistanceToBackground, ps.cameraFOV,
        ti.flipPosX, ti.flipPosY, ti.flipPosZ,
        ti.fudgeMaxX, ti.fudgeMinX, ti.fudgeMaxY, ti.fudgeMinY, ti.fudgeMaxZ, ti.fudgeMinZ,
        ti.sourceCubeCorners[..], ti.destinationCubeCorners[..],
        opt.rotateOffset,
        opt.flipRotX, opt.flipRotY, opt.flipRotZ)
    }

    /** The projector-size part of the field writes. */
    method ApplyProjectorSizeFields(c: CalibrationData)
      modifies ps`projectorWidth, ps`projectorHeight, ps`projectorDepth
      modifies ps`projectorWidthIn, ps`projectorHeightIn, ps`projectorDepthIn, ps`projectorScaleFactor
      modifies ps`backgroundWidth, ps`backgroundHeight, ps`backgroundWidthIn, ps`backgroundHeightIn
      modifies ps`cameraDistanceToBackground, ps`cameraFOV
      ensures ps.projectorWidth == c.projectorWidth && ps.projectorHeight == c.projectorHeight
      ensures ps.projectorDepth == c.projectorDepth && ps.projectorWidthIn == c.projectorWidthIn
      ensures ps.projectorHeightIn == c.projectorHeightIn && ps.projectorDepthIn == c.projectorDepthIn
      ensures ps.projectorScaleFactor == c.projectorScaleFactor
      ensures ps.backgroundWidth == c.backgroundWidth && ps.backgroundHeight == c.backgroundHeight
      ensures ps.backgroundWidthIn == c.backgroundWidthIn && ps.backgroundHeightIn == c.backgroundHeightIn
      ensures ps.cameraDistanceToBackground == c.cameraDistanceToBackground && ps.cameraFOV == c.cameraFOV
    {
      ps.projectorWidth, ps.projectorHeight, ps.projectorDepth := c.projectorWidth, c.projectorHeight, c.projectorDepth;
      ps.projectorWidthIn, ps.projectorHeightIn, ps.projectorDepthIn := c.projectorWidthIn, c.projectorHeightIn, c.projectorDepthIn;
      ps.projectorScaleFactor := c.projectorScaleFactor;
      ps.backgroundWidth, ps.backgroundHeight := c.backgroundWidth, c.backgroundHeight;
      ps.backgroundWidthIn, ps.backgroundHeightIn := c.backgroundWidthIn, c.backgroundHeightIn;
      ps.cameraDistanceToBackground, ps.cameraFOV := c.cameraDistanceToBackground, c.cameraFOV;
    }

    /** The interpolator part of the field writes: the corner arrays are replaced, not copied into. */
    method ApplyInterpolatorFields(c: CalibrationData)
      modifies ti`flipPosX, ti`flipPosY, ti`flipPosZ
      modifies ti`fudgeMaxX, ti`fudgeMinX, ti`fudgeMaxY, ti`fudgeMinY, ti`fudgeMaxZ, ti`fudgeMinZ
      modifies ti`sourceCubeCorners, ti`destinationCubeCorners
      ensures ti.Options() == MappingOptions(c.flipPosX, c.flipPosY, c.flipPosZ,
                                             c.fudgeMaxX, c.fudgeMinX, c.fudgeMaxY, c.fudgeMinY, c.fudgeMaxZ, c.fudgeMinZ)
      ensures fresh(ti.sourceCubeCorners) && fresh(ti.destinationCubeCorners) && ti.Valid()
      ensures ti.sourceCubeCorners[..] == c.sourceCubeCorners
      ensures ti.destinationCubeCorners[..] == c.destinationCubeCorners
    {
      ti.flipPosX, ti.flipPosY, ti.flipPosZ := c.flipPosX, c.flipPosY, c.flipPosZ;
      ti.fudgeMaxX, ti.fudgeMinX := c.fudgeMaxX, c.fudgeMinX;
      ti.fudgeMaxY, ti.fudgeMinY := c.fudgeMaxY, c.fudgeMinY;
      ti.fudgeMaxZ, ti.fudgeMinZ := c.fudgeMaxZ, c.fudgeMinZ;
      var source := c.sourceCubeCorners;
      var destination := c.destinationCubeCorners;
      ti.sourceCubeCorners := new Vec3[|source|](i requires 0 <= i < |source| => source[i]);
      ti.destinationCubeCorners := new Vec3[|destination|](i requires 0 <= i < |destination| => destination[i]);
    }

    /** All field writes of `ApplyCalibrationString`, before any hook runs. */
    method ApplyFields(c: CalibrationData)
      requires Valid()
      modifies ps`projectorWidth, ps`projectorHeight, ps`projectorDepth
      modifies ps`projectorWidthIn, ps`projectorHeightIn, ps`projectorDepthIn, ps`projectorScaleFactor
      modifies ps`backgroundWidth, ps`backgroundHeight, ps`backgroundWidthIn, ps`backgroundHeightIn
      modifies ps`cameraDistanceToBackground, ps`cameraFOV
      modifies ti`flipPosX, ti`flipPosY, ti`flipPosZ
      modifies ti`fudgeMaxX, ti`fudgeMinX, ti`fudgeMaxY, ti`fudgeMinY, ti`fudgeMaxZ, ti`fudgeMinZ
      modifies ti`sourceCubeCorners, ti`destinationCubeCorners
      modifies opt`rotateOffset, opt`flipRotX, opt`flipRotY, opt`flipRotZ
      ensures Valid()
      ensures GetCalibration() == c
      ensures fresh(ti.sourceCubeCorners) && fresh(ti.destinationCubeCorners)
      ensures ti.destinationCubeCorners.Length == |c.destinationCubeCorners|
    {
      ApplyProjectorSizeFields(c);
      ApplyInterpolatorFields(c);
      opt.rotateOffset := c.rotateOffset;
      opt.flipRotX, opt.flipRotY, opt.flipRotZ := c.flipRotX, c.flipRotY, c.flipRotZ;
    }

    /**
      The four hooks, in order: plane scale, camera, background, corner
      markers. The first three always run; the marker sync stops at an index
      error on a destination shorter than eight.
     */
    method RunHooks() returns (completed: bool)
      requires Valid()
      modifies opt`cornerPositions
      modifies ps.CornerPlaneSet()`localScale, ps.projectorPlane`localScale, ps.camera`fieldOfView
      modifies ps.backgroundPlane`localPosition, ps.backgroundPlane`localScale
      ensures Valid() && GetCalibration() == old(GetCalibration())
      ensures ti.sourceCubeCorners == old(ti.sourceCubeCorners) && ti.destinationCubeCorners == old(ti.destinationCubeCorners)
      ensures ps.Displayed()
      ensures completed <==> opt.trinterp.destinationCubeCorners.Length >= 8
      ensures opt.cornerPositions == SyncedMarkers(old(opt.cornerPositions), opt.trinterp.destinationCubeCorners[..])
    {
      ps.UpdatePlaneScale();
      ps.UpdateCamera();
      ps.UpdateBackgroundScale();
      completed := opt.ApplyCornerTransforms();
    }

    /**
      `ApplyCalibrationString` after decoding: every record field is written
      into its component, the corner arrays are replaced wholesale with no
      length check, and only then the four hooks run. The marker sync reads
      the destination corners of the translator's interpolator, whichever
      object that is; if it has fewer than eight, the sync stops at an index
      error after every field write and the three size hooks.
     */
    method ApplyCalibration(c: CalibrationData) returns (completed: bool)
      requires Valid()
      modifies ps`projectorWidth, ps`projectorHeight, ps`projectorDepth
      modifies ps`projectorWidthIn, ps`projectorHeightIn, ps`projectorDepthIn, ps`projectorScaleFactor
      modifies ps`backgroundWidth, ps`backgroundHeight, ps`backgroundWidthIn, ps`backgroundHeightIn
      modifies ps`cameraDistanceToBackground, ps`cameraFOV
      modifies ti`flipPosX, ti`flipPosY, ti`flipPosZ
      modifies ti`fudgeMaxX, ti`fudgeMinX, ti`fudgeMaxY, ti`fudgeMinY, ti`fudgeMaxZ, ti`fudgeMinZ
      modifies ti`sourceCubeCorners, ti`destinationCubeCorners
      modifies opt`rotateOffset, opt`flipRotX, opt`flipRotY, opt`flipRotZ, opt`cornerPositions
      modifies ps.CornerPlaneSet()`localScale, ps.projectorPlane`localScale, ps.camera`fieldOfView
      modifies ps.backgroundPlane`localPosition, ps.backgroundPlane`localScale
      ensures Valid()
      ensures GetCalibration() == c
      ensures fresh(ti.sourceCubeCorners) && fresh(ti.destinationCubeCorners)
      // the hooks, on the new field values
      ensures ps.Displayed()
      ensures completed <==> opt.trinterp.destinationCubeCorners.Length >= 8
      ensures opt.cornerPositions == SyncedMarkers(old(opt.cornerPositions), opt.trinterp.destinationCubeCorners[..])
    {
      ApplyFields(c);
      completed := RunHooks();
    }

    /**
      The round trip of the calibration file: applying the record just taken
      restores every calibrated value, whatever the array lengths, and the
      hooks see those same values.
     */
    method SaveThenLoad() returns (completed: bool)
      requires Valid()
      modifies ps`projectorWidth, ps`projectorHeight, ps`projectorDepth
      modifies ps`projectorWidthIn, ps`projectorHeightIn, ps`projectorDepthIn, ps`projectorScaleFactor
      modifies ps`backgroundWidth, ps`backgroundHeight, ps`backgroundWidthIn, ps`backgroundHeightIn
      modifies ps`cameraDistanceToBackground, ps`cameraFOV
      modifies ti`flipPosX, ti`flipPosY, ti`flipPosZ
      modifies ti`fudgeMaxX, ti`fudgeMinX, ti`fudgeMaxY, ti`fudgeMinY, ti`fudgeMaxZ, ti`fudgeMinZ
      modifies ti`sourceCubeCorners, ti`destinationCubeCorners
      modifies opt`rotateOffset, opt`flipRotX, opt`flipRotY, opt`flipRotZ, opt`cornerPositions
      modifies ps.CornerPlaneSet()`localScale, ps.projectorPlane`localScale, ps.camera`fieldOfView
      modifies ps.backgroundPlane`localPosition, ps.backgroundPlane`localScale
      ensures Valid() && GetCalibration() == old(GetCalibration())
      ensures ps.Displayed()
      ensures opt.cornerPositions == SyncedMarkers(old(opt.cornerPositions), opt.trinterp.destinationCubeCorners[..])
      ensures completed <==> opt.trinterp.destinationCubeCorners.Length >= 8
    {
      var c := GetCalibration();
      completed := ApplyCalibration(c);
    }
  }

  /**
    The record's initialisers agree with the components' own defaults: a
    snapshot of freshly created components is the default record.
   */
  method SnapshotOfDefaults() returns (c: CalibrationData)
    ensures c == DefaultCalibrationData()
  {
    var projectorPlane := new Plane(Zero, Zero, true);
    var backgroundPlane := new Plane(Zero, Zero, true);
    var camera := new SceneCamera(60.0);
    var ps := new ProjectorSize(projectorPlane, backgroundPlane, [], camera);
    var ti := new TrilinearInterpolator();
    var opt := new OptitrackProjectorTranslator(ti, seq(8, _ => Zero));
    var store := new CalibrationSaveLoad(ps, ti, opt);
    c := store.GetCalibration();
  }
}
