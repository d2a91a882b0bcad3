/**
  The physical size of the projector and of the background screen, and the
  scene objects they drive: the projector plane, the corner planes that mark
  the calibration cube, the background plane and the scene camera.
 */
module ProjectorSizing {
  import opened UnityMath

  /** The part of a scene `Transform` (and its game object) that the component touches. */
  class Plane {
    var localScale: Vec3
    var localPosition: Vec3
    var active: bool

    constructor (localScale: Vec3, localPosition: Vec3, active: bool)
      ensures this.localScale == localScale && this.localPosition == localPosition && this.active == active
    {
      this.localScale := localScale;
      this.localPosition := localPosition;
      this.active := active;
    }
  }

  class SceneCamera {
    var fieldOfView: real

    constructor (fieldOfView: real)
      ensures this.fieldOfView == fieldOfView
    {
      this.fieldOfView := fieldOfView;
    }
  }

  class ProjectorSize {
    // metres, with the inch readings the operator enters alongside
    var projectorWidth: real
    var projectorHeight: real
    var projectorDepth: real
    var projectorWidthIn: real
    var projectorHeightIn: real
    var projectorDepthIn: real
    var projectorScaleFactor: real

    var backgroundWidth: real
    var backgroundHeight: real
    var backgroundWidthIn: real
    var backgroundHeightIn: real

    var projectorPlane: Plane
    var backgroundPlane: Plane
    var cornerPlanes: seq<Plane>

    var camera: SceneCamera
    var cameraDistanceToBackground: real
    var cameraFOV: real

    /** The projector plane and the background plane are two objects, and neither is a corner plane. */
    ghost predicate Valid()
      reads this
    {
      && projectorPlane != backgroundPlane
      && projectorPlane !in cornerPlanes
      && backgroundPlane !in cornerPlanes
    }

    /** The corner planes, as a frame. */
    ghost function CornerPlaneSet(): set<Plane>
      reads this`cornerPlanes
    {
      set p | p in cornerPlanes
    }

    /**
      The scene shows the current dimensions: what `UpdatePlaneScale`,
      `UpdateCamera` and `UpdateBackgroundScale` leave behind together.
     */
    ghost predicate Displayed()
      reads this, CornerPlaneSet(), projectorPlane, camera, backgroundPlane
    {
      && (forall p :: p in cornerPlanes ==> p.localScale == CornerScale())
      && projectorPlane.localScale == ProjectorScale()
      && camera.fieldOfView == cameraFOV
      && backgroundPlane.localPosition == Vec3(0.0, 0.0, cameraDistanceToBackground)
      && backgroundPlane.localScale == Vec3(backgroundWidth, backgroundHeight, 1.0)
    }

    /** The inspector defaults, with the scene objects supplied by the caller. */
    constructor (projectorPlane: Plane, backgroundPlane: Plane, cornerPlanes: seq<Plane>, camera: SceneCamera)
      ensures this.projectorPlane == projectorPlane && this.backgroundPlane == backgroundPlane
      ensures this.cornerPlanes == cornerPlanes && this.camera == camera
      ensures projectorWidth == 0.355 && projectorHeight == 0.28 && projectorDepth == 0.01
      ensures projectorWidthIn == 14.0 && projectorHeightIn == 11.0 && projectorDepthIn == 0.39
      ensures projectorScaleFactor == 1.0
      ensures backgroundWidth == 4.44 && backgroundHeight == 2.5
      ensures backgroundWidthIn == 174.8 && backgroundHeightIn == 98.4
      ensures cameraDistanceToBackground == 5.0 && cameraFOV == 25.0
    {
      projectorWidth, projectorHeight, projectorDepth := 0.355, 0.28, 0.01;
      projectorWidthIn, projectorHeightIn, projectorDepthIn := 14.0, 11.0, 0.39;
      projectorScaleFactor := 1.0;
      backgroundWidth, backgroundHeight := 4.44, 2.5;
      backgroundWidthIn, backgroundHeightIn := 174.8, 98.4;
      cameraDistanceToBackground, cameraFOV := 5.0, 25.0;
      this.projectorPlane := projectorPlane;
      this.backgroundPlane := backgroundPlane;
      this.cornerPlanes := cornerPlanes;
      this.camera := camera;
    }

    /** The scale every corner plane gets. */
    function CornerScale(): Vec3
      reads this
    {
      Vec3(projectorWidth, projectorHeight, projectorDepth)
    }

    /** The scale the projector plane gets: the corner scale times the scale factor. */
    function ProjectorScale(): Vec3
      reads this
    {
      Vec3(projectorWidth * projectorScaleFactor, projectorHeight * projectorScaleFactor,
           projectorDepth * projectorScaleFactor)
    }

    /** With a scale factor of 1 the projector plane is exactly as large as a corner plane. */
    lemma UnitFactorMatchesCornerScale()
      requires projectorScaleFactor == 1.0
      ensures ProjectorScale() == CornerScale()
    {
    }

    /** A scale factor of `f` scales each dimension of the corner size by `f`. */
    lemma ProjectorScaleIsScaled(f: real)
      requires projectorScaleFactor == f
      ensures ProjectorScale() == Vec3(f * CornerScale().x, f * CornerScale().y, f * CornerScale().z)
    {
    }

    /** `UpdatePlaneScale`: every corner plane gets the projector size, the projector plane that size times the factor. */
    method UpdatePlaneScale()
      requires Valid()
      modifies CornerPlaneSet()`localScale, projectorPlane`localScale
      ensures forall p :: p in cornerPlanes ==> p.localScale == CornerScale()
      ensures projectorPlane.localScale == ProjectorScale()
    {
      for i := 0 to |cornerPlanes|
        invariant forall j :: 0 <= j < i ==> cornerPlanes[j].localScale == CornerScale()
      {
        cornerPlanes[i].localScale := Vec3(projectorWidth, projectorHeight, projectorDepth);
      }
      projectorPlane.localScale := Vec3(projectorWidth * projectorScaleFactor, projectorHeight * projectorScaleFactor,
                                        projectorDepth * projectorScaleFactor);
    }

    /** `UpdateCamera`: the camera's field of view becomes `cameraFOV`. */
    method UpdateCamera()
      modifies camera`fieldOfView
      ensures camera.fieldOfView == cameraFOV
    {
      camera.fieldOfView := cameraFOV;
    }

    /** `UpdateBackgroundScale`: the background sits `cameraDistanceToBackground` in front of the camera, at the background size. */
    method UpdateBackgroundScale()
      modifies backgroundPlane`localPosition, backgroundPlane`localScale
      ensures backgroundPlane.localPosition == Vec3(0.0, 0.0, cameraDistanceToBackground)
      ensures backgroundPlane.localScale == Vec3(backgroundWidth, backgroundHeight, 1.0)
    {
      backgroundPlane.localPosition := Vec3(0.0, 0.0, cameraDistanceToBackground);
      backgroundPlane.localScale := Vec3(backgroundWidth, backgroundHeight, 1.0);
    }

    /** `HideCalibration`: every corner plane and the background are deactivated; the projector plane stays. */
    method HideCalibration()
      modifies CornerPlaneSet()`active, backgroundPlane`active
      ensures forall p :: p in cornerPlanes ==> !p.active
      ensures !backgroundPlane.active
    {
      for i := 0 to |cornerPlanes|
        invariant forall j :: 0 <= j < i ==> !cornerPlanes[j].active
      {
        cornerPlanes[i].active := false;
      }
      backgroundPlane.active := false;
    }

    /** `ShowCalibration`: every corner plane and the background are activated. */
    method ShowCalibration()
      modifies CornerPlaneSet()`active, backgroundPlane`active
      ensures forall p :: p in cornerPlanes ==> p.active
      ensures backgroundPlane.active
    {
      for i := 0 to |cornerPlanes|
        invariant forall j :: 0 <= j < i ==> cornerPlanes[j].active
      {
        cornerPlanes[i].active := true;
      }
      backgroundPlane.active := true;
    }
  }
}
