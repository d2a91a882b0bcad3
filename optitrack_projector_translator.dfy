/**
  The component that drives the projector from the tracker: it captures
  calibration corners into the interpolator, keeps the eight corner markers in
  step with the destination corners, and each frame places the projector at
  the mapped tracker position and turns it by the tracked angles and the
  rotation offset, with per-axis sign flips.

  The tracker pose is passed in as parameters. The projector's rotation is
  recorded as the angle triples of the `Rotate` calls made since it was reset
  to the identity; quaternion composition is not modelled.
 */
module ProjectorTranslator {
  import opened UnityMath
  import opened Trilinear

  /** The sign an axis's angles get: +1 when the axis is flipped, -1 otherwise. */
  function AxisSign(flip: bool): (r: real)
    ensures r == 1.0 || r == -1.0
    ensures r > 0.0 <==> flip
  {
    if flip then 1.0 else -1.0
  }

  /** The angles of the first `Rotate`: the tracked angle times `-AxisSign`, per axis. */
  function TrackedRotation(trackerAngles: Vec3, flipRotX: bool, flipRotY: bool, flipRotZ: bool): Vec3 {
    Vec3(-trackerAngles.x * AxisSign(flipRotX),
         -trackerAngles.y * AxisSign(flipRotY),
         -trackerAngles.z * AxisSign(flipRotZ))
  }

  /** The angles of the second `Rotate`: the offset times `AxisSign`, per axis. */
  function OffsetRotation(rotateOffset: Vec3, flipRotX: bool, flipRotY: bool, flipRotZ: bool): Vec3 {
    Vec3(rotateOffset.x * AxisSign(flipRotX),
         rotateOffset.y * AxisSign(flipRotY),
         rotateOffset.z * AxisSign(flipRotZ))
  }

  /** With no flips the tracked angles pass through unchanged and the offset is negated. */
  lemma NoFlipSignRule(trackerAngles: Vec3, rotateOffset: Vec3)
    ensures TrackedRotation(trackerAngles, false, false, false) == trackerAngles
    ensures OffsetRotation(rotateOffset, false, false, false) == Neg(rotateOffset)
  {
  }

  /** Flipping one axis negates that axis of both triples and leaves the other axes alone. */
  lemma FlipXNegatesX(trackerAngles: Vec3, rotateOffset: Vec3, flipRotY: bool, flipRotZ: bool)
    ensures var t0 := TrackedRotation(trackerAngles, false, flipRotY, flipRotZ);
            var t1 := TrackedRotation(trackerAngles, true, flipRotY, flipRotZ);
            t1 == Vec3(-t0.x, t0.y, t0.z)
    ensures var o0 := OffsetRotation(rotateOffset, false, flipRotY, flipRotZ);
            var o1 := OffsetRotation(rotateOffset, true, flipRotY, flipRotZ);
            o1 == Vec3(-o0.x, o0.y, o0.z)
  {
  }

  /**
    Whatever the flips, an offset captured from the tracker's current angles
    yields a second triple that is the exact negation of the first.
   */
  lemma CapturedOffsetOpposesTracking(trackerAngles: Vec3, flipRotX: bool, flipRotY: bool, flipRotZ: bool)
    ensures OffsetRotation(trackerAngles, flipRotX, flipRotY, flipRotZ)
         == Neg(TrackedRotation(trackerAngles, flipRotX, flipRotY, flipRotZ))
  {
  }

  /**
    The markers after `ApplyCornerTransforms`: marker `k` takes destination
    corner `k`, in index order; on a destination shorter than eight the first
    missing index is an index error, so the markers from there on stay put.
   */
  function SyncedMarkers(markers: seq<Vec3>, destination: seq<Vec3>): (r: seq<Vec3>)
    requires |markers| == 8
    ensures |r| == 8
  {
    seq(8, k requires 0 <= k < 8 => if k < |destination| then destination[k] else markers[k])
  }

  /** On a full destination the markers become its first eight corners, whatever they were. */
  lemma SyncedMarkersFull(markers: seq<Vec3>, destination: seq<Vec3>)
    requires |markers| == 8 && |destination| >= 8
    ensures SyncedMarkers(markers, destination) == destination[..8]
  {
  }

  /** Marker `k` moves exactly when the destination has a corner `k`; the others never move. */
  lemma SyncedMarkerMoves(markers: seq<Vec3>, destination: seq<Vec3>, k: int)
    requires |markers| == 8 && 0 <= k < 8
    ensures SyncedMarkers(markers, destination)[k] == (if k < |destination| then destination[k] else markers[k])
  {
  }

  /** Syncing twice is syncing once. */
  lemma SyncedMarkersIdempotent(markers: seq<Vec3>, destination: seq<Vec3>)
    requires |markers| == 8
    ensures SyncedMarkers(SyncedMarkers(markers, destination), destination) == SyncedMarkers(markers, destination)
  {
  }

  /**
    Capturing corner `k` (which copies marker `k` into destination slot `k`)
    and then syncing leaves marker `k` where it was, and gives every other
    marker what the sync alone would give it.
   */
  lemma CaptureThenSyncKeepsMarker(markers: seq<Vec3>, destination: seq<Vec3>, k: int)
    requires |markers| == 8 && 0 <= k < 8 && k < |destination|
    ensures SyncedMarkers(markers, destination[k := markers[k]])[k] == markers[k]
    ensures forall j :: 0 <= j < 8 && j != k ==>
      SyncedMarkers(markers, destination[k := markers[k]])[j] == SyncedMarkers(markers, destination)[j]
  {
  }

  class OptitrackProjectorTranslator {
    const trinterp: TrilinearInterpolator

    /** The world positions of the eight corner markers, in octant order. */
    var cornerPositions: seq<Vec3>

    var rotateOffset: Vec3
    var flipRotX: bool
    var flipRotY: bool
    var flipRotZ: bool

    /** The projector's world position. */
    var projectorPosition: Vec3
    /** The angle triples of the `Rotate` calls applied since the rotation was last reset to the identity. */
    var projectorRotations: seq<Vec3>

    // diagnostic copies
    var projectorPos: Vec3
    var optitrackPos: Vec3

    ghost predicate Valid()
      reads this, trinterp
    {
      |cornerPositions| == 8 && trinterp.Valid()
    }

    /** The inspector defaults: no flips, a zero offset; the interpolator and marker positions come from the scene. */
    constructor (trinterp: TrilinearInterpolator, cornerPositions: seq<Vec3>)
      requires |cornerPositions| == 8 && trinterp.Valid()
      ensures Valid() && this.trinterp == trinterp && this.cornerPositions == cornerPositions
      ensures rotateOffset == Zero && !flipRotX && !flipRotY && !flipRotZ
      ensures projectorRotations == []
    {
      this.trinterp := trinterp;
      this.cornerPositions := cornerPositions;
      rotateOffset := Zero;
      flipRotX, flipRotY, flipRotZ := false, false, false;
      projectorPosition, projectorPos, optitrackPos := Zero, Zero, Zero;
      projectorRotations := [];
    }

    /**
      `CalibrateCorner`: the tracker position goes into source slot `corner`
      unguarded, so an index outside the source array is an index error that
      changes nothing. Only corners 0..7 have a case that copies their marker
      into the destination array, and that write is an index error when the
      destination is too short, after the source write.
     */
    method CalibrateCorner(corner: int, trackerPosition: Vec3) returns (completed: bool)
      requires Valid()
      modifies trinterp.sourceCubeCorners, trinterp.destinationCubeCorners
      ensures completed <==> 0 <= corner < trinterp.sourceCubeCorners.Length
                             && (corner < 8 ==> corner < trinterp.destinationCubeCorners.Length)
      ensures trinterp.sourceCubeCorners[..]
           == if 0 <= corner < trinterp.sourceCubeCorners.Length
              then old(trinterp.sourceCubeCorners[..])[corner := trackerPosition]
              else old(trinterp.sourceCubeCorners[..])
      ensures trinterp.destinationCubeCorners[..]
           == if 0 <= corner < 8 && corner < trinterp.sourceCubeCorners.Length && corner < trinterp.destinationCubeCorners.Length
              then old(trinterp.destinationCubeCorners[..])[corner := cornerPositions[corner]]
              else old(trinterp.destinationCubeCorners[..])
    {
      var source := trinterp.sourceCubeCorners;
      if !(0 <= corner < source.Length) {
        return false;
      }
      source[corner] := trackerPosition;
      if 0 <= corner < 8 {
        var destination := trinterp.destinationCubeCorners;
        if corner >= destination.Length {
          return false;
        }
        destination[corner] := cornerPositions[corner];
      }
      return true;
    }

    /**
      `ApplyCornerTransforms`: marker `k` moves to destination corner `k`, in
      index order; a destination shorter than eight stops it at an index error.
     */
    method ApplyCornerTransforms() returns (completed: bool)
      requires Valid()
      modifies this`cornerPositions
      ensures Valid()
      ensures completed <==> trinterp.destinationCubeCorners.Length >= 8
      ensures cornerPositions == SyncedMarkers(old(cornerPositions), trinterp.destinationCubeCorners[..])
    {
      var d := trinterp.destinationCubeCorners;
      completed := false;
      if d.Length <= 0 { return; }
      cornerPositions := cornerPositions[0 := d[0]];
      if d.Length <= 1 { return; }
      cornerPositions := cornerPositions[1 := d[1]];
      if d.Length <= 2 { return; }
      cornerPositions := cornerPositions[2 := d[2]];
      if d.Length <= 3 { return; }
      cornerPositions := cornerPositions[3 := d[3]];
      if d.Length <= 4 { return; }
      cornerPositions := cornerPositions[4 := d[4]];
      if d.Length <= 5 { return; }
      cornerPositions := cornerPositions[5 := d[5]];
      if d.Length <= 6 { return; }
      cornerPositions := cornerPositions[6 := d[6]];
      if d.Length <= 7 { return; }
      cornerPositions := cornerPositions[7 := d[7]];
      completed := true;
    }

    /** `SetRotationOffset`: the offset becomes the tracker's current Euler angles. */
    method SetRotationOffset(trackerAngles: Vec3)
      modifies this`rotateOffset
      ensures rotateOffset == trackerAngles
    {
      rotateOffset := trackerAngles;
    }

    /** `ResetRotationOffset`: the offset becomes (0,0,0). */
    method ResetRotationOffset()
      modifies this`rotateOffset
      ensures rotateOffset == Zero
    {
      rotateOffset := Zero;
    }

    /**
      The `ClampCubeCorners` wrapper: rectangularise both arrays, then resync
      the markers; an index error in the clamp skips the resync.
     */
    method ClampCubeCorners() returns (completed: bool)
      requires Valid()
      modifies trinterp.sourceCubeCorners, trinterp.destinationCubeCorners, this`cornerPositions
      ensures Valid()
      ensures completed <==> trinterp.sourceCubeCorners.Length >= 8 && trinterp.destinationCubeCorners.Length >= 8
      ensures trinterp.sourceCubeCorners[..] == ClampedCorners(old(trinterp.sourceCubeCorners[..]))
      ensures trinterp.destinationCubeCorners[..]
           == if trinterp.sourceCubeCorners.Length >= 8 then ClampedCorners(old(trinterp.destinationCubeCorners[..]))
              else old(trinterp.destinationCubeCorners[..])
      ensures cornerPositions == if completed then trinterp.destinationCubeCorners[..8] else old(cornerPositions)
    {
      completed := trinterp.ClampCubeCorners();
      if !completed {
        return;
      }
      completed := ApplyCornerTransforms();
      SyncedMarkersFull(old(cornerPositions), trinterp.destinationCubeCorners[..]);
    }

    /**
      The `ClampCubeCornersZ` wrapper: full clamp on the source, Z variant on
      the destination, then resync; an index error in the clamp skips the resync.
     */
    method ClampCubeCornersZ() returns (completed: bool)
      requires Valid()
      modifies trinterp.sourceCubeCorners, trinterp.destinationCubeCorners, this`cornerPositions
      ensures Valid()
      ensures completed <==> trinterp.sourceCubeCorners.Length >= 8 && trinterp.destinationCubeCorners.Length >= 8
      ensures trinterp.sourceCubeCorners[..] == ClampedCorners(old(trinterp.sourceCubeCorners[..]))
      ensures trinterp.destinationCubeCorners[..]
           == if trinterp.sourceCubeCorners.Length >= 8 then ClampedCornersZ(old(trinterp.destinationCubeCorners[..]))
              else old(trinterp.destinationCubeCorners[..])
      ensures cornerPositions == if completed then trinterp.destinationCubeCorners[..8] else old(cornerPositions)
    {
      completed := trinterp.ClampCubeCornersZ();
      if !completed {
        return;
      }
      completed := ApplyCornerTransforms();
      SyncedMarkersFull(old(cornerPositions), trinterp.destinationCubeCorners[..]);
    }

    /**
      `Update`, one frame: the projector goes exactly to the mapped tracker
      position, its rotation is reset and then turned by the tracked triple and
      by the offset triple, in that order.
     */
    method Update(trackerPosition: Vec3, trackerAngles: Vec3)
      requires Valid()
      requires trinterp.sourceCubeCorners.Length >= 1 && trinterp.destinationCubeCorners.Length >= 8
      modifies this`projectorPosition, this`projectorPos, this`optitrackPos, this`projectorRotations
      ensures projectorPosition == trinterp.Map(trackerPosition)
      ensures projectorPos == projectorPosition && optitrackPos == trackerPosition
      ensures projectorRotations == [TrackedRotation(trackerAngles, flipRotX, flipRotY, flipRotZ),
                                     OffsetRotation(rotateOffset, flipRotX, flipRotY, flipRotZ)]
    {
      projectorPosition := trinterp.Map(trackerPosition);
      projectorPos := projectorPosition;
      optitrackPos := trackerPosition;
      projectorRotations := [];
      projectorRotations := projectorRotations + [TrackedRotation(trackerAngles, flipRotX, flipRotY, flipRotZ)];
      projectorRotations := projectorRotations + [OffsetRotation(rotateOffset, flipRotX, flipRotY, flipRotZ)];
    }
  }
}
