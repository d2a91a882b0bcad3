/**
  The trilinear calibration mapper.

  A tracked point is clamped into the bounding box of eight source corners,
  turned into three factors in [0,1] (each optionally flipped), and used to
  blend eight destination corners, each shifted by a per-octant fudge vector,
  along X, then Y, then Z. The same component repairs skewed calibrations in
  place by rectangularising the corner arrays.

  Octant convention: corner `i = 4*x_bit + 2*y_bit + z_bit`, so 0 is
  (-,-,-), 1 is (-,-,+), 2 is (-,+,-), ... and 7 is (+,+,+). A set bit selects
  the maximum (and the `fudgeMax*` term) on that axis, a clear bit the minimum.
 */
module Trilinear {
  import opened UnityMath

  // ---------------------------------------------------------------------------
  // The octant convention, stated once

  predicate XBit(i: int) { i in {4, 5, 6, 7} }
  predicate YBit(i: int) { i in {2, 3, 6, 7} }
  predicate ZBit(i: int) { i in {1, 3, 5, 7} }

  /** The lower index of the pair of corners that differ from `i` only in x. */
  function LowerOfPair(i: int): int { if i >= 4 then i - 4 else i }

  datatype Axis = X | Y | Z

  function Coord(v: Vec3, a: Axis): real {
    match a
    case X => v.x
    case Y => v.y
    case Z => v.z
  }

  predicate Bit(i: int, a: Axis) {
    match a
    case X => XBit(i)
    case Y => YBit(i)
    case Z => ZBit(i)
  }

  /** The corner of the box `[lo, hi]` that octant `i` names. */
  function OctantCorner(lo: Vec3, hi: Vec3, i: int): Vec3 {
    Vec3(if XBit(i) then hi.x else lo.x,
         if YBit(i) then hi.y else lo.y,
         if ZBit(i) then hi.z else lo.z)
  }

  /** The factors at which the blend lands exactly on corner `i`. */
  function CornerFactors(i: int): Vec3 {
    Vec3(if XBit(i) then 1.0 else 0.0,
         if YBit(i) then 1.0 else 0.0,
         if ZBit(i) then 1.0 else 0.0)
  }

  // ---------------------------------------------------------------------------
  // The mapping options that live on the interpolator

  datatype MappingOptions = MappingOptions(
    flipPosX: bool, flipPosY: bool, flipPosZ: bool,
    fudgeMaxX: real, fudgeMinX: real,
    fudgeMaxY: real, fudgeMinY: real,
    fudgeMaxZ: real, fudgeMinZ: real)

  /** The fudge vector of corner `i`: per axis, `fudgeMax*` when the bit is set, `fudgeMin*` otherwise. */
  function FudgeFor(o: MappingOptions, i: int): Vec3 {
    Vec3(if XBit(i) then o.fudgeMaxX else o.fudgeMinX,
         if YBit(i) then o.fudgeMaxY else o.fudgeMinY,
         if ZBit(i) then o.fudgeMaxZ else o.fudgeMinZ)
  }

  function FudgedCorner(o: MappingOptions, cubeCorners: seq<Vec3>, i: int): Vec3
    requires 0 <= i < 8 <= |cubeCorners|
  {
    Add(cubeCorners[i], FudgeFor(o, i))
  }

  /** The eight fudged destination corners, in octant order. */
  function FudgedCorners(o: MappingOptions, cubeCorners: seq<Vec3>): (r: seq<Vec3>)
    requires 8 <= |cubeCorners|
    ensures |r| == 8
  {
    seq(8, i requires 0 <= i < 8 => FudgedCorner(o, cubeCorners, i))
  }

  /** The corner index reached from corner `i` once the flipped axes are mirrored. */
  function FlipIndex(o: MappingOptions, i: int): int {
    (if XBit(i) != o.flipPosX then 4 else 0)
    + (if YBit(i) != o.flipPosY then 2 else 0)
    + (if ZBit(i) != o.flipPosZ then 1 else 0)
  }

  // ---------------------------------------------------------------------------
  // Component-wise minimum and maximum of a list of vectors

  /** Component-wise minimum of a non-empty list (the value `GetMinCorner` computes). */
  function SeqMin(vs: seq<Vec3>): Vec3
    requires |vs| > 0
    decreases |vs|
  {
    if |vs| == 1 then vs[0] else MinVec(SeqMin(vs[..|vs| - 1]), vs[|vs| - 1])
  }

  /** Component-wise maximum of a non-empty list (the value `GetMaxCorner` computes). */
  function SeqMax(vs: seq<Vec3>): Vec3
    requires |vs| > 0
    decreases |vs|
  {
    if |vs| == 1 then vs[0] else MaxVec(SeqMax(vs[..|vs| - 1]), vs[|vs| - 1])
  }

  /** What `GetMinVector` returns: the zero vector for an empty list. */
  function MinVector(vs: seq<Vec3>): Vec3 {
    if |vs| == 0 then Zero else SeqMin(vs)
  }

  /** What `GetMaxVector` returns: the zero vector for an empty list. */
  function MaxVector(vs: seq<Vec3>): Vec3 {
    if |vs| == 0 then Zero else SeqMax(vs)
  }

  /** `SeqMin` is a lower bound on every axis, and on every axis some element attains it. */
  lemma {:induction false} SeqMinBound(vs: seq<Vec3>, a: Axis)
    requires |vs| > 0
    ensures forall i :: 0 <= i < |vs| ==> Coord(SeqMin(vs), a) <= Coord(vs[i], a)
    ensures exists i :: 0 <= i < |vs| && Coord(SeqMin(vs), a) == Coord(vs[i], a)
  {
    if |vs| == 1 {
      assert Coord(SeqMin(vs), a) == Coord(vs[0], a);
    } else {
      var n := |vs| - 1;
      var init := vs[..n];
      SeqMinBound(init, a);
      var k :| 0 <= k < |init| && Coord(SeqMin(init), a) == Coord(init[k], a);
      assert Coord(SeqMin(vs), a) == Min(Coord(SeqMin(init), a), Coord(vs[n], a));
      forall i | 0 <= i < |vs|
        ensures Coord(SeqMin(vs), a) <= Coord(vs[i], a)
      {
        if i < n {
          assert vs[i] == init[i];
        }
      }
      if Coord(SeqMin(vs), a) == Coord(vs[n], a) {
        assert 0 <= n < |vs|;
      } else {
        assert vs[k] == init[k];
      }
    }
  }

  /** `SeqMax` is an upper bound on every axis, and on every axis some element attains it. */
  lemma {:induction false} SeqMaxBound(vs: seq<Vec3>, a: Axis)
    requires |vs| > 0
    ensures forall i :: 0 <= i < |vs| ==> Coord(vs[i], a) <= Coord(SeqMax(vs), a)
    ensures exists i :: 0 <= i < |vs| && Coord(SeqMax(vs), a) == Coord(vs[i], a)
  {
    if |vs| == 1 {
      assert Coord(SeqMax(vs), a) == Coord(vs[0], a);
    } else {
      var n := |vs| - 1;
      var init := vs[..n];
      SeqMaxBound(init, a);
      var k :| 0 <= k < |init| && Coord(SeqMax(init), a) == Coord(init[k], a);
      assert Coord(SeqMax(vs), a) == Max(Coord(SeqMax(init), a), Coord(vs[n], a));
      forall i | 0 <= i < |vs|
        ensures Coord(vs[i], a) <= Coord(SeqMax(vs), a)
      {
        if i < n {
          assert vs[i] == init[i];
        }
      }
      if Coord(SeqMax(vs), a) == Coord(vs[n], a) {
        assert 0 <= n < |vs|;
      } else {
        assert vs[k] == init[k];
      }
    }
  }

  /** All three bounds at once, for every element. */
  lemma SeqBounds(vs: seq<Vec3>)
    requires |vs| > 0
    ensures forall i :: 0 <= i < |vs| ==> InBox(vs[i], SeqMin(vs), SeqMax(vs))
  {
    SeqMinBound(vs, X);
    SeqMinBound(vs, Y);
    SeqMinBound(vs, Z);
    SeqMaxBound(vs, X);
    SeqMaxBound(vs, Y);
    SeqMaxBound(vs, Z);
  }

  /** The minimum vector never exceeds the maximum vector, empty list included. */
  lemma MinVectorBelowMax(vs: seq<Vec3>)
    ensures LessEq(MinVector(vs), MaxVector(vs))
  {
    if |vs| > 0 {
      SeqBounds(vs);
      assert InBox(vs[0], SeqMin(vs), SeqMax(vs));
    }
  }

  /** A value that bounds every element from below on axis `a` and is attained there is the minimum. */
  lemma SeqMinIs(vs: seq<Vec3>, v: Vec3, a: Axis, k: int)
    requires 0 <= k < |vs| && Coord(vs[k], a) == Coord(v, a)
    requires forall i :: 0 <= i < |vs| ==> Coord(v, a) <= Coord(vs[i], a)
    ensures Coord(SeqMin(vs), a) == Coord(v, a)
  {
    SeqMinBound(vs, a);
  }

  /** A value that bounds every element from above on axis `a` and is attained there is the maximum. */
  lemma SeqMaxIs(vs: seq<Vec3>, v: Vec3, a: Axis, k: int)
    requires 0 <= k < |vs| && Coord(vs[k], a) == Coord(v, a)
    requires forall i :: 0 <= i < |vs| ==> Coord(vs[i], a) <= Coord(v, a)
    ensures Coord(SeqMax(vs), a) == Coord(v, a)
  {
    SeqMaxBound(vs, a);
  }

  /**
    `GetMinVector`: logs and returns the zero vector for a null or empty array;
    otherwise folds `Mathf.Min` per component over every element, the first included.
   */
  method GetMinVector(vectors: array?<Vec3>) returns (minVector: Vec3)
    ensures vectors == null ==> minVector == Zero
    ensures vectors != null ==> minVector == MinVector(vectors[..])
  {
    if vectors == null || vectors.Length == 0 {
      return Zero;
    }
    minVector := vectors[0];
    var i := 0;
    while i < vectors.Length
      invariant 0 <= i <= vectors.Length
      invariant minVector == if i == 0 then vectors[0] else SeqMin(vectors[..i])
    {
      var vector := vectors[i];
      minVector := Vec3(Min(minVector.x, vector.x), Min(minVector.y, vector.y), Min(minVector.z, vector.z));
      assert vectors[..i + 1][..i] == vectors[..i];
      i := i + 1;
    }
    assert vectors[..vectors.Length] == vectors[..];
  }

  /** `GetMaxVector`: as `GetMinVector`, with `Mathf.Max`. */
  method GetMaxVector(vectors: array?<Vec3>) returns (maxVector: Vec3)
    ensures vectors == null ==> maxVector == Zero
    ensures vectors != null ==> maxVector == MaxVector(vectors[..])
  {
    if vectors == null || vectors.Length == 0 {
      return Zero;
    }
    maxVector := vectors[0];
    var i := 0;
    while i < vectors.Length
      invariant 0 <= i <= vectors.Length
      invariant maxVector == if i == 0 then vectors[0] else SeqMax(vectors[..i])
    {
      var vector := vectors[i];
      maxVector := Vec3(Max(maxVector.x, vector.x), Max(maxVector.y, vector.y), Max(maxVector.z, vector.z));
      assert vectors[..i + 1][..i] == vectors[..i];
      i := i + 1;
    }
    assert vectors[..vectors.Length] == vectors[..];
  }

  /**
    `GetMinCorner`: starts from `corners[0]` (so an empty array is an index
    error, excluded here) and folds `Vector3.Min` over every element.
   */
  method GetMinCorner(corners: array<Vec3>) returns (minCorner: Vec3)
    requires corners.Length > 0
    ensures minCorner == SeqMin(corners[..])
  {
    minCorner := corners[0];
    for i := 0 to corners.Length
      invariant minCorner == if i == 0 then corners[0] else SeqMin(corners[..i])
    {
      minCorner := MinVec(minCorner, corners[i]);
      assert corners[..i + 1][..i] == corners[..i];
    }
    assert corners[..corners.Length] == corners[..];
  }

  /** `GetMaxCorner`: as `GetMinCorner`, with `Vector3.Max`. */
  method GetMaxCorner(corners: array<Vec3>) returns (maxCorner: Vec3)
    requires corners.Length > 0
    ensures maxCorner == SeqMax(corners[..])
  {
    maxCorner := corners[0];
    for i := 0 to corners.Length
      invariant maxCorner == if i == 0 then corners[0] else SeqMax(corners[..i])
    {
      maxCorner := MaxVec(maxCorner, corners[i]);
      assert corners[..i + 1][..i] == corners[..i];
    }
    assert corners[..corners.Length] == corners[..];
  }

  // ---------------------------------------------------------------------------
  // The mapping

  /** `ClampCoordinate`: `Mathf.Clamp` of each component into `[GetMinVector, GetMaxVector]`. */
  function ClampCoordinate(input: Vec3, cubeCorners: seq<Vec3>): (r: Vec3)
    ensures InBox(r, MinVector(cubeCorners), MaxVector(cubeCorners))
    ensures InBox(input, MinVector(cubeCorners), MaxVector(cubeCorners)) ==> r == input
  {
    var minCorner := MinVector(cubeCorners);
    var maxCorner := MaxVector(cubeCorners);
    MinVectorBelowMax(cubeCorners);
    Vec3(Clamp(input.x, minCorner.x, maxCorner.x),
         Clamp(input.y, minCorner.y, maxCorner.y),
         Clamp(input.z, minCorner.z, maxCorner.z))
  }

  /**
    `GetInterpolationFactors`: `Mathf.InverseLerp` per axis, then `1 - t` on
    every flipped axis. Each factor lies in [0,1]; a degenerate axis yields 0
    (1 when flipped).
   */
  function InterpolationFactors(o: MappingOptions, input: Vec3, minCorner: Vec3, maxCorner: Vec3): (f: Vec3)
    ensures InBox(f, Zero, Vec3(1.0, 1.0, 1.0))
    ensures minCorner.x == maxCorner.x ==> f.x == if o.flipPosX then 1.0 else 0.0
    ensures minCorner.y == maxCorner.y ==> f.y == if o.flipPosY then 1.0 else 0.0
    ensures minCorner.z == maxCorner.z ==> f.z == if o.flipPosZ then 1.0 else 0.0
  {
    var xd := InverseLerp(minCorner.x, maxCorner.x, input.x);
    var yd := InverseLerp(minCorner.y, maxCorner.y, input.y);
    var zd := InverseLerp(minCorner.z, maxCorner.z, input.z);
    Vec3(if o.flipPosX then 1.0 - xd else xd,
         if o.flipPosY then 1.0 - yd else yd,
         if o.flipPosZ then 1.0 - zd else zd)
  }

  /** The seven lerps of the blend: four along X, two along Y, one along Z, in that order. */
  function BlendCube(p000: Vec3, p001: Vec3, p010: Vec3, p011: Vec3,
                     p100: Vec3, p101: Vec3, p110: Vec3, p111: Vec3, factors: Vec3): Vec3
  {
    var c00 := LerpVec(p000, p100, factors.x);
    var c01 := LerpVec(p001, p101, factors.x);
    var c10 := LerpVec(p010, p110, factors.x);
    var c11 := LerpVec(p011, p111, factors.x);
    var c0 := LerpVec(c00, c10, factors.y);
    var c1 := LerpVec(c01, c11, factors.y);
    LerpVec(c0, c1, factors.z)
  }

  /** `InterpolateCube`: shift the eight corners by their fudge vectors and blend them. */
  function InterpolateCube(o: MappingOptions, cubeCorners: seq<Vec3>, factors: Vec3): Vec3
    requires |cubeCorners| >= 8
  {
    BlendCube(
      Add(cubeCorners[0], Vec3(o.fudgeMinX, o.fudgeMinY, o.fudgeMinZ)),
      Add(cubeCorners[1], Vec3(o.fudgeMinX, o.fudgeMinY, o.fudgeMaxZ)),
      Add(cubeCorners[2], Vec3(o.fudgeMinX, o.fudgeMaxY, o.fudgeMinZ)),
      Add(cubeCorners[3], Vec3(o.fudgeMinX, o.fudgeMaxY, o.fudgeMaxZ)),
      Add(cubeCorners[4], Vec3(o.fudgeMaxX, o.fudgeMinY, o.fudgeMinZ)),
      Add(cubeCorners[5], Vec3(o.fudgeMaxX, o.fudgeMinY, o.fudgeMaxZ)),
      Add(cubeCorners[6], Vec3(o.fudgeMaxX, o.fudgeMaxY, o.fudgeMinZ)),
      Add(cubeCorners[7], Vec3(o.fudgeMaxX, o.fudgeMaxY, o.fudgeMaxZ)),
      factors)
  }

  /**
    `TrilinearInterpolate`: clamp into the source bounds, compute the factors
    against `GetMinCorner`/`GetMaxCorner` of the source corners, and blend the
    destination corners. An empty source array or fewer than eight destination
    corners is an index error in the engine, excluded here.
   */
  function TrilinearInterpolate(o: MappingOptions, source: seq<Vec3>, destination: seq<Vec3>, input: Vec3): Vec3
    requires |source| >= 1 && |destination| >= 8
  {
    var clamped := ClampCoordinate(input, source);
    var factors := InterpolationFactors(o, clamped, SeqMin(source), SeqMax(source));
    InterpolateCube(o, destination, factors)
  }

  // ---------------------------------------------------------------------------
  // Properties of the mapping

  /** Setting the flip of an axis replaces that factor `t` by `1 - t`. */
  lemma FlipComplementsFactor(o: MappingOptions, input: Vec3, minCorner: Vec3, maxCorner: Vec3)
    ensures var plain := InterpolationFactors(o.(flipPosX := false, flipPosY := false, flipPosZ := false), input, minCorner, maxCorner);
            var f := InterpolationFactors(o, input, minCorner, maxCorner);
            && f.x == (if o.flipPosX then 1.0 - plain.x else plain.x)
            && f.y == (if o.flipPosY then 1.0 - plain.y else plain.y)
            && f.z == (if o.flipPosZ then 1.0 - plain.z else plain.z)
  {
  }

  /** Inside the bounds of a non-degenerate axis, the unflipped factor is the relative position. */
  lemma FactorIsRelativePosition(o: MappingOptions, input: Vec3, minCorner: Vec3, maxCorner: Vec3)
    requires !o.flipPosX && minCorner.x < maxCorner.x && minCorner.x <= input.x <= maxCorner.x
    ensures Lerp(minCorner.x, maxCorner.x, InterpolationFactors(o, input, minCorner, maxCorner).x) == input.x
  {
    LerpOfInverseLerp(minCorner.x, maxCorner.x, input.x);
  }

  /** The literal fudge vectors of `InterpolateCube` follow the octant convention. */
  lemma InterpolateCubeUsesFudgedCorners(o: MappingOptions, cubeCorners: seq<Vec3>, factors: Vec3)
    requires |cubeCorners| >= 8
    ensures var p := FudgedCorners(o, cubeCorners);
            InterpolateCube(o, cubeCorners, factors)
              == BlendCube(p[0], p[1], p[2], p[3], p[4], p[5], p[6], p[7], factors)
  {
  }

  /** At the factors `CornerFactors(i)` the blend returns its `i`-th point. */
  lemma BlendCubeAtCorner(p: seq<Vec3>, i: int)
    requires |p| == 8 && 0 <= i < 8
    ensures BlendCube(p[0], p[1], p[2], p[3], p[4], p[5], p[6], p[7], CornerFactors(i)) == p[i]
  {
    var f := CornerFactors(i);
    LerpVecEnds(p[0], p[4]);
    LerpVecEnds(p[1], p[5]);
    LerpVecEnds(p[2], p[6]);
    LerpVecEnds(p[3], p[7]);
    var c00 := LerpVec(p[0], p[4], f.x);
    var c01 := LerpVec(p[1], p[5], f.x);
    var c10 := LerpVec(p[2], p[6], f.x);
    var c11 := LerpVec(p[3], p[7], f.x);
    assert c00 == if XBit(i) then p[4] else p[0];
    assert c01 == if XBit(i) then p[5] else p[1];
    assert c10 == if XBit(i) then p[6] else p[2];
    assert c11 == if XBit(i) then p[7] else p[3];
    LerpVecEnds(c00, c10);
    LerpVecEnds(c01, c11);
    var c0 := LerpVec(c00, c10, f.y);
    var c1 := LerpVec(c01, c11, f.y);
    assert c0 == if YBit(i) then c10 else c00;
    assert c1 == if YBit(i) then c11 else c01;
    LerpVecEnds(c0, c1);
    assert LerpVec(c0, c1, f.z) == if ZBit(i) then c1 else c0;
  }

  /** At the factors `CornerFactors(i)` the blend returns fudged corner `i` exactly. */
  lemma InterpolateCubeAtCorner(o: MappingOptions, cubeCorners: seq<Vec3>, i: int)
    requires |cubeCorners| >= 8 && 0 <= i < 8
    ensures InterpolateCube(o, cubeCorners, CornerFactors(i)) == FudgedCorner(o, cubeCorners, i)
  {
    InterpolateCubeUsesFudgedCorners(o, cubeCorners, CornerFactors(i));
    var p := FudgedCorners(o, cubeCorners);
    BlendCubeAtCorner(p, i);
  }

  /** The blend of eight points of a box stays in the box. */
  lemma BlendCubeInBox(p000: Vec3, p001: Vec3, p010: Vec3, p011: Vec3,
                       p100: Vec3, p101: Vec3, p110: Vec3, p111: Vec3, factors: Vec3, lo: Vec3, hi: Vec3)
    requires InBox(p000, lo, hi) && InBox(p001, lo, hi) && InBox(p010, lo, hi) && InBox(p011, lo, hi)
    requires InBox(p100, lo, hi) && InBox(p101, lo, hi) && InBox(p110, lo, hi) && InBox(p111, lo, hi)
    ensures InBox(BlendCube(p000, p001, p010, p011, p100, p101, p110, p111, factors), lo, hi)
  {
    var c00 := LerpVec(p000, p100, factors.x);
    var c01 := LerpVec(p001, p101, factors.x);
    var c10 := LerpVec(p010, p110, factors.x);
    var c11 := LerpVec(p011, p111, factors.x);
    LerpVecInBox(p000, p100, factors.x, lo, hi);
    LerpVecInBox(p001, p101, factors.x, lo, hi);
    LerpVecInBox(p010, p110, factors.x, lo, hi);
    LerpVecInBox(p011, p111, factors.x, lo, hi);
    var c0 := LerpVec(c00, c10, factors.y);
    var c1 := LerpVec(c01, c11, factors.y);
    LerpVecInBox(c00, c10, factors.y, lo, hi);
    LerpVecInBox(c01, c11, factors.y, lo, hi);
    LerpVecInBox(c0, c1, factors.z, lo, hi);
  }

  /**
    Containment: whatever the input, the mapped point lies in the component-wise
    bounding box of the eight fudged destination corners.
   */
  lemma Containment(o: MappingOptions, source: seq<Vec3>, destination: seq<Vec3>, input: Vec3)
    requires |source| >= 1 && |destination| >= 8
    ensures var p := FudgedCorners(o, destination);
            InBox(TrilinearInterpolate(o, source, destination, input), SeqMin(p), SeqMax(p))
  {
    var p := FudgedCorners(o, destination);
    var factors := InterpolationFactors(o, ClampCoordinate(input, source), SeqMin(source), SeqMax(source));
    SeqBounds(p);
    InterpolateCubeUsesFudgedCorners(o, destination, factors);
    BlendCubeInBox(p[0], p[1], p[2], p[3], p[4], p[5], p[6], p[7], factors, SeqMin(p), SeqMax(p));
  }

  /** Eight corners placed on a non-degenerate axis-aligned box in octant order. */
  predicate IsOctantBox(corners: seq<Vec3>, lo: Vec3, hi: Vec3) {
    && |corners| == 8
    && lo.x < hi.x && lo.y < hi.y && lo.z < hi.z
    && forall i :: 0 <= i < 8 ==> corners[i] == OctantCorner(lo, hi, i)
  }

  /** The bounds of an octant box are its two extreme corners. */
  lemma OctantBoxBounds(corners: seq<Vec3>, lo: Vec3, hi: Vec3)
    requires IsOctantBox(corners, lo, hi)
    ensures SeqMin(corners) == lo && SeqMax(corners) == hi
  {
    assert corners[0] == lo && corners[7] == hi;
    SeqMinIs(corners, lo, X, 0);
    SeqMinIs(corners, lo, Y, 0);
    SeqMinIs(corners, lo, Z, 0);
    SeqMaxIs(corners, hi, X, 7);
    SeqMaxIs(corners, hi, Y, 7);
    SeqMaxIs(corners, hi, Z, 7);
  }

  /** `FlipIndex` toggles exactly the bits of the flipped axes. */
  lemma FlipIndexBits(o: MappingOptions, i: int)
    ensures 0 <= FlipIndex(o, i) < 8
    ensures XBit(FlipIndex(o, i)) == (XBit(i) != o.flipPosX)
    ensures YBit(FlipIndex(o, i)) == (YBit(i) != o.flipPosY)
    ensures ZBit(FlipIndex(o, i)) == (ZBit(i) != o.flipPosZ)
  {
  }

  /** The factors of a corner of a non-degenerate box are 0 or 1, mirrored on flipped axes. */
  lemma FactorsAtOctantCorner(o: MappingOptions, lo: Vec3, hi: Vec3, i: int)
    requires lo.x < hi.x && lo.y < hi.y && lo.z < hi.z
    ensures InterpolationFactors(o, OctantCorner(lo, hi, i), lo, hi) == CornerFactors(FlipIndex(o, i))
  {
    FlipIndexBits(o, i);
    var c := OctantCorner(lo, hi, i);
    var f := CornerFactors(FlipIndex(o, i));
    FactorAtBound(lo.x, hi.x, c.x, o.flipPosX, XBit(i));
    FactorAtBound(lo.y, hi.y, c.y, o.flipPosY, YBit(i));
    FactorAtBound(lo.z, hi.z, c.z, o.flipPosZ, ZBit(i));
  }

  /** One axis of `FactorsAtOctantCorner`. */
  lemma FactorAtBound(lo: real, hi: real, v: real, flip: bool, bit: bool)
    requires lo < hi && v == if bit then hi else lo
    ensures var t := InverseLerp(lo, hi, v);
            (if flip then 1.0 - t else t) == if bit != flip then 1.0 else 0.0
  {
    if bit {
      assert (hi - lo) / (hi - lo) == 1.0;
    } else {
      assert (lo - lo) / (hi - lo) == 0.0;
    }
  }

  /**
    At source corner `i` of an octant box the mapper returns the fudged
    destination corner whose index has the flipped axes' bits toggled.
   */
  lemma SourceCornerMapsToFudgedCorner(o: MappingOptions, source: seq<Vec3>, destination: seq<Vec3>,
                                       lo: Vec3, hi: Vec3, i: int)
    requires IsOctantBox(source, lo, hi) && |destination| >= 8 && 0 <= i < 8
    ensures 0 <= FlipIndex(o, i) < 8
    ensures TrilinearInterpolate(o, source, destination, source[i]) == FudgedCorner(o, destination, FlipIndex(o, i))
  {
    OctantBoxBounds(source, lo, hi);
    FlipIndexBits(o, i);
    assert InBox(source[i], lo, hi);
    assert ClampCoordinate(source[i], source) == source[i];
    FactorsAtOctantCorner(o, lo, hi, i);
    InterpolateCubeAtCorner(o, destination, FlipIndex(o, i));
  }

  /**
    Corner exactness: with no flips, zero fudge and the source corners on an
    octant box, source corner `i` maps onto destination corner `i`.
   */
  lemma CornerExactness(o: MappingOptions, source: seq<Vec3>, destination: seq<Vec3>, lo: Vec3, hi: Vec3, i: int)
    requires IsOctantBox(source, lo, hi) && |destination| >= 8 && 0 <= i < 8
    requires !o.flipPosX && !o.flipPosY && !o.flipPosZ
    requires o.fudgeMaxX == o.fudgeMinX == o.fudgeMaxY == o.fudgeMinY == o.fudgeMaxZ == o.fudgeMinZ == 0.0
    ensures TrilinearInterpolate(o, source, destination, source[i]) == destination[i]
  {
    SourceCornerMapsToFudgedCorner(o, source, destination, lo, hi, i);
    assert FlipIndex(o, i) == i;
  }

  /** Clamping into the bounds first does not change `InverseLerp`, which clamps anyway. */
  lemma InverseLerpOfClamp(lo: real, hi: real, v: real)
    requires lo < hi
    ensures InverseLerp(lo, hi, Clamp(v, lo, hi)) == InverseLerp(lo, hi, v)
  {
    DivBounds(v - lo, hi - lo);
    if v < lo {
      assert InverseLerp(lo, hi, lo) == 0.0 by { assert (lo - lo) / (hi - lo) == 0.0; }
    } else if v > hi {
      assert InverseLerp(lo, hi, hi) == 1.0 by { assert (hi - lo) / (hi - lo) == 1.0; }
    }
  }

  /** The blend of the eight corners of a box is the per-axis lerp between its extremes. */
  lemma BlendOctantBox(lo: Vec3, hi: Vec3, f: Vec3)
    ensures BlendCube(OctantCorner(lo, hi, 0), OctantCorner(lo, hi, 1), OctantCorner(lo, hi, 2), OctantCorner(lo, hi, 3),
                      OctantCorner(lo, hi, 4), OctantCorner(lo, hi, 5), OctantCorner(lo, hi, 6), OctantCorner(lo, hi, 7), f)
            == Vec3(Lerp(lo.x, hi.x, f.x), Lerp(lo.y, hi.y, f.y), Lerp(lo.z, hi.z, f.z))
  {
    var x := Lerp(lo.x, hi.x, f.x);
    var y := Lerp(lo.y, hi.y, f.y);
    assert LerpVec(OctantCorner(lo, hi, 0), OctantCorner(lo, hi, 4), f.x) == Vec3(x, lo.y, lo.z);
    assert LerpVec(OctantCorner(lo, hi, 1), OctantCorner(lo, hi, 5), f.x) == Vec3(x, lo.y, hi.z);
    assert LerpVec(OctantCorner(lo, hi, 2), OctantCorner(lo, hi, 6), f.x) == Vec3(x, hi.y, lo.z);
    assert LerpVec(OctantCorner(lo, hi, 3), OctantCorner(lo, hi, 7), f.x) == Vec3(x, hi.y, hi.z);
    assert LerpVec(Vec3(x, lo.y, lo.z), Vec3(x, hi.y, lo.z), f.y) == Vec3(x, y, lo.z);
    assert LerpVec(Vec3(x, lo.y, hi.z), Vec3(x, hi.y, hi.z), f.y) == Vec3(x, y, hi.z);
  }

  /**
    Box to box: with no flips and zero fudge, mapping between two
    axis-aligned octant boxes is, per axis, the relative position in the
    source box carried over to the destination box (clamped to it).
   */
  lemma BoxToBox(o: MappingOptions, source: seq<Vec3>, destination: seq<Vec3>,
                 slo: Vec3, shi: Vec3, dlo: Vec3, dhi: Vec3, input: Vec3)
    requires IsOctantBox(source, slo, shi) && IsOctantBox(destination, dlo, dhi)
    requires !o.flipPosX && !o.flipPosY && !o.flipPosZ
    requires o.fudgeMaxX == o.fudgeMinX == o.fudgeMaxY == o.fudgeMinY == o.fudgeMaxZ == o.fudgeMinZ == 0.0
    ensures TrilinearInterpolate(o, source, destination, input)
            == Vec3(Lerp(dlo.x, dhi.x, InverseLerp(slo.x, shi.x, input.x)),
                    Lerp(dlo.y, dhi.y, InverseLerp(slo.y, shi.y, input.y)),
                    Lerp(dlo.z, dhi.z, InverseLerp(slo.z, shi.z, input.z)))
  {
    OctantBoxBounds(source, slo, shi);
    InverseLerpOfClamp(slo.x, shi.x, input.x);
    InverseLerpOfClamp(slo.y, shi.y, input.y);
    InverseLerpOfClamp(slo.z, shi.z, input.z);
    var f := Vec3(InverseLerp(slo.x, shi.x, input.x), InverseLerp(slo.y, shi.y, input.y), InverseLerp(slo.z, shi.z, input.z));
    assert InterpolationFactors(o, ClampCoordinate(input, source), SeqMin(source), SeqMax(source)) == f;
    InterpolateCubeUsesFudgedCorners(o, destination, f);
    assert FudgedCorners(o, destination) == seq(8, i requires 0 <= i < 8 => OctantCorner(dlo, dhi, i));
    BlendOctantBox(dlo, dhi, f);
  }

  /**
    The eight corners of the box `[lo, hi]`, listed in the order the engine
    writes them when it rectangularises an array; entry `i` is the corner
    octant `i` names, so the list runs from `lo` to `hi`.
   */
  function BoxCorners(lo: Vec3, hi: Vec3): (r: seq<Vec3>)
    ensures |r| == 8 && forall i :: 0 <= i < 8 ==> r[i] == OctantCorner(lo, hi, i)
    ensures r[0] == lo && r[7] == hi
    ensures LessEq(lo, hi) ==> forall i :: 0 <= i < 8 ==> InBox(r[i], lo, hi)
  {
    [Vec3(lo.x, lo.y, lo.z), Vec3(lo.x, lo.y, hi.z), Vec3(lo.x, hi.y, lo.z), Vec3(lo.x, hi.y, hi.z),
     Vec3(hi.x, lo.y, lo.z), Vec3(hi.x, lo.y, hi.z), Vec3(hi.x, hi.y, lo.z), Vec3(hi.x, hi.y, hi.z)]
  }

  /** A worked case: the centre of the cube [-1,1]^3 lands on the centre of the box (0,0,0)-(2,1,1). */
  lemma CentreMapsToCentre(o: MappingOptions)
    requires !o.flipPosX && !o.flipPosY && !o.flipPosZ
    requires o.fudgeMaxX == o.fudgeMinX == o.fudgeMaxY == o.fudgeMinY == o.fudgeMaxZ == o.fudgeMinZ == 0.0
    ensures TrilinearInterpolate(o, BoxCorners(Vec3(-1.0, -1.0, -1.0), Vec3(1.0, 1.0, 1.0)),
                                 BoxCorners(Zero, Vec3(2.0, 1.0, 1.0)), Zero) == Vec3(1.0, 0.5, 0.5)
  {
    BoxToBox(o, BoxCorners(Vec3(-1.0, -1.0, -1.0), Vec3(1.0, 1.0, 1.0)), BoxCorners(Zero, Vec3(2.0, 1.0, 1.0)),
             Vec3(-1.0, -1.0, -1.0), Vec3(1.0, 1.0, 1.0), Zero, Vec3(2.0, 1.0, 1.0), Zero);
    assert InverseLerp(-1.0, 1.0, 0.0) == 0.5;
  }

  // ---------------------------------------------------------------------------
  // Rectangularising the corner arrays

  /**
    The private `ClampCubeCorners(Vector3[])`: corners 0..7 become the octant
    corners of the bounds. The writes go in index order, so on an array
    shorter than eight every entry it has is written before the index error.
   */
  function ClampedCorners(s: seq<Vec3>): (r: seq<Vec3>)
    ensures |r| == |s|
  {
    var lo := MinVector(s);
    var hi := MaxVector(s);
    seq(|s|, i requires 0 <= i < |s| => if i < 8 then OctantCorner(lo, hi, i) else s[i])
  }

  /** The depth the Z variant gives corner `i`: of the pair that differs from `i` only in x, the min for a clear z bit, the max for a set one. */
  function PairDepth(s: seq<Vec3>, i: int): real
    requires 0 <= i < 8 <= |s|
  {
    var p := LowerOfPair(i);
    if ZBit(i) then Max(s[p].z, s[p + 4].z) else Min(s[p].z, s[p + 4].z)
  }

  /**
    The private `ClampCubeCornersZ(Vector3[])`: x and y as `ClampedCorners`, z
    per pair. The four pair depths read corners 0..7 before anything is
    written, so an array shorter than eight is an index error that leaves it
    as it was.
   */
  function ClampedCornersZ(s: seq<Vec3>): (r: seq<Vec3>)
    ensures |r| == |s|
  {
    if |s| < 8 then s
    else
      var lo := MinVector(s);
      var hi := MaxVector(s);
      seq(|s|, i requires 0 <= i < |s| =>
        if i < 8 then Vec3(OctantCorner(lo, hi, i).x, OctantCorner(lo, hi, i).y, PairDepth(s, i)) else s[i])
  }

  /** Rectangularising keeps the bounds of the array. */
  lemma ClampPreservesBounds(s: seq<Vec3>)
    requires |s| >= 8
    ensures MinVector(ClampedCorners(s)) == MinVector(s)
    ensures MaxVector(ClampedCorners(s)) == MaxVector(s)
  {
    var r := ClampedCorners(s);
    var lo, hi := MinVector(s), MaxVector(s);
    SeqBounds(s);
    MinVectorBelowMax(s);
    assert r[0] == lo && r[7] == hi;
    forall i | 0 <= i < |r|
      ensures InBox(r[i], lo, hi)
    {
      if i >= 8 {
        assert r[i] == s[i];
      }
    }
    SeqMinIs(r, lo, X, 0);
    SeqMinIs(r, lo, Y, 0);
    SeqMinIs(r, lo, Z, 0);
    SeqMaxIs(r, hi, X, 7);
    SeqMaxIs(r, hi, Y, 7);
    SeqMaxIs(r, hi, Z, 7);
  }

  /** Rectangularising twice is rectangularising once. */
  lemma ClampIdempotent(s: seq<Vec3>)
    requires |s| >= 8
    ensures ClampedCorners(ClampedCorners(s)) == ClampedCorners(s)
  {
    ClampPreservesBounds(s);
  }

  /** The Z variant agrees with the full clamp on x and y, everywhere. */
  lemma ClampZMatchesClampOnXY(s: seq<Vec3>)
    requires |s| >= 8
    ensures forall i :: 0 <= i < |s| ==>
      ClampedCornersZ(s)[i].x == ClampedCorners(s)[i].x && ClampedCornersZ(s)[i].y == ClampedCorners(s)[i].y
  {
  }

  /**
    The Z variant gives corners `i` and `i + 4` one depth: the smaller of the
    two original depths for `i = 0, 2`, the larger for `i = 1, 3`.
   */
  lemma ClampZPairDepths(s: seq<Vec3>, i: int)
    requires |s| >= 8 && 0 <= i < 4
    ensures var r := ClampedCornersZ(s);
            && r[i].z == r[i + 4].z
            && (r[i].z == s[i].z || r[i].z == s[i + 4].z)
            && (!ZBit(i) ==> r[i].z <= s[i].z && r[i].z <= s[i + 4].z)
            && (ZBit(i) ==> r[i].z >= s[i].z && r[i].z >= s[i + 4].z)
  {
    assert LowerOfPair(i + 4) == i && ZBit(i + 4) == ZBit(i);
  }

  /** The Z variant keeps the x and y bounds of the array. */
  lemma ClampZPreservesXYBounds(s: seq<Vec3>)
    requires |s| >= 8
    ensures MinVector(ClampedCornersZ(s)).x == MinVector(s).x && MinVector(ClampedCornersZ(s)).y == MinVector(s).y
    ensures MaxVector(ClampedCornersZ(s)).x == MaxVector(s).x && MaxVector(ClampedCornersZ(s)).y == MaxVector(s).y
  {
    var r := ClampedCornersZ(s);
    var lo, hi := MinVector(s), MaxVector(s);
    SeqBounds(s);
    MinVectorBelowMax(s);
    assert r[0].x == lo.x && r[0].y == lo.y && r[7].x == hi.x && r[7].y == hi.y;
    forall i | 0 <= i < |r|
      ensures lo.x <= r[i].x <= hi.x && lo.y <= r[i].y <= hi.y
    {
      if i >= 8 {
        assert r[i] == s[i];
        assert InBox(s[i], lo, hi);
      }
    }
    SeqMinIs(r, lo, X, 0);
    SeqMinIs(r, lo, Y, 0);
    SeqMaxIs(r, hi, X, 7);
    SeqMaxIs(r, hi, Y, 7);
  }

  /** The Z variant applied twice is the Z variant applied once. */
  lemma ClampZIdempotent(s: seq<Vec3>)
    requires |s| >= 8
    ensures ClampedCornersZ(ClampedCornersZ(s)) == ClampedCornersZ(s)
  {
    var r := ClampedCornersZ(s);
    ClampZPreservesXYBounds(s);
    forall i | 0 <= i < 8
      ensures PairDepth(r, i) == PairDepth(s, i)
    {
      var p := LowerOfPair(i);
      assert LowerOfPair(p) == p && LowerOfPair(p + 4) == p;
      assert ZBit(p) == ZBit(i) && ZBit(p + 4) == ZBit(i);
    }
  }

  /** On an already rectangular array the Z variant changes nothing. */
  lemma ClampZAfterClamp(s: seq<Vec3>)
    requires |s| >= 8
    ensures ClampedCornersZ(ClampedCorners(s)) == ClampedCorners(s)
  {
    var r := ClampedCorners(s);
    ClampPreservesBounds(s);
    MinVectorBelowMax(s);
    forall i | 0 <= i < 8
      ensures PairDepth(r, i) == r[i].z
    {
      var p := LowerOfPair(i);
      assert ZBit(p) == ZBit(i) && ZBit(p + 4) == ZBit(i);
    }
  }

  /** `ClampedCorners` as the eight writes of the engine's method, in order. */
  lemma ClampedCornersAsWrites(s: seq<Vec3>)
    requires |s| >= 8
    ensures var lo, hi := MinVector(s), MaxVector(s);
      ClampedCorners(s)
        == s[0 := Vec3(lo.x, lo.y, lo.z)][1 := Vec3(lo.x, lo.y, hi.z)][2 := Vec3(lo.x, hi.y, lo.z)][3 := Vec3(lo.x, hi.y, hi.z)]
            [4 := Vec3(hi.x, lo.y, lo.z)][5 := Vec3(hi.x, lo.y, hi.z)][6 := Vec3(hi.x, hi.y, lo.z)][7 := Vec3(hi.x, hi.y, hi.z)]
  {
  }

  /** `ClampedCornersZ` as the eight writes of the engine's method, in order. */
  lemma ClampedCornersZAsWrites(s: seq<Vec3>)
    requires |s| >= 8
    ensures var lo, hi := MinVector(s), MaxVector(s);
      var z1, z2 := Min(s[0].z, s[4].z), Max(s[1].z, s[5].z);
      var z3, z4 := Min(s[2].z, s[6].z), Max(s[3].z, s[7].z);
      ClampedCornersZ(s)
        == s[0 := Vec3(lo.x, lo.y, z1)][1 := Vec3(lo.x, lo.y, z2)][2 := Vec3(lo.x, hi.y, z3)][3 := Vec3(lo.x, hi.y, z4)]
            [4 := Vec3(hi.x, lo.y, z1)][5 := Vec3(hi.x, lo.y, z2)][6 := Vec3(hi.x, hi.y, z3)][7 := Vec3(hi.x, hi.y, z4)]
  {
  }

  /**
    The private `ClampCubeCorners(Vector3[])`, in place: the eight corners are
    written in index order. On an array shorter than eight the first missing
    index is an index error: the entries before it are written and the method
    stops there with `completed` false.
   */
  method ClampCornerArray(cubeCorners: array<Vec3>) returns (completed: bool)
    modifies cubeCorners
    ensures completed <==> cubeCorners.Length >= 8
    ensures cubeCorners[..] == ClampedCorners(old(cubeCorners[..]))
  {
    ghost var s := cubeCorners[..];
    var minCorner := GetMinVector(cubeCorners);
    var maxCorner := GetMaxVector(cubeCorners);
    completed := false;
    if cubeCorners.Length <= 0 { return; }
    cubeCorners[0] := Vec3(minCorner.x, minCorner.y, minCorner.z);
    if cubeCorners.Length <= 1 { return; }
    cubeCorners[1] := Vec3(minCorner.x, minCorner.y, maxCorner.z);
    if cubeCorners.Length <= 2 { return; }
    cubeCorners[2] := Vec3(minCorner.x, maxCorner.y, minCorner.z);
    if cubeCorners.Length <= 3 { return; }
    cubeCorners[3] := Vec3(minCorner.x, maxCorner.y, maxCorner.z);
    if cubeCorners.Length <= 4 { return; }
    cubeCorners[4] := Vec3(maxCorner.x, minCorner.y, minCorner.z);
    if cubeCorners.Length <= 5 { return; }
    cubeCorners[5] := Vec3(maxCorner.x, minCorner.y, maxCorner.z);
    if cubeCorners.Length <= 6 { return; }
    cubeCorners[6] := Vec3(maxCorner.x, maxCorner.y, minCorner.z);
    if cubeCorners.Length <= 7 { return; }
    cubeCorners[7] := Vec3(maxCorner.x, maxCorner.y, maxCorner.z);
    ClampedCornersAsWrites(s);
    completed := true;
  }

  /**
    The private `ClampCubeCornersZ(Vector3[])`, in place. The four pair depths
    read corners 0 and 4, 1 and 5, 2 and 6, 3 and 7 before any write, so an
    array shorter than eight stops at an index error unchanged.
   */
  method ClampCornerArrayZ(cubeCorners: array<Vec3>) returns (completed: bool)
    modifies cubeCorners
    ensures completed <==> cubeCorners.Length >= 8
    ensures cubeCorners[..] == ClampedCornersZ(old(cubeCorners[..]))
  {
    ghost var s := cubeCorners[..];
    var minCorner := GetMinVector(cubeCorners);
    var maxCorner := GetMaxVector(cubeCorners);
    completed := false;
    if cubeCorners.Length <= 4 { return; }
    var z1 := Min(cubeCorners[0].z, cubeCorners[4].z);
    if cubeCorners.Length <= 5 { return; }
    var z2 := Max(cubeCorners[1].z, cubeCorners[5].z);
    if cubeCorners.Length <= 6 { return; }
    var z3 := Min(cubeCorners[2].z, cubeCorners[6].z);
    if cubeCorners.Length <= 7 { return; }
    var z4 := Max(cubeCorners[3].z, cubeCorners[7].z);
    cubeCorners[0] := Vec3(minCorner.x, minCorner.y, z1);
    cubeCorners[1] := Vec3(minCorner.x, minCorner.y, z2);
    cubeCorners[2] := Vec3(minCorner.x, maxCorner.y, z3);
    cubeCorners[3] := Vec3(minCorner.x, maxCorner.y, z4);
    cubeCorners[4] := Vec3(maxCorner.x, minCorner.y, z1);
    cubeCorners[5] := Vec3(maxCorner.x, minCorner.y, z2);
    cubeCorners[6] := Vec3(maxCorner.x, maxCorner.y, z3);
    cubeCorners[7] := Vec3(maxCorner.x, maxCorner.y, z4);
    ClampedCornersZAsWrites(s);
    completed := true;
  }

  // ---------------------------------------------------------------------------
  // The component

  class TrilinearInterpolator {
    var flipPosX: bool
    var flipPosY: bool
    var flipPosZ: bool

    var fudgeMaxX: real
    var fudgeMinX: real
    var fudgeMaxY: real
    var fudgeMinY: real
    var fudgeMaxZ: real
    var fudgeMinZ: real

    var sourceCubeCorners: array<Vec3>
    var destinationCubeCorners: array<Vec3>

    /** The two corner arrays are separate objects: nothing in the component aliases them. */
    ghost predicate Valid()
      reads this
    {
      sourceCubeCorners != destinationCubeCorners
    }

    /** The inspector defaults: no flips, zero fudge, eight zero corners in each array. */
    constructor ()
      ensures Valid() && fresh(sourceCubeCorners) && fresh(destinationCubeCorners)
      ensures !flipPosX && !flipPosY && !flipPosZ
      ensures fudgeMaxX == fudgeMinX == fudgeMaxY == fudgeMinY == fudgeMaxZ == fudgeMinZ == 0.0
      ensures sourceCubeCorners[..] == seq(8, _ => Zero)
      ensures destinationCubeCorners[..] == seq(8, _ => Zero)
    {
      flipPosX, flipPosY, flipPosZ := false, false, false;
      fudgeMaxX, fudgeMinX, fudgeMaxY, fudgeMinY, fudgeMaxZ, fudgeMinZ := 0.0, 0.0, 0.0, 0.0, 0.0, 0.0;
      sourceCubeCorners := new Vec3[8](_ => Zero);
      destinationCubeCorners := new Vec3[8](_ => Zero);
    }

    function Options(): MappingOptions
      reads this
    {
      MappingOptions(flipPosX, flipPosY, flipPosZ, fudgeMaxX, fudgeMinX, fudgeMaxY, fudgeMinY, fudgeMaxZ, fudgeMinZ)
    }

    /** `TrilinearInterpolate` on the component's current state. */
    function Map(input: Vec3): Vec3
      reads this, sourceCubeCorners, destinationCubeCorners
      requires sourceCubeCorners.Length >= 1 && destinationCubeCorners.Length >= 8
    {
      TrilinearInterpolate(Options(), sourceCubeCorners[..], destinationCubeCorners[..], input)
    }

    /**
      The public `ClampCubeCorners()`: both arrays are rectangularised, the
      source first. An index error in the source's clamp ends the call before
      the destination is touched.
     */
    method ClampCubeCorners() returns (completed: bool)
      requires Valid()
      modifies sourceCubeCorners, destinationCubeCorners
      ensures completed <==> sourceCubeCorners.Length >= 8 && destinationCubeCorners.Length >= 8
      ensures sourceCubeCorners[..] == ClampedCorners(old(sourceCubeCorners[..]))
      ensures destinationCubeCorners[..]
           == if sourceCubeCorners.Length >= 8 then ClampedCorners(old(destinationCubeCorners[..]))
              else old(destinationCubeCorners[..])
    {
      completed := ClampCornerArray(sourceCubeCorners);
      if !completed {
        return;
      }
      completed := ClampCornerArray(destinationCubeCorners);
    }

    /**
      The public `ClampCubeCornersZ()`: the source gets the full clamp, the
      destination the Z variant; an index error in the first ends the call.
     */
    method ClampCubeCornersZ() returns (completed: bool)
      requires Valid()
      modifies sourceCubeCorners, destinationCubeCorners
      ensures completed <==> sourceCubeCorners.Length >= 8 && destinationCubeCorners.Length >= 8
      ensures sourceCubeCorners[..] == ClampedCorners(old(sourceCubeCorners[..]))
      ensures destinationCubeCorners[..]
           == if sourceCubeCorners.Length >= 8 then ClampedCornersZ(old(destinationCubeCorners[..]))
              else old(destinationCubeCorners[..])
    {
      completed := ClampCornerArray(sourceCubeCorners);
      if !completed {
        return;
      }
      completed := ClampCornerArrayZ(destinationCubeCorners);
    }
  }
}
