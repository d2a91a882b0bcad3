/**
  A textured quad whose four vertices follow four draggable corner points
  (yellow, green, blue, red). The point positions are saved to and loaded from
  the engine's key-value preference store under keys built from a prefix, the
  point's name and the axis.

  A point's world position is its parent's origin plus its local position
  (parents are translated, not rotated or scaled). The store is an object
  holding a map; mesh rendering, the shader and the texture are not modelled.
 */
module QuadDeformer {
  import opened UnityMath

  // ---------------------------------------------------------------------------
  // The preference store and its keys

  /** The preference store: a map from key to float. */
  class PlayerPrefs {
    var floats: map<string, real>

    constructor ()
      ensures floats == map[]
    {
      floats := map[];
    }

    method SetFloat(key: string, value: real)
      modifies this
      ensures floats == old(floats)[key := value]
    {
      floats := floats[key := value];
    }
  }

  /** `PlayerPrefs.GetFloat(key, defaultValue)`: the stored value, or the default when the key is missing. */
  function GetFloat(floats: map<string, real>, key: string, defaultValue: real): real
  {
    if key in floats then floats[key] else defaultValue
  }

  /**
    The store's round trip: reading a key just set gives the value set,
    whatever the default, and setting one key leaves every other key's reading alone.
   */
  lemma GetFloatAfterSetFloat(floats: map<string, real>, key: string, value: real, other: string, defaultValue: real)
    ensures GetFloat(floats[key := value], key, defaultValue) == value
    ensures other != key ==> GetFloat(floats[key := value], other, defaultValue) == GetFloat(floats, other, defaultValue)
  {
  }

  /** `prefix + "." + name + ".position." + axis`. */
  function Key(prefix: string, name: string, axis: char): string {
    prefix + "." + name + ".position." + [axis]
  }

  /** Under one prefix, a key determines the point name and the axis. */
  lemma KeyInjective(prefix: string, name1: string, axis1: char, name2: string, axis2: char)
    requires Key(prefix, name1, axis1) == Key(prefix, name2, axis2)
    ensures name1 == name2 && axis1 == axis2
  {
    var k := Key(prefix, name1, axis1);
    var start := |prefix| + 1;
    assert |name1| == |name2|;
    assert k[start..start + |name1|] == name1;
    assert Key(prefix, name2, axis2)[start..start + |name2|] == name2;
    assert k[|k| - 1] == axis1;
  }

  /** The last character of a key is its axis. */
  lemma KeyEndsWithAxis(prefix: string, name: string, axis: char)
    ensures |Key(prefix, name, axis)| > 0 && Key(prefix, name, axis)[|Key(prefix, name, axis)| - 1] == axis
  {
  }

  /** The three stores of `SavePointPosition` for one point. */
  function SavePoint(floats: map<string, real>, prefix: string, name: string, position: Vec3): map<string, real> {
    floats[Key(prefix, name, 'x') := position.x][Key(prefix, name, 'y') := position.y][Key(prefix, name, 'z') := position.z]
  }

  /** `SavePointPosition` for each (name, world position) in turn. */
  function SaveAll(floats: map<string, real>, prefix: string, points: seq<(string, Vec3)>): map<string, real>
    decreases |points|
  {
    if |points| == 0 then floats
    else SaveAll(SavePoint(floats, prefix, points[0].0, points[0].1), prefix, points[1..])
  }

  /** `SaveAll` over four points is four `SavePoint` steps. */
  lemma SaveAllOfFour(floats: map<string, real>, prefix: string, points: seq<(string, Vec3)>)
    requires |points| == 4
    ensures SaveAll(floats, prefix, points)
         == SavePoint(SavePoint(SavePoint(SavePoint(floats, prefix, points[0].0, points[0].1),
              prefix, points[1].0, points[1].1), prefix, points[2].0, points[2].1), prefix, points[3].0, points[3].1)
  {
    var m1 := SavePoint(floats, prefix, points[0].0, points[0].1);
    var m2 := SavePoint(m1, prefix, points[1].0, points[1].1);
    var m3 := SavePoint(m2, prefix, points[2].0, points[2].1);
    var m4 := SavePoint(m3, prefix, points[3].0, points[3].1);
    assert points[3..][1..] == [];
    assert SaveAll(m3, prefix, points[3..]) == m4;
    assert points[2..][1..] == points[3..];
    assert SaveAll(m2, prefix, points[2..]) == m4;
    assert points[1..][1..] == points[2..];
    assert SaveAll(m1, prefix, points[1..]) == m4;
  }

  /** The position `LoadPointPosition` computes: each coordinate from its key, or the current one when the key is missing. */
  function LoadPoint(floats: map<string, real>, prefix: string, name: string, current: Vec3): (r: Vec3)
    ensures Key(prefix, name, 'x') !in floats ==> r.x == current.x
    ensures Key(prefix, name, 'y') !in floats ==> r.y == current.y
    ensures Key(prefix, name, 'z') !in floats ==> r.z == current.z
    ensures Key(prefix, name, 'x') in floats ==> r.x == floats[Key(prefix, name, 'x')]
    ensures Key(prefix, name, 'y') in floats ==> r.y == floats[Key(prefix, name, 'y')]
    ensures Key(prefix, name, 'z') in floats ==> r.z == floats[Key(prefix, name, 'z')]
  {
    Vec3(GetFloat(floats, Key(prefix, name, 'x'), current.x),
         GetFloat(floats, Key(prefix, name, 'y'), current.y),
         GetFloat(floats, Key(prefix, name, 'z'), current.z))
  }

  predicate DistinctNames(points: seq<(string, Vec3)>) {
    forall i, j :: 0 <= i < j < |points| ==> points[i].0 != points[j].0
  }

  /** Saving points whose names all differ from `name` leaves the keys of `name` as they were. */
  lemma {:induction false} SaveAllKeepsOtherKeys(floats: map<string, real>, prefix: string,
                                                 points: seq<(string, Vec3)>, name: string, axis: char)
    requires forall i :: 0 <= i < |points| ==> points[i].0 != name
    ensures var key := Key(prefix, name, axis);
            (key in SaveAll(floats, prefix, points) <==> key in floats)
            && (key in floats ==> SaveAll(floats, prefix, points)[key] == floats[key])
    decreases |points|
  {
    if |points| > 0 {
      var key := Key(prefix, name, axis);
      var m := SavePoint(floats, prefix, points[0].0, points[0].1);
      forall a: char
        ensures Key(prefix, points[0].0, a) != key
      {
        if Key(prefix, points[0].0, a) == key {
          KeyInjective(prefix, points[0].0, a, name, axis);
        }
      }
      assert key in m <==> key in floats;
      assert key in floats ==> m[key] == floats[key];
      SaveAllKeepsOtherKeys(m, prefix, points[1..], name, axis);
    }
  }

  /** After saving points with distinct names, each point's keys hold that point's coordinates. */
  lemma {:induction false} SaveAllStores(floats: map<string, real>, prefix: string, points: seq<(string, Vec3)>, k: int)
    requires DistinctNames(points) && 0 <= k < |points|
    ensures var m := SaveAll(floats, prefix, points);
            var name := points[k].0;
            && Key(prefix, name, 'x') in m && m[Key(prefix, name, 'x')] == points[k].1.x
            && Key(prefix, name, 'y') in m && m[Key(prefix, name, 'y')] == points[k].1.y
            && Key(prefix, name, 'z') in m && m[Key(prefix, name, 'z')] == points[k].1.z
    decreases |points|
  {
    var m := SavePoint(floats, prefix, points[0].0, points[0].1);
    var name := points[k].0;
    if k == 0 {
      forall i | 0 <= i < |points[1..]|
        ensures points[1..][i].0 != name
      {
        assert points[1..][i] == points[i + 1];
      }
      KeyEndsWithAxis(prefix, name, 'x');
      KeyEndsWithAxis(prefix, name, 'y');
      KeyEndsWithAxis(prefix, name, 'z');
      SaveAllKeepsOtherKeys(m, prefix, points[1..], name, 'x');
      SaveAllKeepsOtherKeys(m, prefix, points[1..], name, 'y');
      SaveAllKeepsOtherKeys(m, prefix, points[1..], name, 'z');
    } else {
      assert points[1..][k - 1] == points[k];
      SaveAllStores(m, prefix, points[1..], k - 1);
    }
  }

  /**
    Save then load with the same prefix restores every point whose name is
    not shared with another saved point, whatever its position in between.
   */
  lemma SaveThenLoadRestores(floats: map<string, real>, prefix: string, points: seq<(string, Vec3)>,
                             k: int, current: Vec3)
    requires DistinctNames(points) && 0 <= k < |points|
    ensures LoadPoint(SaveAll(floats, prefix, points), prefix, points[k].0, current) == points[k].1
  {
    SaveAllStores(floats, prefix, points, k);
  }

  // ---------------------------------------------------------------------------
  // The mesh

  /** The vertex array built in `Start`: the corners of the unit square centred at the origin. */
  function InitialVertices(): (r: seq<Vec3>)
    ensures |r| == 4
    ensures forall i :: 0 <= i < 4 ==> r[i].z == 0.0 && (r[i].x == 0.5 || r[i].x == -0.5) && (r[i].y == 0.5 || r[i].y == -0.5)
    ensures forall i, j :: 0 <= i < j < 4 ==> r[i] != r[j]
  {
    [Vec3(-0.5, -0.5, 0.0), Vec3(0.5, -0.5, 0.0), Vec3(-0.5, 0.5, 0.0), Vec3(0.5, 0.5, 0.0)]
  }

  /** The texture coordinates built in `Start`, one per vertex. */
  const InitialUV: seq<(real, real)> := [(0.0, 0.0), (1.0, 0.0), (0.0, 1.0), (1.0, 1.0)]

  /** The two triangles built in `Start`. */
  const InitialTriangles: seq<int> := [0, 2, 1, 2, 3, 1]

  /** The triangles only name the four vertices, and each vertex gets the texture corner at its own position. */
  lemma MeshIsWellFormed()
    ensures |InitialTriangles| % 3 == 0
    ensures forall t :: t in InitialTriangles ==> 0 <= t < |InitialVertices()|
    ensures |InitialUV| == |InitialVertices()|
    ensures forall i :: 0 <= i < 4 ==> InitialUV[i] == (InitialVertices()[i].x + 0.5, InitialVertices()[i].y + 0.5)
  {
  }

  /** Which point drives which vertex in `Update`: 0 green, 1 blue, 2 red, 3 yellow. */
  function VertexLayout(yellow: Vec3, green: Vec3, blue: Vec3, red: Vec3): seq<Vec3> {
    [green, blue, red, yellow]
  }

  const ResetYellow: Vec3 := Vec3(0.5, 0.5, 0.0)
  const ResetGreen: Vec3 := Vec3(-0.5, -0.5, 0.0)
  const ResetBlue: Vec3 := Vec3(0.5, -0.5, 0.0)
  const ResetRed: Vec3 := Vec3(-0.5, 0.5, 0.0)

  /** The reset positions, laid out as `Update` lays out the points, are exactly the initial vertices. */
  lemma ResetReproducesInitialVertices()
    ensures VertexLayout(ResetYellow, ResetGreen, ResetBlue, ResetRed) == InitialVertices()
  {
  }

  // ---------------------------------------------------------------------------
  // The component

  /** A corner point: its game object's name and its transform. */
  class CornerPoint {
    const name: string
    const parentOrigin: Vec3
    var localPosition: Vec3

    constructor (name: string, parentOrigin: Vec3, localPosition: Vec3)
      ensures this.name == name && this.parentOrigin == parentOrigin && this.localPosition == localPosition
    {
      this.name := name;
      this.parentOrigin := parentOrigin;
      this.localPosition := localPosition;
    }

    /** `transform.position`. */
    function World(): Vec3
      reads this
    {
      Add(parentOrigin, localPosition)
    }

    /** Assigning `transform.position`. */
    method SetWorld(position: Vec3)
      modifies this
      ensures World() == position
    {
      localPosition := Sub(position, parentOrigin);
    }
  }

  class DynamicQuadDeformer {
    var referenceActive: bool
    var prepend: string

    const pointYellow: CornerPoint
    const pointGreen: CornerPoint
    const pointBlue: CornerPoint
    const pointRed: CornerPoint

    const prefs: PlayerPrefs

    var vertices: array?<Vec3>
    var meshVertices: seq<Vec3>
    var meshUV: seq<(real, real)>
    var meshTriangles: seq<int>

    /** The four corner points are four different objects. */
    ghost predicate Valid()
      reads this
    {
      && pointYellow != pointGreen && pointYellow != pointBlue && pointYellow != pointRed
      && pointGreen != pointBlue && pointGreen != pointRed && pointBlue != pointRed
    }

    ghost function Points(): set<CornerPoint>
      reads this
    {
      {pointYellow, pointGreen, pointBlue, pointRed}
    }

    /** The saved list, in the order `SavePointPositions` writes it. */
    function SavedPoints(): seq<(string, Vec3)>
      reads this, pointYellow, pointGreen, pointBlue, pointRed
    {
      [(pointYellow.name, pointYellow.World()), (pointGreen.name, pointGreen.World()),
       (pointBlue.name, pointBlue.World()), (pointRed.name, pointRed.World())]
    }

    /** The scene wiring, with the prefix defaulting to "1"; the mesh does not exist before `Start`. */
    constructor (pointYellow: CornerPoint, pointGreen: CornerPoint, pointBlue: CornerPoint, pointRed: CornerPoint,
                 prefs: PlayerPrefs)
      ensures this.pointYellow == pointYellow && this.pointGreen == pointGreen
      ensures this.pointBlue == pointBlue && this.pointRed == pointRed && this.prefs == prefs
      ensures prepend == "1" && referenceActive && vertices == null
    {
      this.pointYellow, this.pointGreen, this.pointBlue, this.pointRed := pointYellow, pointGreen, pointBlue, pointRed;
      this.prefs := prefs;
      prepend := "1";
      referenceActive := true;
      vertices := null;
      meshVertices, meshUV, meshTriangles := [], [], [];
    }

    /** `SavePointPosition`: three keys for one point. */
    method SavePointPosition(point: CornerPoint, prefix: string)
      modifies prefs
      ensures prefs.floats == SavePoint(old(prefs.floats), prefix, point.name, point.World())
    {
      var position := point.World();
      prefs.SetFloat(prefix + "." + point.name + ".position." + ['x'], position.x);
      prefs.SetFloat(prefix + "." + point.name + ".position." + ['y'], position.y);
      prefs.SetFloat(prefix + "." + point.name + ".position." + ['z'], position.z);
    }

    /** `SavePointPositions`: yellow, green, blue, red, in that order. */
    method SavePointPositions(prefix: string)
      modifies prefs
      ensures prefs.floats == SaveAll(old(prefs.floats), prefix, SavedPoints())
    {
      ghost var points := SavedPoints();
      ghost var m := prefs.floats;
      SavePointPosition(pointYellow, prefix);
      SavePointPosition(pointGreen, prefix);
      SavePointPosition(pointBlue, prefix);
      SavePointPosition(pointRed, prefix);
      SaveAllOfFour(m, prefix, points);
      assert prefs.floats == SaveAll(m, prefix, points);
    }

    /** `LoadPointPosition`: each coordinate from its key, the current world coordinate when the key is missing. */
    method LoadPointPosition(point: CornerPoint, prefix: string)
      modifies point
      ensures point.World() == LoadPoint(prefs.floats, prefix, point.name, old(point.World()))
    {
      var position := point.World();
      var x := GetFloat(prefs.floats, prefix + "." + point.name + ".position." + ['x'], position.x);
      var y := GetFloat(prefs.floats, prefix + "." + point.name + ".position." + ['y'], position.y);
      var z := GetFloat(prefs.floats, prefix + "." + point.name + ".position." + ['z'], position.z);
      point.SetWorld(Vec3(x, y, z));
    }

    /** `LoadPointPositions`: every point is loaded against its own current position. */
    method LoadPointPositions(prefix: string)
      requires Valid()
      modifies Points()
      ensures pointYellow.World() == LoadPoint(prefs.floats, prefix, pointYellow.name, old(pointYellow.World()))
      ensures pointGreen.World() == LoadPoint(prefs.floats, prefix, pointGreen.name, old(pointGreen.World()))
      ensures pointBlue.World() == LoadPoint(prefs.floats, prefix, pointBlue.name, old(pointBlue.World()))
      ensures pointRed.World() == LoadPoint(prefs.floats, prefix, pointRed.name, old(pointRed.World()))
    {
      LoadPointPosition(pointYellow, prefix);
      LoadPointPosition(pointGreen, prefix);
      LoadPointPosition(pointBlue, prefix);
      LoadPointPosition(pointRed, prefix);
    }

    /** `ResetPointPositions`: the points go back to the corners of the unit square. */
    method ResetPointPositions()
      requires Valid()
      modifies Points()
      ensures pointYellow.localPosition == ResetYellow && pointGreen.localPosition == ResetGreen
      ensures pointBlue.localPosition == ResetBlue && pointRed.localPosition == ResetRed
    {
      pointYellow.localPosition := Vec3(0.5, 0.5, 0.0);
      pointGreen.localPosition := Vec3(-0.5, -0.5, 0.0);
      pointBlue.localPosition := Vec3(0.5, -0.5, 0.0);
      pointRed.localPosition := Vec3(-0.5, 0.5, 0.0);
    }

    /** `Start`: hide the reference, load the points, build the unit-square mesh. */
    method Start()
      requires Valid()
      modifies this, Points()
      ensures Valid() && !referenceActive && prepend == old(prepend)
      ensures pointYellow.World() == LoadPoint(prefs.floats, prepend, pointYellow.name, old(pointYellow.World()))
      ensures pointGreen.World() == LoadPoint(prefs.floats, prepend, pointGreen.name, old(pointGreen.World()))
      ensures pointBlue.World() == LoadPoint(prefs.floats, prepend, pointBlue.name, old(pointBlue.World()))
      ensures pointRed.World() == LoadPoint(prefs.floats, prepend, pointRed.name, old(pointRed.World()))
      ensures vertices != null && fresh(vertices) && vertices[..] == InitialVertices()
      ensures meshVertices == InitialVertices() && meshUV == InitialUV && meshTriangles == InitialTriangles
    {
      referenceActive := false;
      LoadPointPositions(prepend);
      vertices := new Vec3[4];
      vertices[0], vertices[1], vertices[2], vertices[3] :=
        Vec3(-0.5, -0.5, 0.0), Vec3(0.5, -0.5, 0.0), Vec3(-0.5, 0.5, 0.0), Vec3(0.5, 0.5, 0.0);
      meshVertices := vertices[..];
      meshUV := [(0.0, 0.0), (1.0, 0.0), (0.0, 1.0), (1.0, 1.0)];
      meshTriangles := [0, 2, 1, 2, 3, 1];
    }

    /**
      `Update`, one frame: the four vertices take the points' local positions
      (3 yellow, 0 green, 1 blue, 2 red) and go to the mesh; then, if the
      reset key went down this frame, the points are reset.
     */
    method Update(resetPressed: bool)
      requires Valid() && vertices != null && vertices.Length == 4
      modifies vertices, this`meshVertices, Points()
      ensures vertices[..] == VertexLayout(old(pointYellow.localPosition), old(pointGreen.localPosition),
                                           old(pointBlue.localPosition), old(pointRed.localPosition))
      ensures meshVertices == vertices[..]
      ensures resetPressed ==> pointYellow.localPosition == ResetYellow && pointGreen.localPosition == ResetGreen
      ensures resetPressed ==> pointBlue.localPosition == ResetBlue && pointRed.localPosition == ResetRed
      ensures !resetPressed ==> unchanged(Points())
    {
      vertices[3] := pointYellow.localPosition;
      vertices[0] := pointGreen.localPosition;
      vertices[1] := pointBlue.localPosition;
      vertices[2] := pointRed.localPosition;
      meshVertices := vertices[..];
      if resetPressed {
        ResetPointPositions();
      }
    }

    /** `OnApplicationQuit`: save the points under the component's prefix. */
    method OnApplicationQuit()
      modifies prefs
      ensures prefs.floats == SaveAll(old(prefs.floats), prepend, SavedPoints())
    {
      SavePointPositions(prepend);
    }

    /**
      The persistence round trip: saving under a prefix and loading under the
      same prefix puts every point back where it was, provided the four
      point names differ (otherwise the later save of a shared name wins).
     */
    method SaveThenLoad(prefix: string)
      requires Valid() && DistinctNames(SavedPoints())
      modifies prefs, Points()
      ensures pointYellow.World() == old(pointYellow.World()) && pointGreen.World() == old(pointGreen.World())
      ensures pointBlue.World() == old(pointBlue.World()) && pointRed.World() == old(pointRed.World())
    {
      ghost var points := SavedPoints();
      SavePointPositions(prefix);
      LoadPointPositions(prefix);
      SaveThenLoadRestores(old(prefs.floats), prefix, points, 0, old(pointYellow.World()));
      SaveThenLoadRestores(old(prefs.floats), prefix, points, 1, old(pointGreen.World()));
      SaveThenLoadRestores(old(prefs.floats), prefix, points, 2, old(pointBlue.World()));
      SaveThenLoadRestores(old(prefs.floats), prefix, points, 3, old(pointRed.World()));
    }
  }
}
