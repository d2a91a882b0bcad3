/**
  A chicken of the chicken game: it walks forward on its own, turns around on
  a fence at once, and turns around when it meets another chicken, with a
  cooldown that stops two chickens from flip-flopping.

  The fields the handlers update are kept in `ChickenState`, and a turn is the
  pure function `Turn` on it. Time (`Time.time`) and the forward direction
  are parameters. The rotation is an Euler-angle triple of reals; quaternion
  composition and angle normalisation are not modelled.
 */
module ChickenGameChicken {
  import opened UnityMath

  /** Rotations and timing that the handlers update. */
  datatype ChickenState = ChickenState(
    isRotating: bool,
    lastRotationTime: real,
    pitch: real, yaw: real, roll: real,
    velocity: Vec3)

  /** The roll kept so that the chicken is seen from above. */
  const TopDownZRotation: real := 90.0

  /** The private cooldown between turns, in seconds. */
  const RotationCooldown: real := 0.5

  /** Whether `now` is still within the cooldown of the last turn. */
  predicate Cooling(s: ChickenState, now: real) {
    now - s.lastRotationTime < RotationCooldown
  }

  /** `Rotate180Degrees`: unless cooling down (and the cooldown is not ignored), turn the yaw by 180 and stop. */
  function Turn(s: ChickenState, now: real, ignoreCooldown: bool): ChickenState {
    if !ignoreCooldown && Cooling(s, now) then s
    else ChickenState(true, now, 0.0, s.yaw + 180.0, TopDownZRotation, Zero)
  }

  /** A turn that takes effect: yaw plus 180, pitch 0, roll 90, velocity zero, rotating, stamped with `now`. */
  lemma TurnEffect(s: ChickenState, now: real, ignoreCooldown: bool)
    requires ignoreCooldown || !Cooling(s, now)
    ensures var r := Turn(s, now, ignoreCooldown);
      && r.yaw == s.yaw + 180.0 && r.pitch == 0.0 && r.roll == 90.0
      && r.velocity == Vec3(0.0, 0.0, 0.0) && r.isRotating && r.lastRotationTime == now
  {
  }

  /** A turn asked for during the cooldown, without ignoring it, changes nothing. */
  lemma TurnDuringCooldown(s: ChickenState, now: real)
    requires now - s.lastRotationTime < RotationCooldown
    ensures Turn(s, now, false) == s
  {
  }

  /**
    A second cooldown-respecting turn at the same instant is a no-op: either
    the first one took effect and started the cooldown, or the first was
    already blocked and so is the second.
   */
  lemma TurnTwiceSameTime(s: ChickenState, now: real, ignoreCooldown: bool)
    ensures Turn(Turn(s, now, ignoreCooldown), now, false) == Turn(s, now, ignoreCooldown)
  {
  }

  /** Two effective turns bring the chicken back to its original heading, a full turn further on. */
  lemma TwoTurnsFullCircle(s: ChickenState, t1: real, t2: real)
    requires t2 - t1 >= RotationCooldown && !Cooling(s, t1)
    ensures Turn(Turn(s, t1, false), t2, false).yaw == s.yaw + 360.0
  {
  }

  /**
    `FixedUpdate`: a chicken that is not turning gets the forward velocity on
    x and z and keeps its vertical velocity; the turning flag is cleared only
    once the cooldown is strictly exceeded.
   */
  function Tick(s: ChickenState, now: real, forward: Vec3, moveSpeed: real): ChickenState {
    var velocity := if !s.isRotating then Vec3(forward.x * moveSpeed, s.velocity.y, forward.z * moveSpeed) else s.velocity;
    var isRotating := s.isRotating && !(now - s.lastRotationTime > RotationCooldown);
    s.(velocity := velocity, isRotating := isRotating)
  }

  /** A frame never moves a turning chicken, and at exactly the end of the cooldown it is still turning. */
  lemma TickWhileTurning(s: ChickenState, now: real, forward: Vec3, moveSpeed: real)
    requires s.isRotating
    ensures Tick(s, now, forward, moveSpeed).velocity == s.velocity
    ensures Tick(s, now, forward, moveSpeed).isRotating <==> now - s.lastRotationTime <= RotationCooldown
  {
  }

  /** A frame never starts a turn, and never changes the rotation or the time stamp. */
  lemma TickKeepsPose(s: ChickenState, now: real, forward: Vec3, moveSpeed: real)
    ensures var r := Tick(s, now, forward, moveSpeed);
      && (r.isRotating ==> s.isRotating)
      && r.pitch == s.pitch && r.yaw == s.yaw && r.roll == s.roll && r.lastRotationTime == s.lastRotationTime
  {
  }

  /** Whether `sub` occurs in `s` (`string.Contains`, ordinal). */
  predicate Contains(s: string, sub: string)
    decreases |s|
  {
    |sub| <= |s| && (s[..|sub|] == sub || Contains(s[1..], sub))
  }

  /** `ToLower` on the ASCII upper-case letters; other characters are kept. */
  function ToLower(s: string): string
  {
    seq(|s|, i requires 0 <= i < |s| => if 'A' <= s[i] <= 'Z' then (s[i] as int + 32) as char else s[i])
  }

  /**
    Lower-casing folds case: the result has no upper-case ASCII letter left,
    lower-casing it again changes nothing, and two strings that differ only
    in the case of ASCII letters lower-case to the same string.
   */
  lemma ToLowerFoldsCase(s: string, t: string)
    requires |s| == |t|
    requires forall i :: 0 <= i < |s| ==>
      s[i] == t[i] || ('A' <= s[i] <= 'Z' && t[i] as int == s[i] as int + 32)
                   || ('A' <= t[i] <= 'Z' && s[i] as int == t[i] as int + 32)
    ensures forall i :: 0 <= i < |s| ==> !('A' <= ToLower(s)[i] <= 'Z')
    ensures ToLower(ToLower(s)) == ToLower(s)
    ensures ToLower(s) == ToLower(t)
  {
  }

  /**
    A game object a chicken can touch: its identity, tag and name, the names
    of its ancestors from its parent up to the root, and its `Chicken`
    component, if it has one.
   */
  datatype SceneObject = SceneObject(id: int, tag: string, name: string, ancestorNames: seq<string>,
                                     chicken: Option<Chicken>)

  /** What `IsFence` decides: tagged Fence, or named with "Fence" itself or in some ancestor. */
  predicate FenceLike(obj: Option<SceneObject>) {
    obj.Some? &&
      (obj.value.tag == "Fence" || exists k :: 0 <= k < |Chain(obj.value)| && Contains(Chain(obj.value)[k], "Fence"))
  }

  /** The names `IsFence` walks: the object's own, then each parent's. */
  function Chain(obj: SceneObject): seq<string>
  {
    [obj.name] + obj.ancestorNames
  }

  /** `IsFence`: the tag first, then a walk up the parent chain looking for "Fence" in a name. */
  method IsFence(obj: Option<SceneObject>) returns (r: bool)
    ensures r == FenceLike(obj)
  {
    if obj.None? {
      return false;
    }
    if obj.value.tag == "Fence" {
      return true;
    }
    var chain := Chain(obj.value);
    var k := 0;
    while k < |chain|
      invariant 0 <= k <= |chain|
      invariant forall j :: 0 <= j < k ==> !Contains(chain[j], "Fence")
    {
      if Contains(chain[k], "Fence") {
        return true;
      }
      k := k + 1;
    }
    return false;
  }

  class Chicken {
    var moveSpeed: real

    var isRotating: bool
    var lastRotationTime: real
    var pitch: real
    var yaw: real
    var roll: real
    var velocity: Vec3

    /** The identity of this chicken's own game object. */
    const gameObjectId: int

    function State(): ChickenState
      reads this
    {
      ChickenState(isRotating, lastRotationTime, pitch, yaw, roll, velocity)
    }

    /** The defaults, after `Start` has set the pitch to 0 and the roll to 90. */
    constructor (gameObjectId: int, yaw: real)
      ensures this.gameObjectId == gameObjectId && moveSpeed == 2.0
      ensures State() == ChickenState(false, -1.0, 0.0, yaw, TopDownZRotation, Zero)
    {
      this.gameObjectId := gameObjectId;
      moveSpeed := 2.0;
      isRotating := false;
      lastRotationTime := -1.0;
      pitch, this.yaw, roll := 0.0, yaw, TopDownZRotation;
      velocity := Zero;
    }

    /** `IsChicken`: another `Chicken` component, or a name containing "chicken" in any case that is not this object's. */
    predicate IsChicken(obj: SceneObject) {
      (obj.chicken.Some? && obj.chicken.value != this)
      || (Contains(ToLower(obj.name), "chicken") && obj.id != gameObjectId)
    }

    /** A chicken's own game object, carrying this component, is never another chicken. */
    lemma NotChickenOfItself(obj: SceneObject)
      requires obj.id == gameObjectId && obj.chicken == Some(this)
      ensures !IsChicken(obj)
    {
    }

    /** `Rotate180Degrees`, with the current time as a parameter. */
    method Rotate180Degrees(now: real, ignoreCooldown: bool)
      modifies this`isRotating, this`lastRotationTime, this`pitch, this`yaw, this`roll, this`velocity
      ensures State() == Turn(old(State()), now, ignoreCooldown)
    {
      if !ignoreCooldown && now - lastRotationTime < RotationCooldown {
        return;
      }
      isRotating := true;
      lastRotationTime := now;
      var newY := yaw + 180.0;
      pitch, yaw, roll := 0.0, newY, TopDownZRotation;
      velocity := Zero;
    }

    /** `FixedUpdate`, with the current time and the forward direction as parameters. */
    method FixedUpdate(now: real, forward: Vec3)
      modifies this`velocity, this`isRotating
      ensures State() == Tick(old(State()), now, forward, moveSpeed)
    {
      if !isRotating {
        velocity := Vec3(forward.x * moveSpeed, velocity.y, forward.z * moveSpeed);
      }
      if isRotating && now - lastRotationTime > RotationCooldown {
        isRotating := false;
      }
    }

    /**
      `OnCollisionEnter`. A fence turns this chicken at once, whatever the
      cooldown, and nothing else happens. Otherwise, during the cooldown
      nothing happens; after it, meeting another chicken turns this one and
      asks the other to turn, subject to the other's own cooldown.
     */
    method OnCollisionEnter(other: SceneObject, now: real)
      modifies this`isRotating, this`lastRotationTime, this`pitch, this`yaw, this`roll, this`velocity
      modifies (if other.chicken.Some? then {other.chicken.value} else {})`isRotating
      modifies (if other.chicken.Some? then {other.chicken.value} else {})`lastRotationTime
      modifies (if other.chicken.Some? then {other.chicken.value} else {})`pitch
      modifies (if other.chicken.Some? then {other.chicken.value} else {})`yaw
      modifies (if other.chicken.Some? then {other.chicken.value} else {})`roll
      modifies (if other.chicken.Some? then {other.chicken.value} else {})`velocity
      ensures FenceLike(Some(other)) ==> State() == Turn(old(State()), now, true)
      ensures !FenceLike(Some(other)) && Cooling(old(State()), now) ==> State() == old(State())
      ensures !FenceLike(Some(other)) && !Cooling(old(State()), now) ==>
        State() == (if IsChicken(other) then Turn(old(State()), now, false) else old(State()))
      ensures other.chicken.Some? && other.chicken.value != this ==>
        var c := other.chicken.value;
        c.State() == (if !FenceLike(Some(other)) && !Cooling(old(State()), now) && IsChicken(other)
                      then Turn(old(c.State()), now, false) else old(c.State()))
    {
      var fence := IsFence(Some(other));
      if fence {
        Rotate180Degrees(now, true);
        return;
      }
      if now - lastRotationTime < RotationCooldown {
        return;
      }
      if IsChicken(other) {
        Rotate180Degrees(now, false);
        if other.chicken.Some? {
          other.chicken.value.Rotate180Degrees(now, false);
          if other.chicken.value == this {
            TurnTwiceSameTime(old(State()), now, false);
          }
        }
      }
    }
  }
}
