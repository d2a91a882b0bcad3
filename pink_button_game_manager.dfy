/**
  The pink-button game: buttons are spawned on a grid of cells over a plane,
  one per randomly chosen cell and each with a random reaction; every frame,
  the buttons within trigger distance of the motion-tracked capsule fire their
  reaction and are removed. A Soul reaction loses the game and a Dash reaction
  wins it; either one ends it.

  Random choices are nondeterministic. Button placement is modelled in the
  plane's local coordinates. Instantiating and destroying objects, the
  scene reload and log lines are recorded as event lists on the manager.
 */
module PinkButtons {
  import opened UnityMath

  /** `PinkButtonReaction.ReactionType`. */
  datatype ReactionType = BlueExplosion | Soul | Dash

  /** A spawned button: where it is, which reaction it holds and which grid cell it was placed in. */
  datatype Button = Button(position: Vec3, reactionType: ReactionType, cellX: int, cellZ: int)

  /** A visual-effect prefab, by identity. */
  datatype Prefab = Prefab(id: int)

  // ---------------------------------------------------------------------------
  // Shuffling

  /** `Shuffle`: Fisher-Yates from the back, swapping each slot with a random slot at or before it. */
  method Shuffle<T>(list: array<T>)
    modifies list
    ensures multiset(list[..]) == multiset(old(list[..]))
  {
    var i := list.Length - 1;
    while i > 0
      invariant -1 <= i < list.Length
      invariant multiset(list[..]) == multiset(old(list[..]))
    {
      var j :| 0 <= j <= i;
      list[i], list[j] := list[j], list[i];
      i := i - 1;
    }
  }

  /** `[0, 1, ..., n - 1]`. */
  function Range(n: nat): seq<int>
  {
    seq(n, i => i)
  }

  predicate Distinct(s: seq<int>) {
    forall i, j :: 0 <= i < j < |s| ==> s[i] != s[j]
  }

  /** In a list without repeats, every value occurs at most once. */
  lemma {:induction false} DistinctOccursOnce(s: seq<int>, x: int)
    requires Distinct(s)
    ensures multiset(s)[x] <= 1
    decreases |s|
  {
    if |s| > 0 {
      var init := s[..|s| - 1];
      assert s == init + [s[|s| - 1]];
      assert Distinct(init);
      DistinctOccursOnce(init, x);
      if x == s[|s| - 1] {
        assert x !in init;
      }
    }
  }

  /** A value at two different positions occurs at least twice. */
  lemma RepeatOccursTwice(s: seq<int>, i: int, j: int)
    requires 0 <= i < j < |s| && s[i] == s[j]
    ensures multiset(s)[s[i]] >= 2
  {
    assert s == s[..i] + [s[i]] + s[i + 1..];
    assert s[j] == s[i + 1..][j - i - 1];
    assert s[i] in multiset(s[i + 1..]);
  }

  /** A permutation of `[0, n)` has no repeats and only values in `[0, n)`. */
  lemma PermutationOfRange(s: seq<int>, n: nat)
    requires multiset(s) == multiset(Range(n))
    ensures Distinct(s)
    ensures forall i :: 0 <= i < |s| ==> 0 <= s[i] < n
  {
    forall i | 0 <= i < |s|
      ensures 0 <= s[i] < n
    {
      assert s[i] in multiset(Range(n));
    }
    forall i, j | 0 <= i < j < |s|
      ensures s[i] != s[j]
    {
      if s[i] == s[j] {
        RepeatOccursTwice(s, i, j);
        DistinctOccursOnce(Range(n), s[i]);
        assert false;
      }
    }
  }

  // ---------------------------------------------------------------------------
  // The grid

  /** `Mathf.Max(1, Mathf.FloorToInt(extent / Mathf.Max(0.01, spacing)))`: how many cells fit along one axis. */
  function CellCount(extent: real, spacing: real): (n: int)
    ensures n >= 1
    ensures extent >= Max(0.01, spacing) ==> (n as real) * Max(0.01, spacing) <= extent
    ensures extent < Max(0.01, spacing) ==> n == 1 && (n as real) * Max(0.01, spacing) > extent
  {
    var cells := (extent / Max(0.01, spacing)).Floor;
    CellCountFits(extent, Max(0.01, spacing));
    if 1 > cells then 1 else cells
  }

  /** The floored quotient, times the divisor, does not exceed the dividend. */
  lemma CellCountFits(extent: real, cellSize: real)
    requires cellSize > 0.0
    ensures ((extent / cellSize).Floor as real) * cellSize <= extent
  {
    var q := extent / cellSize;
    assert (q.Floor as real) <= q;
    MulLeDiv(q.Floor as real, extent, cellSize);
  }

  lemma MulLeDiv(a: real, b: real, c: real)
    requires c > 0.0 && a <= b / c
    ensures a * c <= b
  {
    DivMul(b, c);
    assert (b / c - a) * c >= 0.0 by { MulNonneg(b / c - a, c); }
  }

  /** Cell index `idx` of a grid `cellsX` wide lies at column `idx % cellsX`, row `idx / cellsX`, inside the grid. */
  lemma CellOfIndex(idx: int, cellsX: int, cellsZ: int)
    requires cellsX >= 1 && cellsZ >= 1 && 0 <= idx < cellsX * cellsZ
    ensures 0 <= idx % cellsX < cellsX && 0 <= idx / cellsX < cellsZ
  {
  }

  /** Different cell indices give different cells. */
  lemma CellsOfDistinctIndices(a: int, b: int, cellsX: int)
    requires cellsX >= 1 && 0 <= a && 0 <= b && a != b
    ensures (a % cellsX, a / cellsX) != (b % cellsX, b / cellsX)
  {
  }

  // ---------------------------------------------------------------------------
  // Triggering

  /** Whether the entry fires this frame: a live button strictly within the trigger distance. */
  predicate Fires(entry: Option<Button>, capsule: Vec3, triggerDistance: real) {
    entry.Some? && WithinDistance(capsule, entry.value.position, triggerDistance)
  }

  /** Whether the entry stays in the list: a live button not within the trigger distance. */
  predicate Stays(entry: Option<Button>, capsule: Vec3, triggerDistance: real) {
    entry.Some? && !WithinDistance(capsule, entry.value.position, triggerDistance)
  }

  /** The entries that stay, in their original order. */
  function Kept(s: seq<Option<Button>>, capsule: Vec3, triggerDistance: real): seq<Option<Button>>
    decreases |s|
  {
    if |s| == 0 then []
    else (if Stays(s[0], capsule, triggerDistance) then [s[0]] else []) + Kept(s[1..], capsule, triggerDistance)
  }

  /** The buttons that fire, in the order the backward loop reaches them (last entry first). */
  function Fired(s: seq<Option<Button>>, capsule: Vec3, triggerDistance: real): seq<Button>
    decreases |s|
  {
    if |s| == 0 then []
    else Fired(s[1..], capsule, triggerDistance) + (if Fires(s[0], capsule, triggerDistance) then [s[0].value] else [])
  }

  function CountNone(s: seq<Option<Button>>): nat
    decreases |s|
  {
    if |s| == 0 then 0 else (if s[0].None? then 1 else 0) + CountNone(s[1..])
  }

  /**
    The frame splits the list: every entry either stays, fires, or is a
    destroyed button; what stays is exactly the live buttons out of range.
   */
  lemma {:induction false} KeptFiredPartition(s: seq<Option<Button>>, capsule: Vec3, triggerDistance: real)
    ensures |Kept(s, capsule, triggerDistance)| + |Fired(s, capsule, triggerDistance)| + CountNone(s) == |s|
    ensures forall e :: e in Kept(s, capsule, triggerDistance) <==> e in s && Stays(e, capsule, triggerDistance)
    ensures forall b :: b in Fired(s, capsule, triggerDistance) <==> Some(b) in s && Fires(Some(b), capsule, triggerDistance)
    decreases |s|
  {
    if |s| > 0 {
      KeptFiredPartition(s[1..], capsule, triggerDistance);
      assert s == [s[0]] + s[1..];
    }
  }

  /** The visual effect `TriggerReaction` instantiates for one button, if its reaction has a prefab. */
  function VfxOf(b: Button, blue: Option<Prefab>, soul: Option<Prefab>, dash: Option<Prefab>): seq<(Prefab, Vec3)> {
    var prefab := GetPrefabForReaction(b.reactionType, blue, soul, dash);
    if prefab.Some? then [(prefab.value, b.position)] else []
  }

  /** The game ending a reaction causes: `true` for a loss (Soul), `false` for a win (Dash), none for BlueExplosion. */
  function EndingOf(t: ReactionType): seq<bool> {
    match t
    case Soul => [true]
    case Dash => [false]
    case BlueExplosion => []
  }

  function AllVfx(bs: seq<Button>, blue: Option<Prefab>, soul: Option<Prefab>, dash: Option<Prefab>): seq<(Prefab, Vec3)>
    decreases |bs|
  {
    if |bs| == 0 then [] else AllVfx(bs[..|bs| - 1], blue, soul, dash) + VfxOf(bs[|bs| - 1], blue, soul, dash)
  }

  function AllEndings(bs: seq<Button>): seq<bool>
    decreases |bs|
  {
    if |bs| == 0 then [] else AllEndings(bs[..|bs| - 1]) + EndingOf(bs[|bs| - 1].reactionType)
  }

  /** One step of the backward walk: entry `i` is decided in front of what the walk has already decided. */
  lemma KeptFiredStep(s: seq<Option<Button>>, i: int, capsule: Vec3, triggerDistance: real)
    requires 0 <= i < |s|
    ensures Kept(s[i..], capsule, triggerDistance)
         == (if Stays(s[i], capsule, triggerDistance) then [s[i]] else []) + Kept(s[i + 1..], capsule, triggerDistance)
    ensures Fired(s[i..], capsule, triggerDistance)
         == Fired(s[i + 1..], capsule, triggerDistance) + (if Fires(s[i], capsule, triggerDistance) then [s[i].value] else [])
  {
    assert s[i..][1..] == s[i + 1..];
  }

  /** Dropping or keeping entry `i` of a list whose tail has already been filtered. */
  lemma RemoveStep<E>(s: seq<E>, i: int, kept: seq<E>, mid: seq<E>)
    requires 0 <= i < |s|
    ensures (s[..i + 1] + kept)[i] == s[i]
    ensures (s[..i + 1] + kept)[..i] + mid + (s[..i + 1] + kept)[i + 1..] == s[..i] + (mid + kept)
  {
    assert (s[..i + 1] + kept)[..i] == s[..i];
    assert (s[..i + 1] + kept)[i + 1..] == kept;
  }

  /** Firing one more button adds its effect and its ending at the end. */
  lemma AllAppend(bs: seq<Button>, b: Button, blue: Option<Prefab>, soul: Option<Prefab>, dash: Option<Prefab>)
    ensures AllVfx(bs + [b], blue, soul, dash) == AllVfx(bs, blue, soul, dash) + VfxOf(b, blue, soul, dash)
    ensures AllEndings(bs + [b]) == AllEndings(bs) + EndingOf(b.reactionType)
  {
    assert (bs + [b])[..|bs|] == bs;
  }

  /** A list of fired buttons produces an ending exactly when one of them is not a BlueExplosion. */
  lemma {:induction false} EndingsIffEndingReaction(bs: seq<Button>)
    ensures |AllEndings(bs)| > 0 <==> exists i :: 0 <= i < |bs| && bs[i].reactionType != BlueExplosion
    decreases |bs|
  {
    if |bs| > 0 {
      var init := bs[..|bs| - 1];
      EndingsIffEndingReaction(init);
      if exists i :: 0 <= i < |init| && init[i].reactionType != BlueExplosion {
        var i :| 0 <= i < |init| && init[i].reactionType != BlueExplosion;
        assert bs[i] == init[i];
      }
      if exists i :: 0 <= i < |bs| && bs[i].reactionType != BlueExplosion {
        var i :| 0 <= i < |bs| && bs[i].reactionType != BlueExplosion;
        if i < |init| {
          assert init[i] == bs[i];
        }
      }
    }
  }

  /** `GetPrefabForReaction`: each reaction type selects its own prefab field. */
  function GetPrefabForReaction(t: ReactionType, blue: Option<Prefab>, soul: Option<Prefab>, dash: Option<Prefab>): Option<Prefab> {
    match t
    case BlueExplosion => blue
    case Soul => soul
    case Dash => dash
  }

  /** With three different prefabs assigned, the prefab tells the reaction apart. */
  lemma PrefabIdentifiesReaction(t1: ReactionType, t2: ReactionType, blue: Option<Prefab>, soul: Option<Prefab>, dash: Option<Prefab>)
    requires blue != soul && blue != dash && soul != dash
    ensures GetPrefabForReaction(t1, blue, soul, dash) == GetPrefabForReaction(t2, blue, soul, dash) <==> t1 == t2
  {
  }

  // ---------------------------------------------------------------------------
  // One frame's walk, on values

  /** The state a frame changes: the button list and the event logs. */
  datatype Progress = Progress(active: seq<Option<Button>>, destroyed: seq<Button>, effects: seq<(Prefab, Vec3)>,
                               endings: seq<bool>, gameEnded: bool, reloads: nat)

  /**
    What visiting entry `i` does: `q` is `p` after the visit. `reloadOn` says
    whether an ending schedules a reload (enabled, with a positive delay).
   */
  ghost predicate VisitedEntry(p: Progress, q: Progress, i: int, position: Vec3, triggerDistance: real,
                               blue: Option<Prefab>, soul: Option<Prefab>, dash: Option<Prefab>, reloadOn: bool)
  {
    && 0 <= i < |p.active|
    && var entry := p.active[i];
    && q.active == p.active[..i] + (if Stays(entry, position, triggerDistance) then [entry] else []) + p.active[i + 1..]
    && if Fires(entry, position, triggerDistance) then
         && q.destroyed == p.destroyed + [entry.value]
         && q.effects == p.effects + VfxOf(entry.value, blue, soul, dash)
         && q.endings == p.endings + EndingOf(entry.value.reactionType)
         && q.gameEnded == (p.gameEnded || entry.value.reactionType != BlueExplosion)
         && q.reloads == p.reloads + (if reloadOn then |EndingOf(entry.value.reactionType)| else 0)
       else
         && q.destroyed == p.destroyed && q.effects == p.effects && q.endings == p.endings
         && q.gameEnded == p.gameEnded && q.reloads == p.reloads
  }

  /** The state of `Update`'s backward walk, started at `start`, once entries `i + 1..` of `s` have been visited. */
  ghost predicate WalkedFrom(s: seq<Option<Button>>, i: int, position: Vec3, triggerDistance: real,
                             blue: Option<Prefab>, soul: Option<Prefab>, dash: Option<Prefab>, reloadOn: bool,
                             fired: seq<Button>, start: Progress, p: Progress)
  {
    WalkedList(s, i, position, triggerDistance, fired, p.active) && WalkedLogs(blue, soul, dash, reloadOn, fired, start, p)
  }

  /** The list part of the walk: entries up to `i` untouched, the visited tail filtered, and what has fired. */
  ghost predicate WalkedList(s: seq<Option<Button>>, i: int, position: Vec3, triggerDistance: real,
                             fired: seq<Button>, active: seq<Option<Button>>)
  {
    && -1 <= i < |s|
    && fired == Fired(s[i + 1..], position, triggerDistance)
    && active == s[..i + 1] + Kept(s[i + 1..], position, triggerDistance)
  }

  /** The log part of the walk: every fired button destroyed, with its effect, its ending and its reload, in firing order. */
  ghost predicate WalkedLogs(blue: Option<Prefab>, soul: Option<Prefab>, dash: Option<Prefab>, reloadOn: bool,
                             fired: seq<Button>, start: Progress, p: Progress)
  {
    && p.destroyed == start.destroyed + fired
    && p.effects == start.effects + AllVfx(fired, blue, soul, dash)
    && p.endings == start.endings + AllEndings(fired)
    && p.gameEnded == (|AllEndings(fired)| > 0)
    && p.reloads == start.reloads + (if reloadOn then |AllEndings(fired)| else 0)
  }

  /** Visiting entry `i` moves the list part of the walk from `i` to `i - 1`. */
  lemma ListStep(s: seq<Option<Button>>, i: int, position: Vec3, triggerDistance: real,
                 fired: seq<Button>, active: seq<Option<Button>>, active': seq<Option<Button>>)
    requires 0 <= i < |s| && WalkedList(s, i, position, triggerDistance, fired, active)
    requires active' == active[..i] + (if Stays(active[i], position, triggerDistance) then [active[i]] else []) + active[i + 1..]
    ensures WalkedList(s, i - 1, position, triggerDistance,
                       if Fires(s[i], position, triggerDistance) then fired + [s[i].value] else fired, active')
  {
    KeptFiredStep(s, i, position, triggerDistance);
    var kept := Kept(s[i + 1..], position, triggerDistance);
    var mid := if Stays(s[i], position, triggerDistance) then [s[i]] else [];
    RemoveStep(s, i, kept, mid);
  }

  /** Firing button `b` extends the log part of the walk by `b`. */
  lemma LogsStep(blue: Option<Prefab>, soul: Option<Prefab>, dash: Option<Prefab>, reloadOn: bool,
                 fired: seq<Button>, b: Button, start: Progress, p: Progress, q: Progress)
    requires WalkedLogs(blue, soul, dash, reloadOn, fired, start, p)
    requires q.destroyed == p.destroyed + [b] && q.effects == p.effects + VfxOf(b, blue, soul, dash)
    requires q.endings == p.endings + EndingOf(b.reactionType)
    requires q.gameEnded == (p.gameEnded || b.reactionType != BlueExplosion)
    requires q.reloads == p.reloads + (if reloadOn then |EndingOf(b.reactionType)| else 0)
    ensures WalkedLogs(blue, soul, dash, reloadOn, fired + [b], start, q)
  {
    AllAppend(fired, b, blue, soul, dash);
    assert q.destroyed == start.destroyed + (fired + [b]);
    assert q.effects == start.effects + AllVfx(fired + [b], blue, soul, dash);
    assert q.endings == start.endings + AllEndings(fired + [b]);
  }

  /** Visiting entry `i` moves the walk from `i` to `i - 1`, adding the entry to the fired buttons when it fires. */
  lemma WalkStep(s: seq<Option<Button>>, i: int, position: Vec3, triggerDistance: real,
                 blue: Option<Prefab>, soul: Option<Prefab>, dash: Option<Prefab>, reloadOn: bool,
                 fired: seq<Button>, start: Progress, p: Progress, q: Progress)
    requires 0 <= i < |s| && WalkedFrom(s, i, position, triggerDistance, blue, soul, dash, reloadOn, fired, start, p)
    requires VisitedEntry(p, q, i, position, triggerDistance, blue, soul, dash, reloadOn)
    ensures WalkedFrom(s, i - 1, position, triggerDistance, blue, soul, dash, reloadOn,
                       if Fires(s[i], position, triggerDistance) then fired + [s[i].value] else fired, start, q)
  {
    assert p.active[i] == s[i] by {
      assert p.active == s[..i + 1] + Kept(s[i + 1..], position, triggerDistance);
    }
    ListStep(s, i, position, triggerDistance, fired, p.active, q.active);
    if Fires(s[i], position, triggerDistance) {
      LogsStep(blue, soul, dash, reloadOn, fired, s[i].value, start, p, q);
    }
  }

  // ---------------------------------------------------------------------------
  // The manager

  class PinkButtonGameManager {
    // spawn settings; the two flags say whether the plane and the prefab are assigned
    var spawnPlaneAssigned: bool
    var pinkButtonPrefabAssigned: bool
    var buttonCount: int
    var minSpacingBetweenButtons: real
    var buttonHeightAbovePlane: real

    var triggerDistance: real

    var blueExplosionUrpPrefab: Option<Prefab>
    var soulUrpPrefab: Option<Prefab>
    var dashUrpPrefab: Option<Prefab>

    var gameEnded: bool
    var reloadSceneOnEnd: bool
    var reloadDelay: real

    /** `_activeButtons`; `None` is a button whose object has been destroyed. */
    var activeButtons: seq<Option<Button>>

    // what the manager has done, as events
    var destroyedButtons: seq<Button>
    var spawnedEffects: seq<(Prefab, Vec3)>
    var endings: seq<bool>
    var reloadsScheduled: nat

    /** Every ending sets `gameEnded` first, and each ending schedules at most one reload. */
    ghost predicate Valid()
      reads this
    {
      (|endings| > 0 ==> gameEnded) && reloadsScheduled <= |endings|
    }

    /** The inspector defaults. */
    constructor (spawnPlaneAssigned: bool, pinkButtonPrefabAssigned: bool,
                 blue: Option<Prefab>, soul: Option<Prefab>, dash: Option<Prefab>)
      ensures Valid() && !gameEnded && !reloadSceneOnEnd && activeButtons == []
      ensures this.spawnPlaneAssigned == spawnPlaneAssigned && this.pinkButtonPrefabAssigned == pinkButtonPrefabAssigned
      ensures blueExplosionUrpPrefab == blue && soulUrpPrefab == soul && dashUrpPrefab == dash
      ensures buttonCount == 8 && minSpacingBetweenButtons == 0.5 && buttonHeightAbovePlane == 0.02
      ensures triggerDistance == 0.5 && reloadDelay == 2.0
      ensures destroyedButtons == [] && spawnedEffects == [] && endings == [] && reloadsScheduled == 0
    {
      this.spawnPlaneAssigned := spawnPlaneAssigned;
      this.pinkButtonPrefabAssigned := pinkButtonPrefabAssigned;
      buttonCount := 8;
      minSpacingBetweenButtons := 0.5;
      buttonHeightAbovePlane := 0.02;
      triggerDistance := 0.5;
      blueExplosionUrpPrefab, soulUrpPrefab, dashUrpPrefab := blue, soul, dash;
      gameEnded, reloadSceneOnEnd := false, false;
      reloadDelay := 2.0;
      activeButtons := [];
      destroyedButtons, spawnedEffects, endings, reloadsScheduled := [], [], [], 0;
    }

    /** `EndGame`: the outcome is recorded, and a reload is scheduled when enabled with a positive delay. */
    method EndGame(lost: bool)
      modifies this`endings, this`reloadsScheduled
      ensures endings == old(endings) + [lost]
      ensures reloadsScheduled == old(reloadsScheduled) + (if reloadSceneOnEnd && reloadDelay > 0.0 then 1 else 0)
    {
      endings := endings + [lost];
      if reloadSceneOnEnd && reloadDelay > 0.0 {
        reloadsScheduled := reloadsScheduled + 1;
      }
    }

    /**
      `TriggerReaction`: the effect is spawned if its prefab is assigned, the
      button is destroyed, and Soul loses, Dash wins, BlueExplosion does nothing more.
     */
    method TriggerReaction(button: Button)
      modifies this`destroyedButtons, this`spawnedEffects, this`endings, this`reloadsScheduled, this`gameEnded
      ensures destroyedButtons == old(destroyedButtons) + [button]
      ensures spawnedEffects == old(spawnedEffects) + VfxOf(button, blueExplosionUrpPrefab, soulUrpPrefab, dashUrpPrefab)
      ensures endings == old(endings) + EndingOf(button.reactionType)
      ensures gameEnded == (old(gameEnded) || button.reactionType != BlueExplosion)
      ensures reloadsScheduled == old(reloadsScheduled)
        + (if button.reactionType != BlueExplosion && reloadSceneOnEnd && reloadDelay > 0.0 then 1 else 0)
    {
      var prefab := GetPrefabForReaction(button.reactionType, blueExplosionUrpPrefab, soulUrpPrefab, dashUrpPrefab);
      if prefab.Some? {
        spawnedEffects := spawnedEffects + [(prefab.value, button.position)];
      }
      destroyedButtons := destroyedButtons + [button];
      match button.reactionType {
        case Soul =>
          gameEnded := true;
          EndGame(true);
        case Dash =>
          gameEnded := true;
          EndGame(false);
        case BlueExplosion =>
      }
    }

    /** Whether `EndGame` schedules a reload: enabled, with a positive delay. */
    predicate ReloadOn()
      reads this
    {
      reloadSceneOnEnd && reloadDelay > 0.0
    }

    /** The list and the event logs, as one value. */
    function Snapshot(): Progress
      reads this
    {
      Progress(activeButtons, destroyedButtons, spawnedEffects, endings, gameEnded, reloadsScheduled)
    }

    /** One iteration of `Update`'s loop: entry `i` is dropped if it is destroyed, and fires and is dropped if in range. */
    method VisitEntry(i: int, position: Vec3)
      requires 0 <= i < |activeButtons|
      modifies this`activeButtons, this`destroyedButtons, this`spawnedEffects, this`endings
      modifies this`reloadsScheduled, this`gameEnded
      ensures VisitedEntry(old(Snapshot()), Snapshot(), i, position, triggerDistance,
                           blueExplosionUrpPrefab, soulUrpPrefab, dashUrpPrefab, ReloadOn())
    {
      var button := activeButtons[i];
      if button.None? {
        activeButtons := activeButtons[..i] + activeButtons[i + 1..];
      } else if WithinDistance(position, button.value.position, triggerDistance) {
        TriggerReaction(button.value);
        activeButtons := activeButtons[..i] + activeButtons[i + 1..];
      }
    }

    /** One iteration of `Update`'s loop keeps the walk's state. */
    method UpdateStep(ghost s: seq<Option<Button>>, i: int, position: Vec3, ghost fired: seq<Button>, ghost start: Progress)
      returns (ghost fired': seq<Button>)
      requires 0 <= i < |s|
      requires WalkedFrom(s, i, position, triggerDistance, blueExplosionUrpPrefab, soulUrpPrefab, dashUrpPrefab,
                          ReloadOn(), fired, start, Snapshot())
      modifies this`activeButtons, this`destroyedButtons, this`spawnedEffects, this`endings
      modifies this`reloadsScheduled, this`gameEnded
      ensures WalkedFrom(s, i - 1, position, triggerDistance, blueExplosionUrpPrefab, soulUrpPrefab, dashUrpPrefab,
                         ReloadOn(), fired', start, Snapshot())
    {
      ghost var before := Snapshot();
      VisitEntry(i, position);
      WalkStep(s, i, position, triggerDistance, blueExplosionUrpPrefab, soulUrpPrefab, dashUrpPrefab, ReloadOn(),
               fired, start, before, Snapshot());
      fired' := if Fires(s[i], position, triggerDistance) then fired + [s[i].value] else fired;
    }

    /**
      `Update`, one frame. Nothing happens once the game has ended or without a
      capsule. Otherwise the list is walked from the back: destroyed entries
      are dropped, and every button strictly within `triggerDistance` fires and
      is dropped; the loop does not stop when a reaction ends the game.
     */
    method Update(capsule: Option<Vec3>)
      requires Valid()
      modifies this`activeButtons, this`destroyedButtons, this`spawnedEffects, this`endings
      modifies this`reloadsScheduled, this`gameEnded
      ensures Valid()
      ensures old(gameEnded) || capsule.None? ==> unchanged(this)
      ensures !old(gameEnded) && capsule.Some? ==>
        activeButtons == Kept(old(activeButtons), capsule.value, triggerDistance)
      ensures !old(gameEnded) && capsule.Some? ==>
        destroyedButtons == old(destroyedButtons) + Fired(old(activeButtons), capsule.value, triggerDistance)
      ensures !old(gameEnded) && capsule.Some? ==>
        spawnedEffects == old(spawnedEffects)
          + AllVfx(Fired(old(activeButtons), capsule.value, triggerDistance), blueExplosionUrpPrefab, soulUrpPrefab, dashUrpPrefab)
      ensures !old(gameEnded) && capsule.Some? ==>
        endings == old(endings) + AllEndings(Fired(old(activeButtons), capsule.value, triggerDistance))
      ensures !old(gameEnded) && capsule.Some? ==>
        gameEnded == (|AllEndings(Fired(old(activeButtons), capsule.value, triggerDistance))| > 0)
      ensures !old(gameEnded) && capsule.Some? ==>
        reloadsScheduled == old(reloadsScheduled)
          + (if ReloadOn() then |AllEndings(Fired(old(activeButtons), capsule.value, triggerDistance))| else 0)
    {
      if gameEnded || capsule.None? {
        return;
      }
      var position := capsule.value;
      ghost var s := activeButtons;
      ghost var start := Snapshot();
      ghost var fired: seq<Button> := [];
      var i := |activeButtons| - 1;
      assert s[i + 1..] == [];
      while i >= 0
        invariant -1 <= i < |s|
        invariant WalkedFrom(s, i, position, triggerDistance, blueExplosionUrpPrefab, soulUrpPrefab, dashUrpPrefab,
                             ReloadOn(), fired, start, Snapshot())
      {
        fired := UpdateStep(s, i, position, fired, start);
        i := i - 1;
      }
      assert s[0..] == s;
    }

    /**
      `SpawnButtons`. The grid has `CellCount` columns and rows over the plane's
      scale; `buttonCount` is capped to the number of cells; the cell indices
      are shuffled and button `i` takes cell `i` of the shuffled list, with a
      random offset of at most a quarter cell on each axis and a random reaction.
     */
    method SpawnButtons(planeScale: Vec3)
      modifies this`buttonCount, this`activeButtons
      ensures !(spawnPlaneAssigned && pinkButtonPrefabAssigned) ==> unchanged(this)
      ensures spawnPlaneAssigned && pinkButtonPrefabAssigned ==>
        var cellsX := CellCount(planeScale.x, minSpacingBetweenButtons);
        var cellsZ := CellCount(planeScale.z, minSpacingBetweenButtons);
        && buttonCount == (if old(buttonCount) > cellsX * cellsZ then cellsX * cellsZ else old(buttonCount))
        && |activeButtons| == |old(activeButtons)| + (if buttonCount > 0 then buttonCount else 0)
        && activeButtons[..|old(activeButtons)|] == old(activeButtons)
        && WellSpawned(activeButtons[|old(activeButtons)|..], planeScale, cellsX, cellsZ,
                       Max(0.01, minSpacingBetweenButtons), buttonHeightAbovePlane)
    {
      if !spawnPlaneAssigned || !pinkButtonPrefabAssigned {
        return;
      }
      var cellSize := Max(0.01, minSpacingBetweenButtons);
      var cellsX := CellCount(2.0 * (planeScale.x * 0.5), minSpacingBetweenButtons);
      var cellsZ := CellCount(2.0 * (planeScale.z * 0.5), minSpacingBetweenButtons);
      var totalCells := cellsX * cellsZ;
      if buttonCount > totalCells {
        buttonCount := totalCells;
      }
      var cellIndices := ShuffledCells(totalCells);
      var count := if buttonCount > 0 then buttonCount else 0;
      var spawned := SpawnInCells(cellIndices[..count], planeScale, cellsX, cellsZ, cellSize, buttonHeightAbovePlane);
      activeButtons := activeButtons + spawned;
      assert activeButtons[|old(activeButtons)|..] == spawned;
    }
  }

  /**
    The buttons one spawn adds: each a live button lying in its own cell of the
    `cellsX` by `cellsZ` grid at the given height, and no two in the same cell.
   */
  predicate WellSpawned(spawned: seq<Option<Button>>, planeScale: Vec3, cellsX: int, cellsZ: int, cellSize: real, height: real) {
    && (forall k :: 0 <= k < |spawned| ==>
          && spawned[k].Some?
          && 0 <= spawned[k].value.cellX < cellsX && 0 <= spawned[k].value.cellZ < cellsZ
          && spawned[k].value.position.y == height
          && InCell(spawned[k].value.position.x, planeScale.x, spawned[k].value.cellX, cellSize)
          && InCell(spawned[k].value.position.z, planeScale.z, spawned[k].value.cellZ, cellSize))
    && (forall k, l :: 0 <= k < l < |spawned| ==>
          (spawned[k].value.cellX, spawned[k].value.cellZ) != (spawned[l].value.cellX, spawned[l].value.cellZ))
  }

  /** The cell indices `0 .. total - 1`, listed and shuffled: every cell exactly once, in random order. */
  method ShuffledCells(total: nat) returns (cells: array<int>)
    ensures fresh(cells) && cells.Length == total
    ensures multiset(cells[..]) == multiset(Range(total))
    ensures Distinct(cells[..]) && forall k :: 0 <= k < cells.Length ==> 0 <= cells[k] < total
  {
    cells := new int[total];
    for i := 0 to total
      invariant forall k :: 0 <= k < i ==> cells[k] == k
    {
      cells[i] := i;
    }
    assert cells[..] == Range(total);
    Shuffle(cells);
    PermutationOfRange(cells[..], total);
  }

  /** One button in cell `cellIndex`: at the cell centre moved by at most a quarter cell on each axis, with a random reaction. */
  method SpawnInCell(cellIndex: int, planeScale: Vec3, cellsX: int, cellSize: real, height: real) returns (b: Button)
    requires cellsX >= 1 && cellSize > 0.0
    ensures b.cellX == cellIndex % cellsX && b.cellZ == cellIndex / cellsX
    ensures b.position.y == height
    ensures InCell(b.position.x, planeScale.x, b.cellX, cellSize) && InCell(b.position.z, planeScale.z, b.cellZ, cellSize)
  {
    var halfX := planeScale.x * 0.5;
    var halfZ := planeScale.z * 0.5;
    var ix := cellIndex % cellsX;
    var iz := cellIndex / cellsX;
    var localX := -halfX + (ix as real + 0.5) * cellSize;
    var localZ := -halfZ + (iz as real + 0.5) * cellSize;
    var margin := cellSize * 0.25;
    assert -margin <= 0.0 <= margin;
    var offsetX :| -margin <= offsetX <= margin;
    var offsetZ :| -margin <= offsetZ <= margin;
    localX := localX + offsetX;
    localZ := localZ + offsetZ;
    var reaction: ReactionType :| true;
    b := Button(Vec3(localX, height, localZ), reaction, ix, iz);
  }

  /** `SpawnButtons`' second loop: one button per listed cell index, in order. */
  method SpawnInCells(cells: seq<int>, planeScale: Vec3, cellsX: int, cellsZ: int, cellSize: real, height: real)
    returns (spawned: seq<Option<Button>>)
    requires cellsX >= 1 && cellsZ >= 1 && cellSize > 0.0
    requires Distinct(cells) && forall k :: 0 <= k < |cells| ==> 0 <= cells[k] < cellsX * cellsZ
    ensures |spawned| == |cells|
    ensures WellSpawned(spawned, planeScale, cellsX, cellsZ, cellSize, height)
  {
    spawned := [];
    for i := 0 to |cells|
      invariant |spawned| == i
      invariant forall k :: 0 <= k < i ==>
        && spawned[k].Some?
        && spawned[k].value.cellX == cells[k] % cellsX && spawned[k].value.cellZ == cells[k] / cellsX
        && spawned[k].value.position.y == height
        && InCell(spawned[k].value.position.x, planeScale.x, spawned[k].value.cellX, cellSize)
        && InCell(spawned[k].value.position.z, planeScale.z, spawned[k].value.cellZ, cellSize)
    {
      var b := SpawnInCell(cells[i], planeScale, cellsX, cellSize, height);
      spawned := spawned + [Some(b)];
    }
    forall k | 0 <= k < |spawned|
      ensures 0 <= spawned[k].value.cellX < cellsX && 0 <= spawned[k].value.cellZ < cellsZ
    {
      CellOfIndex(cells[k], cellsX, cellsZ);
    }
    forall k, l | 0 <= k < l < |spawned|
      ensures (spawned[k].value.cellX, spawned[k].value.cellZ) != (spawned[l].value.cellX, spawned[l].value.cellZ)
    {
      CellsOfDistinctIndices(cells[k], cells[l], cellsX);
    }
  }

  /** A coordinate lies within a quarter cell of the centre of cell `index` of a grid starting at `-extent / 2`. */
  predicate InCell(coordinate: real, extent: real, index: int, cellSize: real) {
    var centre := -extent * 0.5 + (index as real + 0.5) * cellSize;
    centre - cellSize * 0.25 <= coordinate <= centre + cellSize * 0.25
  }
}
