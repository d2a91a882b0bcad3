/**
  The player of the chicken game: walking into a chicken collects it (with a
  reward sound), collecting the required number plays a winning sound once,
  and touching a bomb loses the game (with a losing sound) and freezes time.

  The three counters and flags are kept in `PersonState`; the handlers are
  pure functions on it that also return the sound cues they raise, and the
  `Person` class runs them in place. Audio playback, logging and object
  destruction are recorded as event lists.
 */
module ChickenGamePlayer {

  /** The three fields the handlers update. */
  datatype PersonState = PersonState(chickensCollected: int, gameEnded: bool, hasPlayedWinSound: bool)

  /** A sound the player asks to play. */
  datatype Cue = RewardCue | WinningCue | LosingCue

  /** What touched the player: a game object, by identity and tag. */
  datatype Contact = Contact(id: int, tag: string)

  /** A collision or trigger event reaching the player. */
  datatype Event = Collision(other: Contact) | Trigger(other: Contact)

  const InitialState := PersonState(0, false, false)

  /** `CollectChicken`: one more chicken, a reward cue, and the winning cue on the first collection that reaches the total. */
  function Collect(s: PersonState, totalChickens: int): (PersonState, seq<Cue>) {
    var n := s.chickensCollected + 1;
    if n >= totalChickens && !s.hasPlayedWinSound then
      (PersonState(n, s.gameEnded, true), [RewardCue, WinningCue])
    else
      (PersonState(n, s.gameEnded, s.hasPlayedWinSound), [RewardCue])
  }

  /** `EndGameLoss`: ends the game with a losing cue, unless it has already ended. */
  function EndLoss(s: PersonState): (PersonState, seq<Cue>) {
    if s.gameEnded then (s, []) else (s.(gameEnded := true), [LosingCue])
  }

  /** `OnCollisionEnter`: a bomb ends the game; otherwise a chicken is collected. */
  function OnCollision(s: PersonState, other: Contact, totalChickens: int): (PersonState, seq<Cue>) {
    if s.gameEnded then (s, [])
    else if other.tag == "Bomb" then EndLoss(s)
    else if other.tag == "Chicken" then Collect(s, totalChickens)
    else (s, [])
  }

  /** `OnTriggerEnter`: only chickens are handled. */
  function OnTrigger(s: PersonState, other: Contact, totalChickens: int): (PersonState, seq<Cue>) {
    if s.gameEnded then (s, [])
    else if other.tag == "Chicken" then Collect(s, totalChickens)
    else (s, [])
  }

  function Handle(s: PersonState, e: Event, totalChickens: int): (PersonState, seq<Cue>) {
    match e
    case Collision(other) => OnCollision(s, other, totalChickens)
    case Trigger(other) => OnTrigger(s, other, totalChickens)
  }

  /** A run of events, in order, with every cue raised. */
  function Run(s: PersonState, events: seq<Event>, totalChickens: int): (PersonState, seq<Cue>)
    decreases |events|
  {
    if |events| == 0 then (s, [])
    else
      var (s1, cues1) := Handle(s, events[0], totalChickens);
      var (s2, cues2) := Run(s1, events[1..], totalChickens);
      (s2, cues1 + cues2)
  }

  function Occurrences(cues: seq<Cue>, c: Cue): nat
    decreases |cues|
  {
    if |cues| == 0 then 0 else (if cues[0] == c then 1 else 0) + Occurrences(cues[1..], c)
  }

  lemma {:induction false} OccurrencesAppend(a: seq<Cue>, b: seq<Cue>, c: Cue)
    ensures Occurrences(a + b, c) == Occurrences(a, c) + Occurrences(b, c)
    decreases |a|
  {
    if |a| > 0 {
      assert (a + b)[0] == a[0] && (a + b)[1..] == a[1..] + b;
      OccurrencesAppend(a[1..], b, c);
    } else {
      assert a + b == b;
    }
  }

  /** Once the game has ended, both handlers leave the state alone and raise nothing. */
  lemma EndedHandlersInert(s: PersonState, e: Event, totalChickens: int)
    requires s.gameEnded
    ensures Handle(s, e, totalChickens) == (s, [])
  {
  }

  /**
    A bomb is looked at before anything else: touching one in a running game
    ends it with exactly the losing cue, and nothing is collected.
   */
  lemma BombEndsGame(s: PersonState, other: Contact, totalChickens: int)
    requires !s.gameEnded && other.tag == "Bomb"
    ensures var (r, cues) := OnCollision(s, other, totalChickens);
      r.gameEnded && r.chickensCollected == s.chickensCollected && cues == [LosingCue]
  {
  }

  /** A collection adds exactly one chicken, never ends the game, and always rewards. */
  lemma CollectCounts(s: PersonState, totalChickens: int)
    ensures var (r, cues) := Collect(s, totalChickens);
      && r.chickensCollected == s.chickensCollected + 1
      && r.gameEnded == s.gameEnded
      && cues[0] == RewardCue
      && (WinningCue in cues <==> !s.hasPlayedWinSound && s.chickensCollected + 1 >= totalChickens)
  {
  }

  /** One event: the latches only close, and each cue raised is the one that closes its latch. */
  lemma HandleStep(s: PersonState, e: Event, totalChickens: int)
    ensures var (r, cues) := Handle(s, e, totalChickens);
      && (s.gameEnded ==> r.gameEnded)
      && (s.hasPlayedWinSound ==> r.hasPlayedWinSound)
      && r.chickensCollected >= s.chickensCollected
      && Occurrences(cues, WinningCue) + (if s.hasPlayedWinSound then 1 else 0) == (if r.hasPlayedWinSound then 1 else 0)
      && Occurrences(cues, LosingCue) + (if s.gameEnded then 1 else 0) == (if r.gameEnded then 1 else 0)
  {
    var (r, cues) := Handle(s, e, totalChickens);
    assert cues == [] || cues == [LosingCue] || cues == [RewardCue] || cues == [RewardCue, WinningCue];
  }

  /**
    Over any run: the game, once ended, stays ended and the win flag, once set,
    stays set; the winning cue is raised at most once in all (never, if it has
    already played), and the losing cue at most once (never, if the game has
    already ended). Collections never end the game, so only a loss sets `gameEnded`.
   */
  lemma {:induction false} RunLatches(s: PersonState, events: seq<Event>, totalChickens: int)
    ensures var (r, cues) := Run(s, events, totalChickens);
      && (s.gameEnded ==> r.gameEnded)
      && (s.hasPlayedWinSound ==> r.hasPlayedWinSound)
      && r.chickensCollected >= s.chickensCollected
      && Occurrences(cues, WinningCue) + (if s.hasPlayedWinSound then 1 else 0) == (if r.hasPlayedWinSound then 1 else 0)
      && Occurrences(cues, LosingCue) + (if s.gameEnded then 1 else 0) == (if r.gameEnded then 1 else 0)
    decreases |events|
  {
    if |events| > 0 {
      var (s1, cues1) := Handle(s, events[0], totalChickens);
      HandleStep(s, events[0], totalChickens);
      RunLatches(s1, events[1..], totalChickens);
      var (s2, cues2) := Run(s1, events[1..], totalChickens);
      OccurrencesAppend(cues1, cues2, WinningCue);
      OccurrencesAppend(cues1, cues2, LosingCue);
    }
  }

  /** Which cue each sound clip field plays. */
  datatype Sound = Sound(cue: Cue, volume: real)

  class Person {
    // which audio clips are assigned, and their volumes
    var rewardSoundAssigned: bool
    var losingSoundAssigned: bool
    var winningSoundAssigned: bool
    var rewardSoundVolume: real
    var losingSoundVolume: real
    var winningSoundVolume: real

    var totalChickens: int

    var chickensCollected: int
    var gameEnded: bool
    var hasPlayedWinSound: bool

    // what the player has done, as events
    var soundsPlayed: seq<Sound>
    var destroyedObjects: seq<int>
    var timeScale: real

    function State(): PersonState
      reads this
    {
      PersonState(chickensCollected, gameEnded, hasPlayedWinSound)
    }

    /** Whether the clip for a cue is assigned. */
    predicate ClipAssigned(c: Cue)
      reads this
    {
      match c
      case RewardCue => rewardSoundAssigned
      case WinningCue => winningSoundAssigned
      case LosingCue => losingSoundAssigned
    }

    function Volume(c: Cue): real
      reads this
    {
      match c
      case RewardCue => rewardSoundVolume
      case WinningCue => winningSoundVolume
      case LosingCue => losingSoundVolume
    }

    /** The sounds a list of cues produces: one per cue whose clip is assigned, at that clip's volume. */
    function Audible(cues: seq<Cue>): seq<Sound>
      reads this
      decreases |cues|
    {
      if |cues| == 0 then []
      else (if ClipAssigned(cues[0]) then [Sound(cues[0], Volume(cues[0]))] else []) + Audible(cues[1..])
    }

    /** The inspector defaults, with the clip assignments supplied by the caller. */
    constructor (rewardSoundAssigned: bool, losingSoundAssigned: bool, winningSoundAssigned: bool)
      ensures State() == InitialState && totalChickens == 4 && timeScale == 1.0
      ensures this.rewardSoundAssigned == rewardSoundAssigned && this.losingSoundAssigned == losingSoundAssigned
      ensures this.winningSoundAssigned == winningSoundAssigned
      ensures rewardSoundVolume == 1.0 && losingSoundVolume == 1.0 && winningSoundVolume == 1.0
      ensures soundsPlayed == [] && destroyedObjects == []
    {
      this.rewardSoundAssigned := rewardSoundAssigned;
      this.losingSoundAssigned := losingSoundAssigned;
      this.winningSoundAssigned := winningSoundAssigned;
      rewardSoundVolume, losingSoundVolume, winningSoundVolume := 1.0, 1.0, 1.0;
      totalChickens := 4;
      chickensCollected, gameEnded, hasPlayedWinSound := 0, false, false;
      soundsPlayed, destroyedObjects := [], [];
      timeScale := 1.0;
    }

    method PlaySound(c: Cue)
      modifies this`soundsPlayed
      ensures soundsPlayed == old(soundsPlayed) + Audible([c])
    {
      match c {
        case RewardCue =>
          if rewardSoundAssigned { soundsPlayed := soundsPlayed + [Sound(RewardCue, rewardSoundVolume)]; }
        case WinningCue =>
          if winningSoundAssigned { soundsPlayed := soundsPlayed + [Sound(WinningCue, winningSoundVolume)]; }
        case LosingCue =>
          if losingSoundAssigned { soundsPlayed := soundsPlayed + [Sound(LosingCue, losingSoundVolume)]; }
      }
    }

    /** `CollectChicken`: the chicken is destroyed, and the state steps as `Collect` says. */
    method CollectChicken(chicken: Contact)
      modifies this`chickensCollected, this`hasPlayedWinSound, this`soundsPlayed, this`destroyedObjects
      ensures State() == Collect(old(State()), totalChickens).0
      ensures soundsPlayed == old(soundsPlayed) + Audible(Collect(old(State()), totalChickens).1)
      ensures destroyedObjects == old(destroyedObjects) + [chicken.id]
    {
      destroyedObjects := destroyedObjects + [chicken.id];
      chickensCollected := chickensCollected + 1;
      PlaySound(RewardCue);
      if chickensCollected >= totalChickens && !hasPlayedWinSound {
        hasPlayedWinSound := true;
        PlaySound(WinningCue);
        assert Audible([RewardCue, WinningCue]) == Audible([RewardCue]) + Audible([WinningCue]);
      }
    }

    /** `EndGameLoss`: the game ends once, with the losing sound and time frozen. */
    method EndGameLoss()
      modifies this`gameEnded, this`soundsPlayed, this`timeScale
      ensures State() == EndLoss(old(State())).0
      ensures soundsPlayed == old(soundsPlayed) + Audible(EndLoss(old(State())).1)
      ensures timeScale == if old(gameEnded) then old(timeScale) else 0.0
    {
      if gameEnded {
        return;
      }
      gameEnded := true;
      PlaySound(LosingCue);
      timeScale := 0.0;
    }

    /** `OnCollisionEnter`: steps the state as `OnCollision` says. */
    method OnCollisionEnter(other: Contact)
      modifies this`chickensCollected, this`hasPlayedWinSound, this`soundsPlayed, this`destroyedObjects
      modifies this`gameEnded, this`timeScale
      ensures State() == OnCollision(old(State()), other, totalChickens).0
      ensures soundsPlayed == old(soundsPlayed) + Audible(OnCollision(old(State()), other, totalChickens).1)
      ensures destroyedObjects == old(destroyedObjects)
        + (if !old(gameEnded) && other.tag != "Bomb" && other.tag == "Chicken" then [other.id] else [])
      ensures timeScale == if !old(gameEnded) && other.tag == "Bomb" then 0.0 else old(timeScale)
    {
      if gameEnded {
        return;
      }
      if other.tag == "Bomb" {
        EndGameLoss();
        return;
      }
      if other.tag == "Chicken" {
        CollectChicken(other);
      }
    }

    /** `OnTriggerEnter`: steps the state as `OnTrigger` says. */
    method OnTriggerEnter(other: Contact)
      modifies this`chickensCollected, this`hasPlayedWinSound, this`soundsPlayed, this`destroyedObjects
      ensures State() == OnTrigger(old(State()), other, totalChickens).0
      ensures soundsPlayed == old(soundsPlayed) + Audible(OnTrigger(old(State()), other, totalChickens).1)
      ensures destroyedObjects == old(destroyedObjects)
        + (if !old(gameEnded) && other.tag == "Chicken" then [other.id] else [])
    {
      if gameEnded {
        return;
      }
      if other.tag == "Chicken" {
        CollectChicken(other);
      }
    }
  }
}
