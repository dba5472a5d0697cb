/**
 * The kids' games screen as a state machine: which game is open, how often
 * each shape tile was tapped, the number on the toy telephone and the
 * incoming animal call. Every handler returns the tones it requests.
 */
module IndexScreen {
  import opened Tones
  import opened Sounds
  import opened Keypad
  import opened Wrappers

  /** The screens: the home menu and the four games. */
  datatype GameType = Home | AnimalsGame | ShapesGame | NumbersGame | PhoneGame

  /** How long after dialling the called animal answers, in ms. */
  const CallDelayMs: nat := 1500

  /** A tile's tap count; a tile never tapped counts as 0. */
  function ClickCount(clicks: map<int, nat>, index: int): nat {
    if index in clicks then clicks[index] else 0
  }

  /** One more tap on tile `index`. */
  function Bump(clicks: map<int, nat>, index: int): (r: map<int, nat>)
    ensures ClickCount(r, index) == ClickCount(clicks, index) + 1
    ensures forall j :: j != index ==> ClickCount(r, j) == ClickCount(clicks, j)
    ensures r.Keys == clicks.Keys + {index}
  {
    clicks[index := ClickCount(clicks, index) + 1]
  }

  /** The counts after tapping the tiles `taps` in order. */
  function Taps(clicks: map<int, nat>, taps: seq<int>): map<int, nat>
    decreases |taps|
  {
    if taps == [] then clicks else Taps(Bump(clicks, taps[0]), taps[1..])
  }

  /** Every tile's count grows by exactly the number of times it was tapped. */
  lemma {:induction false} TapsCount(clicks: map<int, nat>, taps: seq<int>, j: int)
    ensures ClickCount(Taps(clicks, taps), j) == ClickCount(clicks, j) + multiset(taps)[j]
    decreases |taps|
  {
    if taps != [] {
      TapsCount(Bump(clicks, taps[0]), taps[1..], j);
      assert taps == [taps[0]] + taps[1..];
      assert multiset(taps) == multiset{taps[0]} + multiset(taps[1..]);
    }
  }

  /** The sound of a shape tile after its `count`-th tap: odd taps name the colour, even taps the shape. */
  function TileSound(count: nat, shape: Shape): seq<ToneEvent> {
    if count % 2 == 1 then ColorSound(shape.colorName) else ShapeSound(shape.name)
  }

  /**
   * On every tile of the shapes game the taps alternate: the colour tone at
   * its listed pitch, then the shape's tune, and two taps in a row never
   * sound alike.
   */
  lemma TileSoundsAlternate(k: int, count: nat)
    requires 0 <= k < |Shapes|
    ensures count % 2 == 1 ==>
      TileSound(count, Shapes[k]) == [ToneEvent(0, ColorFreqs[Shapes[k].colorName], 400, Sine)]
    ensures count % 2 == 0 ==> TileSound(count, Shapes[k]) == ShapeSound(Shapes[k].name) != []
    ensures TileSound(count, Shapes[k]) != TileSound(count + 1, Shapes[k])
  {
    ShapeColorsListed();
    ShapeSoundKnown(Shapes[k].name);
    var colour := ColorSound(Shapes[k].colorName);
    var tune := ShapeSound(Shapes[k].name);
    if |tune| == 1 {
      assert tune[0].durationMs != colour[0].durationMs;
    }
  }

  /**
   * What a call sounds like from the moment it is dialled: the ring, then the
   * answering animal's call once the delay has passed.
   */
  function CallTimeline(animal: Animal): (r: seq<ToneEvent>)
    ensures WellFormed(r)
    ensures |r| == |RingTone()| + |AnimalSound(animal.name)| && r[..4] == RingTone()
    ensures forall i :: 4 <= i < |r| ==> r[i].offsetMs >= End(RingTone())
    ensures r[|RingTone()|..] == Shift(AnimalSound(animal.name), CallDelayMs)
  {
    var answer := AnimalSound(animal.name);
    PlayAfter(RingTone(), answer, CallDelayMs);
    assert (RingTone() + Shift(answer, CallDelayMs))[|RingTone()|..] == Shift(answer, CallDelayMs);
    RingTone() + Shift(answer, CallDelayMs)
  }

  /** Whoever the random pick chooses, the call is answered with a sound. */
  lemma CallAnswered(k: int)
    requires 0 <= k < |Animals|
    ensures |CallTimeline(Animals[k])| > |RingTone()|
  {
    AnimalSoundKnown(Animals[k].name);
  }

  class Screen {
    var currentGame: GameType
    var shapeClicks: map<int, nat>
    var showAnimalCall: bool
    var callingAnimal: Option<Animal>
    var phoneNumber: string
    /** The keys pressed since the number was last cleared. */
    ghost var dialled: seq<Key>

    ghost predicate Valid()
      reads this
    {
      && phoneNumber == Dial(dialled)
      && (callingAnimal.Some? ==> callingAnimal.value in Animals)
      && (forall i :: i in shapeClicks ==> shapeClicks[i] > 0)
    }

    /**
     * The incoming-call window is on screen only inside a game (the home menu
     * draws no window) and only while both call fields are set.
     */
    predicate CallShown()
      reads this
    {
      currentGame != Home && showAnimalCall && callingAnimal.Some?
    }

    constructor ()
      ensures Valid()
      ensures currentGame == Home && shapeClicks == map[]
      ensures !showAnimalCall && callingAnimal == None
      ensures phoneNumber == "" && dialled == []
    {
      currentGame := Home;
      shapeClicks := map[];
      showAnimalCall := false;
      callingAnimal := None;
      phoneNumber := "";
      dialled := [];
    }

    /** Tapping a game card on the home menu opens that game with a click. */
    method SelectGame(game: GameType) returns (tones: seq<ToneEvent>)
      requires Valid()
      modifies this
      ensures Valid()
      ensures currentGame == game && tones == ClickSound()
      ensures shapeClicks == old(shapeClicks) && phoneNumber == old(phoneNumber)
      ensures showAnimalCall == old(showAnimalCall) && callingAnimal == old(callingAnimal)
      ensures dialled == old(dialled)
    {
      tones := ClickSound();
      currentGame := game;
    }

    /** The home button returns to the menu with the falling signal, keeping all game state. */
    method GoHome() returns (tones: seq<ToneEvent>)
      requires Valid()
      modifies this
      ensures Valid()
      ensures currentGame == Home && tones == BackSound()
      ensures shapeClicks == old(shapeClicks) && phoneNumber == old(phoneNumber)
      ensures showAnimalCall == old(showAnimalCall) && callingAnimal == old(callingAnimal)
      ensures dialled == old(dialled)
    {
      tones := BackSound();
      currentGame := Home;
    }

    /** Tapping shape tile `index`: one more tap on it, then its colour or its tune by parity. */
    method HandleShapeClick(index: int, shape: Shape) returns (tones: seq<ToneEvent>)
      requires Valid()
      modifies this
      ensures Valid()
      ensures shapeClicks == Bump(old(shapeClicks), index)
      ensures tones == TileSound(ClickCount(shapeClicks, index), shape)
      ensures currentGame == old(currentGame) && phoneNumber == old(phoneNumber)
      ensures showAnimalCall == old(showAnimalCall) && callingAnimal == old(callingAnimal)
      ensures dialled == old(dialled)
    {
      var clickCount := ClickCount(shapeClicks, index);
      var newClickCount := clickCount + 1;
      shapeClicks := shapeClicks[index := newClickCount];
      if newClickCount % 2 == 1 {
        tones := ColorSound(shape.colorName);
      } else {
        tones := ShapeSound(shape.name);
      }
    }

    /** Pressing a keypad key: its tone, and its text appended to the number. */
    method AddDigit(key: Key) returns (tones: seq<ToneEvent>)
      requires Valid()
      modifies this
      ensures Valid()
      ensures phoneNumber == old(phoneNumber) + KeyText(key) && dialled == old(dialled) + [key]
      ensures tones == KeyTone(key)
      ensures currentGame == old(currentGame) && shapeClicks == old(shapeClicks)
      ensures showAnimalCall == old(showAnimalCall) && callingAnimal == old(callingAnimal)
    {
      tones := KeyTone(key);
      DialAppend(dialled, key);
      phoneNumber := phoneNumber + KeyText(key);
      dialled := dialled + [key];
    }

    /** The red button: a low beep, the call window closed and the number cleared. */
    method HangUp() returns (tones: seq<ToneEvent>)
      requires Valid()
      modifies this
      ensures Valid()
      ensures tones == HangUpBeep() && tones == [ToneEvent(0, 200.0, 100, Square)]
      ensures !showAnimalCall && callingAnimal == None && phoneNumber == "" && dialled == []
      ensures !CallShown()
      ensures currentGame == old(currentGame) && shapeClicks == old(shapeClicks)
    {
      tones := HangUpBeep();
      showAnimalCall := false;
      callingAnimal := None;
      phoneNumber := "";
      dialled := [];
    }

    /**
     * The green button: the ring, and the animal at index `pick` of the table
     * (the random draw) becomes the caller. The answering step is
     * ConnectCall, run CallDelayMs later with the animal returned here.
     */
    method MakeCall(pick: nat) returns (tones: seq<ToneEvent>, animal: Animal)
      requires Valid()
      requires pick < |Animals|
      modifies this
      ensures Valid()
      ensures animal == Animals[pick] && animal in Animals
      ensures callingAnimal == Some(animal) && tones == RingTone()
      ensures showAnimalCall == old(showAnimalCall)
      ensures currentGame == old(currentGame) && shapeClicks == old(shapeClicks)
      ensures phoneNumber == old(phoneNumber) && dialled == old(dialled)
    {
      tones := RingTone();
      animal := Animals[pick];
      callingAnimal := Some(animal);
    }

    /** The delayed step of a call: the window is raised and `animal`'s call plays. */
    method ConnectCall(animal: Animal) returns (tones: seq<ToneEvent>)
      requires Valid()
      modifies this
      ensures Valid()
      ensures showAnimalCall && tones == AnimalSound(animal.name)
      ensures CallShown() <==> currentGame != Home && callingAnimal.Some?
      ensures callingAnimal == old(callingAnimal)
      ensures currentGame == old(currentGame) && shapeClicks == old(shapeClicks)
      ensures phoneNumber == old(phoneNumber) && dialled == old(dialled)
    {
      showAnimalCall := true;
      tones := AnimalSound(animal.name);
    }
  }

  /**
   * An uninterrupted call: dialled, then answered after the delay. The window
   * shows the animal that was picked, and the whole call sounds as
   * CallTimeline says.
   */
  method Call(s: Screen, pick: nat) returns (heard: seq<ToneEvent>)
    requires s.Valid() && pick < |Animals|
    requires s.currentGame == PhoneGame
    modifies s
    ensures s.Valid() && s.CallShown() && s.callingAnimal == Some(Animals[pick])
    ensures heard == CallTimeline(Animals[pick])
  {
    var ring, animal := s.MakeCall(pick);
    var answer := s.ConnectCall(animal);
    heard := ring + Shift(answer, CallDelayMs);
  }

  /**
   * Hanging up while the phone still rings does not cancel the answering
   * step: the animal's call still plays afterwards and the window flag is
   * raised, though no window shows because there is no caller. Dialling again
   * then shows the new caller's window at once, during the ring.
   */
  method HangUpWhileRinging(s: Screen, first: nat, second: nat)
    returns (late: seq<ToneEvent>, ringAgain: seq<ToneEvent>)
    requires s.Valid() && first < |Animals| && second < |Animals|
    requires s.currentGame == PhoneGame
    modifies s
    ensures late == AnimalSound(Animals[first].name) && late != []
    ensures ringAgain == RingTone()
    ensures s.CallShown() && s.callingAnimal == Some(Animals[second])
  {
    var ring, animal := s.MakeCall(first);
    var beep := s.HangUp();
    late := s.ConnectCall(animal);
    assert s.showAnimalCall && !s.CallShown();
    AnimalSoundKnown(animal.name);
    var other;
    ringAgain, other := s.MakeCall(second);
  }

  /**
   * A call answered while the home menu is open shows no window there; the
   * window appears as soon as any game is opened again.
   */
  method AnsweredAtHome(s: Screen, pick: nat, game: GameType) returns (reopened: seq<ToneEvent>)
    requires s.Valid() && pick < |Animals|
    requires s.currentGame == PhoneGame && game != Home
    modifies s
    ensures s.CallShown() && s.currentGame == game && s.callingAnimal == Some(Animals[pick])
    ensures reopened == ClickSound()
  {
    var ring, animal := s.MakeCall(pick);
    var back := s.GoHome();
    var answer := s.ConnectCall(animal);
    assert s.showAnimalCall && !s.CallShown();
    reopened := s.SelectGame(game);
  }
}
