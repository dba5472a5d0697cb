/**
 * The sound effects of the kids' games screen, each derived as a schedule of
 * tone events, and the content tables the effects are looked up in.
 */
module Sounds {
  import opened Tones

  datatype Animal = Animal(name: string)

  datatype Shape = Shape(name: string, colorName: string)

  /** The animals the screen shows and the telephone can call. */
  const Animals: seq<Animal> := [
    Animal("Корова"), Animal("Собака"), Animal("Кот"),
    Animal("Утка"), Animal("Лев"), Animal("Овца")
  ]

  /** The shape tiles, each with the name of its colour. */
  const Shapes: seq<Shape> := [
    Shape("Круг", "Красный"), Shape("Квадрат", "Синий"),
    Shape("Треугольник", "Зелёный"), Shape("Звезда", "Жёлтый"),
    Shape("Сердце", "Фиолетовый"), Shape("Ромб", "Оранжевый")
  ]

  /** The number tiles. */
  const Numbers: seq<int> := [1, 2, 3, 4, 5, 6, 7, 8, 9]

  /** The colour-name to frequency table (Hz). */
  const ColorFreqs: map<string, real> := map[
    "Красный" := 261.63, "Синий" := 293.66, "Зелёный" := 329.63,
    "Жёлтый" := 349.23, "Фиолетовый" := 392.00, "Оранжевый" := 440.00
  ]

  /** Frequency of a colour tone when the name is not in the table. */
  const FallbackFrequency: real := 300.0

  /** Tapping a game card. */
  function ClickSound(): (r: seq<ToneEvent>)
    ensures WellFormed(r) && |r| == 1 && r[0].durationMs == 100
  {
    [ToneEvent(0, 440.0, 100, Sine)]
  }

  /** Pressing the home button: a falling two-tone signal. */
  function BackSound(): (r: seq<ToneEvent>)
    ensures WellFormed(r) && |r| == 2
    ensures r[1].frequency < r[0].frequency
    ensures r[1].offsetMs < r[0].offsetMs + r[0].durationMs
  {
    [ToneEvent(0, 330.0, 150, Sine), ToneEvent(100, 220.0, 100, Sine)]
  }

  /** The telephone ringing. */
  function RingTone(): (r: seq<ToneEvent>)
    ensures |r| == 4 && WellFormed(r)
    ensures forall i :: 0 <= i < 4 ==>
      r[i] == ToneEvent(400 * i, if i % 2 == 0 then 800.0 else 600.0, 300, Sine)
    ensures End(r) == 1500
  {
    [ToneEvent(0, 800.0, 300, Sine), ToneEvent(400, 600.0, 300, Sine),
     ToneEvent(800, 800.0, 300, Sine), ToneEvent(1200, 600.0, 300, Sine)]
  }

  /** Hanging up the telephone. */
  function HangUpBeep(): (r: seq<ToneEvent>)
    ensures WellFormed(r) && |r| == 1 && r[0].offsetMs == 0
  {
    [ToneEvent(0, 200.0, 100, Square)]
  }

  /** The call of the animal with this name; a name not in the switch plays nothing. */
  function AnimalSound(name: string): (r: seq<ToneEvent>)
    ensures WellFormed(r)
  {
    match name
    case "Корова" =>
      [ToneEvent(0, 200.0, 500, Sawtooth), ToneEvent(200, 150.0, 300, Sawtooth)]
    case "Собака" =>
      [ToneEvent(0, 300.0, 100, Square), ToneEvent(150, 250.0, 100, Square)]
    case "Кот" =>
      [ToneEvent(0, 400.0, 200, Sine), ToneEvent(100, 450.0, 150, Sine)]
    case "Утка" =>
      [ToneEvent(0, 350.0, 150, Square), ToneEvent(200, 300.0, 150, Square),
       ToneEvent(400, 350.0, 150, Square)]
    case "Лев" =>
      [ToneEvent(0, 150.0, 800, Sawtooth)]
    case "Овца" =>
      [ToneEvent(0, 250.0, 400, Sine), ToneEvent(300, 300.0, 200, Sine)]
    case _ => []
  }

  /** The tile for number `n`: a tone rising from 220 Hz in 50 Hz steps, then its major third. */
  function NumberSound(n: int): (r: seq<ToneEvent>)
    ensures |r| == 2 && r[0] == ToneEvent(0, 220.0 + (n as real) * 50.0, 300, Sine)
    ensures r[1].offsetMs == 150 && r[1].durationMs == 200 && r[1].waveform == Sine
    ensures r[1].frequency == r[0].frequency * 5.0 / 4.0
    ensures r[1].offsetMs < r[0].durationMs
    ensures r[0].frequency > 0.0 <==> n > -5
  {
    var freq := 220.0 + (n as real) * 50.0;
    [ToneEvent(0, freq, 300, Sine), ToneEvent(150, freq * 1.25, 200, Sine)]
  }

  /**
   * The frequency looked up for a colour name. The lookup falls back on a
   * missing entry and also on an entry whose value is zero (a falsy number).
   */
  function ColorFrequency(color: string): real {
    if color in ColorFreqs && ColorFreqs[color] != 0.0 then ColorFreqs[color] else FallbackFrequency
  }

  /** The colour tone of a shape tile. */
  function ColorSound(color: string): (r: seq<ToneEvent>)
    ensures WellFormed(r) && |r| == 1
    ensures r[0].offsetMs == 0 && r[0].durationMs == 400 && r[0].waveform == Sine
    ensures color in ColorFreqs ==> r[0].frequency == ColorFreqs[color]
    ensures color !in ColorFreqs ==> r[0].frequency == FallbackFrequency
  {
    [ToneEvent(0, ColorFrequency(color), 400, Sine)]
  }

  /** The star's run: five short tones, each 100 ms later and 50 Hz higher. */
  function StarTones(): seq<ToneEvent> {
    seq(5, i requires 0 <= i < 5 => ToneEvent(100 * i, 500.0 + (i as real) * 50.0, 100, Sine))
  }

  /** The tune of the shape with this name; a name not in the switch plays nothing. */
  function ShapeSound(name: string): (r: seq<ToneEvent>)
    ensures WellFormed(r)
  {
    match name
    case "Круг" =>
      [ToneEvent(0, 400.0, 300, Sine)]
    case "Квадрат" =>
      [ToneEvent(0, 300.0, 200, Square), ToneEvent(250, 300.0, 200, Square)]
    case "Треугольник" =>
      [ToneEvent(0, 350.0, 150, Sine), ToneEvent(200, 400.0, 150, Sine),
       ToneEvent(400, 450.0, 150, Sine)]
    case "Звезда" =>
      StarPattern();
      StarTones()
    case "Сердце" =>
      [ToneEvent(0, 450.0, 200, Sine), ToneEvent(100, 550.0, 200, Sine)]
    case "Ромб" =>
      [ToneEvent(0, 380.0, 150, Sine), ToneEvent(200, 420.0, 150, Sine),
       ToneEvent(400, 380.0, 150, Sine)]
    case _ => []
  }

  /**
   * The star's loop as the screen runs it: one timer per iteration, the i-th
   * firing after 100·i ms.
   */
  method ScheduleStar() returns (tones: seq<ToneEvent>)
    ensures tones == StarTones()
  {
    tones := [];
    for i := 0 to 5
      invariant tones == StarTones()[..i]
    {
      tones := tones + [ToneEvent(100 * i, 500.0 + (i as real) * 50.0, 100, Sine)];
    }
  }

  /** The star's run climbs strictly in time and pitch, from 500 Hz to 700 Hz, and lasts 500 ms. */
  lemma StarPattern()
    ensures WellFormed(StarTones()) && |StarTones()| == 5
    ensures forall i, j :: 0 <= i < j < 5 ==>
      StarTones()[i].offsetMs < StarTones()[j].offsetMs &&
      StarTones()[i].frequency < StarTones()[j].frequency
    ensures StarTones()[0].frequency == 500.0 && StarTones()[4].frequency == 700.0
    ensures forall i :: 0 <= i < 5 ==> StarTones()[i].durationMs == 100
    ensures End(StarTones()) == 500
  {
    var s := StarTones();
    assert s[4].offsetMs + s[4].durationMs == 500;
  }

  /** An animal name plays a call exactly when it is one of the table's animals. */
  lemma AnimalSoundKnown(name: string)
    ensures AnimalSound(name) != [] <==> exists k :: 0 <= k < |Animals| && Animals[k].name == name
  {
    if AnimalSound(name) != [] {
      var k := if name == "Корова" then 0 else if name == "Собака" then 1
        else if name == "Кот" then 2 else if name == "Утка" then 3
        else if name == "Лев" then 4 else 5;
      assert Animals[k].name == name;
    }
  }

  /** A shape name plays a tune exactly when it is one of the shape tiles' names. */
  lemma ShapeSoundKnown(name: string)
    ensures ShapeSound(name) != [] <==> exists k :: 0 <= k < |Shapes| && Shapes[k].name == name
  {
    if ShapeSound(name) != [] {
      var k := if name == "Круг" then 0 else if name == "Квадрат" then 1
        else if name == "Треугольник" then 2 else if name == "Звезда" then 3
        else if name == "Сердце" then 4 else 5;
      assert Shapes[k].name == name;
    }
  }

  /**
   * A colour name in the table sounds at its listed frequency; any other name
   * sounds at the fallback, and no listed colour shares the fallback's pitch.
   */
  lemma ColorFallback(color: string)
    ensures color in ColorFreqs ==> ColorFrequency(color) == ColorFreqs[color]
    ensures color !in ColorFreqs ==> ColorFrequency(color) == FallbackFrequency
    ensures ColorFrequency(color) == FallbackFrequency <==> color !in ColorFreqs
  {
  }

  /** Every shape tile's colour is in the colour table, so no tile falls back. */
  lemma ShapeColorsListed()
    ensures forall k :: 0 <= k < |Shapes| ==> Shapes[k].colorName in ColorFreqs
    ensures forall k :: 0 <= k < |Shapes| ==> ColorFrequency(Shapes[k].colorName) != FallbackFrequency
  {
  }

  /**
   * The number tiles sound between 270 Hz and 670 Hz, and distinct tiles at
   * distinct pitches.
   */
  lemma NumberSoundsOfTiles(a: int, b: int)
    requires a in Numbers && b in Numbers
    ensures WellFormed(NumberSound(a))
    ensures 270.0 <= NumberSound(a)[0].frequency <= 670.0
    ensures a != b ==> NumberSound(a)[0].frequency != NumberSound(b)[0].frequency
  {
  }
}
