/**
 * The toy telephone's keypad: its twelve keys, what each key appends to the
 * number on the display, and the tone each key plays.
 */
module Keypad {
  import opened Tones
  import opened Wrappers

  type DigitValue = d: int | 0 <= d <= 9

  /** A key is a number 0..9 or one of the two symbol keys. */
  datatype Key = Digit(d: DigitValue) | Star | Hash

  /** The keys in the keypad's grid order, row by row. */
  const Keys: seq<Key> := [
    Digit(1), Digit(2), Digit(3), Digit(4), Digit(5), Digit(6),
    Digit(7), Digit(8), Digit(9), Star, Digit(0), Hash
  ]

  /** What pressing the key appends to the number: a digit's decimal text, or the symbol. */
  function KeyText(key: Key): string {
    match key
    case Digit(d) => [(48 + d) as char]
    case Star => "*"
    case Hash => "#"
  }

  /** The key whose text is this character, if any. */
  function KeyOf(c: char): (r: Option<Key>)
    ensures r.Some? ==> KeyText(r.value) == [c]
  {
    if '0' <= c <= '9' then Some(Digit(c as int - 48))
    else if c == '*' then Some(Star)
    else if c == '#' then Some(Hash)
    else None
  }

  /** The number shown after pressing `keys` in order on an empty display. */
  function Dial(keys: seq<Key>): (r: string)
    ensures |r| == |keys|
  {
    if keys == [] then "" else Dial(keys[..|keys| - 1]) + KeyText(keys[|keys| - 1])
  }

  /** Reads the keys back from a displayed number; None if a character is no key's text. */
  function ReadNumber(s: string): Option<seq<Key>> {
    if s == [] then Some([])
    else match (ReadNumber(s[..|s| - 1]), KeyOf(s[|s| - 1]))
      case (Some(keys), Some(key)) => Some(keys + [key])
      case _ => None
  }

  /** Each key's text is one character, and that character reads back as the key. */
  lemma KeyTextReads(key: Key)
    ensures |KeyText(key)| == 1 && KeyOf(KeyText(key)[0]) == Some(key)
  {
  }

  /** The display records exactly the keys pressed, in order: reading it back gives them. */
  lemma {:induction false} ReadDial(keys: seq<Key>)
    ensures ReadNumber(Dial(keys)) == Some(keys)
  {
    if keys != [] {
      var init, last := keys[..|keys| - 1], keys[|keys| - 1];
      ReadDial(init);
      KeyTextReads(last);
      var s := Dial(keys);
      assert s == Dial(init) + KeyText(last);
      assert s[..|s| - 1] == Dial(init);
      assert s[|s| - 1] == KeyText(last)[0];
      assert init + [last] == keys;
    }
  }

  /** Pressing the keys one after another extends the display one key at a time. */
  lemma DialAppend(keys: seq<Key>, key: Key)
    ensures Dial(keys + [key]) == Dial(keys) + KeyText(key)
  {
    assert (keys + [key])[..|keys|] == keys;
  }

  /**
   * The tone of a key. A digit sounds 400 Hz plus 50 Hz per unit; a symbol key
   * gives a frequency that is not a number, which the tone primitive rejects,
   * so it plays nothing.
   */
  function KeyTone(key: Key): (r: seq<ToneEvent>)
    ensures key.Digit? ==> r == [ToneEvent(0, 400.0 + (key.d as real) * 50.0, 100, Square)]
    ensures !key.Digit? ==> r == []
  {
    match key
    case Digit(d) => [ToneEvent(0, 400.0 + (d as real) * 50.0, 100, Square)]
    case Star => []
    case Hash => []
  }

  /**
   * A digit key plays one 100 ms square tone between 400 Hz and 850 Hz, each
   * digit at its own pitch; a symbol key plays nothing.
   */
  lemma KeyToneRange(key: Key, other: Key)
    ensures WellFormed(KeyTone(key))
    ensures key.Digit? ==>
      |KeyTone(key)| == 1 && KeyTone(key)[0].offsetMs == 0 && KeyTone(key)[0].durationMs == 100 &&
      KeyTone(key)[0].waveform == Square && 400.0 <= KeyTone(key)[0].frequency <= 850.0
    ensures !key.Digit? ==> KeyTone(key) == []
    ensures key.Digit? && KeyTone(key) == KeyTone(other) ==> key == other
  {
  }

  /** The keypad holds every digit and both symbols, twelve keys with no repeats. */
  lemma KeypadComplete(key: Key)
    ensures key in Keys
    ensures |Keys| == 12 && forall i, j :: 0 <= i < j < |Keys| ==> Keys[i] != Keys[j]
  {
    if key.Digit? {
      assert Keys[if key.d == 0 then 10 else key.d - 1] == key;
    }
  }
}
