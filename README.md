# Kids' games screen: sound schedules and screen state

This project models the one screen of a small kids' games app (`src/pages/Index.tsx`):
a home menu with four games (talking animals, shapes and colours, numbers, a toy
telephone). It models two things, and proves properties of both:

- **The sound effects.** Each effect is a fixed, finite schedule of tones. A tone is
  `ToneEvent(offsetMs, frequency, durationMs, waveform)`. A direct call of the tone
  primitive becomes an event at offset 0. A call wrapped in a timer becomes an event
  at the timer's delay. Frequencies are exact rationals (`real`), so 261.63 Hz and the
  ×1.25 step are exact. Every effect the screen can play is proved *well-formed*:
  every tone has a positive frequency and duration, and offsets never decrease.
- **The screen state.** The component's five state variables (`currentGame`,
  `shapeClicks`, `showAnimalCall`, `callingAnimal`, `phoneNumber`) are the fields of
  the class `Screen`. Each event handler is a method that updates them and returns the
  tones it requests. The ghost field `dialled` records the keys pressed since the
  number was last cleared. The class invariant ties the displayed number to those keys.

Files:

- `tones.dfy` (module `Tones`): tone events, the well-formedness invariant, `Shift`
  (a timer around a schedule) and `End` (when a schedule falls silent).
- `sounds.dfy` (module `Sounds`): the content tables (animals, shapes with colour
  names, numbers, colour frequencies) and every effect schedule. The star's timer loop
  is the method `ScheduleStar`, proved equal to the schedule `StarTones`.
- `keypad.dfy` (module `Keypad`): the twelve telephone keys, the text each key
  appends, the tone each key plays, and a reader that recovers the keys from the
  displayed number.
- `screen.dfy` (module `IndexScreen`): tile counters, the call timeline, the class
  `Screen` with its handlers, and two call scenarios.
- `wrappers.dfy` (module `Wrappers`): `Option`, used for the nullable caller.

Tapping an animal tile plays `AnimalSound(name)` and tapping a number tile plays
`NumberSound(n)`. Neither changes state, so they appear only as those functions.

The incoming-call scenario `HangUpWhileRinging` shows a consequence of the code:
hanging up does not cancel the answering timer. The animal's call still plays after
the hang-up, and `showAnimalCall` becomes true with no caller set. The next call
therefore shows its window at once, while the phone is still ringing.

## Model

| member | source | states |
|---|---|---|
| `Tones.Shift` | src/pages/Index.tsx:78-81 | a timer of `delayMs` around a schedule delays every tone by exactly that much and changes nothing else |
| `Tones.End` | src/pages/Index.tsx:108-112 | the end of a schedule is the latest moment any of its tones stops, and 0 when there is none |
| `Tones.ShiftWellFormed` | src/pages/Index.tsx:78-81 | delaying a well-formed schedule keeps it well-formed and moves its end by the delay |
| `Tones.PlayAfter` | src/pages/Index.tsx:78-81 | a schedule delayed until another has ended follows it: the two together stay well-formed and every delayed tone starts after the first schedule is over |
| `Tones.AppendWellFormed` | src/pages/Index.tsx:74-81 | appending a schedule whose tones all start no earlier than the first one's keeps it well-formed |
| `Sounds.ClickSound` | src/pages/Index.tsx:58-60 | the card tap is one well-formed 100 ms tone |
| `Sounds.BackSound` | src/pages/Index.tsx:62-65 | the back signal is two tones falling in pitch, the second starting before the first ends |
| `Sounds.RingTone` | src/pages/Index.tsx:67-72 | the ring is four 300 ms sine tones at 0/400/800/1200 ms alternating 800/600 Hz, over after 1500 ms |
| `Sounds.HangUpBeep` | src/pages/Index.tsx:85 | the hang-up beep is one well-formed tone starting at once |
| `Sounds.AnimalSound` | src/pages/Index.tsx:118-145 | every animal's call, and the silence for an unknown name, is well-formed |
| `Sounds.AnimalSoundKnown` | src/pages/Index.tsx:118-145 | a name plays a call exactly when it is the name of an animal in the table |
| `Sounds.NumberSound` | src/pages/Index.tsx:147-152 | number n plays a 300 ms sine tone at 220 + 50·n Hz at once, then a 200 ms sine tone at 5/4 that pitch at 150 ms, while the first still sounds; the first is audible exactly for n > -5 |
| `Sounds.NumberSoundsOfTiles` | src/pages/Index.tsx:147-151 | each number tile 1..9 plays a well-formed schedule starting between 270 and 670 Hz, and distinct tiles start at distinct pitches |
| `Sounds.ColorSound` | src/pages/Index.tsx:154-165 | a colour plays one 400 ms sine tone at once: at the table frequency for a listed name, at 300 Hz for any other name |
| `Sounds.ColorFallback` | src/pages/Index.tsx:163 | a listed colour sounds at its table frequency, any other name at 300 Hz, and 300 Hz means the name was not listed |
| `Sounds.ShapeColorsListed` | src/pages/Index.tsx:30-37 | every shape tile's colour is in the frequency table, so a tile never falls back |
| `Sounds.ShapeSound` | src/pages/Index.tsx:167-196 | every shape's tune, and the silence for an unknown name, is well-formed |
| `Sounds.ShapeSoundKnown` | src/pages/Index.tsx:167-196 | a name plays a tune exactly when it is the name of a shape tile |
| `Sounds.ScheduleStar` | src/pages/Index.tsx:182-184 | the star's timer loop schedules exactly the star's five tones |
| `Sounds.StarPattern` | src/pages/Index.tsx:181-185 | the star's five 100 ms tones rise strictly in start time and pitch from 500 to 700 Hz and end at 500 ms |
| `Keypad.Dial` | src/pages/Index.tsx:93 | the displayed number has one character per key pressed |
| `Keypad.KeyTextReads` | src/pages/Index.tsx:93 | every key appends one character, and that character reads back as the key |
| `Keypad.ReadDial` | src/pages/Index.tsx:93 | reading the displayed number back gives exactly the keys pressed, in order |
| `Keypad.DialAppend` | src/pages/Index.tsx:93 | pressing one more key appends its text and removes nothing |
| `Keypad.KeyTone` | src/pages/Index.tsx:92 | digit d plays one 100 ms square tone at 400 + 50·d Hz at once; `*` and `#` play nothing |
| `Keypad.KeyToneRange` | src/pages/Index.tsx:92 | a digit plays one immediate 100 ms square tone between 400 and 850 Hz, distinct digits at distinct pitches; `*` and `#` play nothing |
| `Keypad.KeypadComplete` | src/pages/Index.tsx:376 | the keypad has twelve distinct keys: every digit, `*` and `#` |
| `IndexScreen.Bump` | src/pages/Index.tsx:202 | a tap raises that tile's count by one, a missing count counting as 0, and leaves every other tile's count alone |
| `IndexScreen.TapsCount` | src/pages/Index.tsx:198-202 | after any series of taps, each tile's count has grown by the number of times it was tapped |
| `IndexScreen.TileSoundsAlternate` | src/pages/Index.tsx:204-208 | on a shape tile an odd tap plays the colour at its table pitch, an even tap the shape's tune, and consecutive taps never sound alike |
| `IndexScreen.CallTimeline` | src/pages/Index.tsx:74-81 | a call sounds as the ring first and then exactly the animal's call delayed by 1500 ms, which starts after the ring has ended; the whole is well-formed |
| `IndexScreen.CallAnswered` | src/pages/Index.tsx:76-80 | whichever animal the random pick chooses, its call adds at least one tone after the ring |
| `IndexScreen.Screen.constructor` | src/pages/Index.tsx:52-56 | the screen opens on the home menu with no taps, no call and an empty number |
| `IndexScreen.Screen.SelectGame` | src/pages/Index.tsx:220-223 | a game card opens its game with the click, and changes nothing else |
| `IndexScreen.Screen.GoHome` | src/pages/Index.tsx:284-287 | the home button always returns to the menu with the back signal, and keeps all game state |
| `IndexScreen.Screen.HandleShapeClick` | src/pages/Index.tsx:198-209 | a tile tap bumps that tile's count and plays the colour on an odd count and the shape's tune on an even one; nothing else changes |
| `IndexScreen.Screen.AddDigit` | src/pages/Index.tsx:91-94 | a key press plays the key's tone and makes the number the old one followed by exactly that key's text |
| `IndexScreen.Screen.HangUp` | src/pages/Index.tsx:84-89 | hanging up, whatever the state, plays one 200 Hz 100 ms square beep, clears the number and the caller and closes the call window |
| `IndexScreen.Screen.MakeCall` | src/pages/Index.tsx:74-77 | dialling rings and makes the picked table animal the caller, leaving the window flag as it was |
| `IndexScreen.Screen.ConnectCall` | src/pages/Index.tsx:78-81 | the delayed step raises the window flag and plays the call of the animal picked when dialling |
| `IndexScreen.Call` | src/pages/Index.tsx:74-81 | an uninterrupted call from the telephone screen shows the picked animal's window and sounds exactly as the call timeline |
| `IndexScreen.HangUpWhileRinging` | src/pages/Index.tsx:74-89 | on the telephone screen, a hang-up during the ring does not stop the animal's call; a second call then shows its window at once, during the ring |
| `IndexScreen.AnsweredAtHome` | src/pages/Index.tsx:233-287 | a call answered while the home menu is open shows no window there; the window appears as soon as a game is opened again |

## Left out

- Tone synthesis: the oscillator, the gain ramp from 0.3 to 0.01 and the audio context are a platform API with floating-point timing. A tone is only its event. A failure to play is swallowed by the source, so playing has no error outcome here.
- Real time: timers become offsets in the schedule. The screen's timer callbacks are not a clock or concurrency; the one callback with state, the answering step of a call, is the separate method `ConnectCall`.
- `Math.random` in the call: the picked animal is the parameter `pick`, an index into the table.
- `KeyTone`: for `*` and `#` the source computes a frequency that is not a number. Setting an oscillator to a non-finite frequency throws, and the source's catch swallows it, so these keys play no tone here. They are still appended to the number.
- `ColorFallback`: names inherited from JavaScript's object prototype (such as `toString`) are looked up as non-numbers by the source and then play nothing; the model treats them as unknown names that fall back to 300 Hz. No caller passes such a name.
- `Screen.HandleShapeClick`: the count is read from the state of the last render, so two taps handled before a re-render would both see the same old count. The model handles taps one at a time.
- Rendering: cards, buttons, icons, emoji, CSS classes, the titles and the display-only strings (an animal's written sound, a tile's emoji) are not behaviour. Whether the call window is drawn is the predicate `CallShown`: only inside a game, since the home menu draws no window, and only while both call fields are set.
- Drawing canvas and bubble game: they are not part of this screen's code, so they are not part of this model.
