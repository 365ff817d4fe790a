# Guitar — a Dafny model of the string rig

This project models the core of a browser toy guitar (`src/guitar.js`). It has
three parts:

- **NoteConverter** (`note_converter.dfy`) models how a note name such as
  `"E2"` is raised by one half step or by a fret count. The half-step table is
  modelled character for character, including JavaScript's behaviour when an
  index runs past the end of the string. It is proved to agree with a
  structured reference: a `Note` with a letter, an accidental and an octave, and its
  pitch in half steps.
- **StringSim** (`guitar_string.dfy`) models one string's state machine. A
  string is Resting, Plucking (held by the mouse) or Waving (ringing). A frame
  update can grab, hold, pluck, damp and shift the string. A pluck emits a
  note-off and a note-on sound event and arms a rest timer. When that timer
  fires, the string returns to rest.
- **Guitar** (`guitar.dfy`) models the rig: six strings in standard tuning
  (E2 A2 D3 G3 B3 E4), the current fret, key routing and the per-frame update
  of every string. Key-down on the number row sets the fret. Key-up on the
  number row schedules a fret reset. Key-up on numpad 4–6 or on the left, down
  and right arrow keys plucks a string.
- **Common** (`common.dfy`) holds the shared `Option` type and `Iterate`, the
  repeated application of a function.

Side effects become data:

- Sounds are returned as a list of `Sound` events.
- Timers are explicit:
  - each string carries its pending rest timer, with an id and a delay;
  - the rig counts pending fret resets;
  - `FireTimer`, `FireRestTimer` and `FireFretReset` are what the clock does
    when a timer expires.
- The current fret, a module-level variable in src/guitar.js, is a field of
  `Rig`. Each string's update receives it as a parameter.

## Model

| member | source | states |
|---|---|---|
| NoteConverter.StepUp | src/guitar.js:60-121 | The structured half step: the pitch rises by exactly one and the result is canonical (no flats, no B#). |
| NoteConverter.HalfStepUpName | src/guitar.js:60-121 | For every name with a single-digit octave, the text table agrees with the structured half step: `HalfStepUp(Name(n)) == Name(StepUp(n))`. So the text step raises the pitch by exactly one half step, and B→C moves to the next octave. |
| NoteConverter.HalfStepUp | src/guitar.js:60-121 | `getNoteHalfStepUp` on text: the result is the empty string exactly when the input is empty or does not start with A–G (the switch has no default). Otherwise the result starts with a note letter again. |
| NoteConverter.HalfStepUpNoFlat | src/guitar.js:95-102 | For a well-formed name (single-digit octave) the table never produces a flat; malformed text such as "Abb" can still step to "Ab" (lines 66-67). A natural E is raised to E# in the same octave, not to F. |
| NoteConverter.SuccDigit | src/guitar.js:71-78 | `Number(d) + 1` written back as text is the next octave number, so B9 moves to octave 10. |
| NoteConverter.DecimalDigits | src/guitar.js:71-78 | An octave number is written with decimal digits only. |
| NoteConverter.PitchedUpBy | src/guitar.js:123-129 | `getPitchedUpBy` on text: zero steps return the note unchanged. After one or more steps, the result is empty exactly when the note does not start with A–G, and otherwise starts with a note letter. |
| NoteConverter.PitchedUpByAdds | src/guitar.js:123-129 | Raising by zero half steps is the identity. Raising by a and then by b is raising by a+b. |
| NoteConverter.PitchUp | src/guitar.js:123-129 | The loop of `getPitchedUpBy` computes the k-fold half step. |
| NoteConverter.StepsUp | src/guitar.js:123-129 | k structured half steps raise the pitch by k. After at least one step the note is canonical. |
| NoteConverter.PitchedUpByName | src/guitar.js:123-129 | For single-digit octaves up to pitch 120, raising a name by k gives the name of the note k half steps higher. |
| NoteConverter.CanonicalOctave | src/guitar.js:60-121 | For a canonical note (no flat, no B#) the octave is the pitch divided by 12. So among canonical notes the octave changes only at B→C. The table's other octave change, B#→C# (line 73), starts from B#, which is not canonical. |
| NoteConverter.StepsUpFromCycle | src/guitar.js:123-129 | From a note of the twelve-note cycle, k steps reach the cycle note with pitch +k. |
| NoteConverter.TwelveStepPeriodic | src/guitar.js:123-129 | From a cycle note, 12 more half steps give the same note one octave higher. |
| NoteConverter.TwelveStepPeriodicAfterTwo | src/guitar.js:123-129 | From any note, after at least two steps, 12 more steps give the same note one octave up. |
| NoteConverter.FNaturalNotPeriodic | src/guitar.js:95-110 | F natural is the exception: twelve steps up from F in octave o give E# in octave o+1, not F. |
| NoteConverter.FlatAndBSharpNotPeriodic | src/guitar.js:71-83 | Flats and B# are not 12-periodic either: twelve steps from C flat in octave o reach B in octave o, and from B# in octave o reach C in octave o+2. |
| NoteConverter.TwelveStepPeriodicName | src/guitar.js:123-129 | The octave periodicity holds for the text names as well. |
| NoteConverter.FNaturalNotPeriodicName | src/guitar.js:95-110 | In text, "F"+o raised by 12 is "E#"+(o+1). |
| NoteConverter.PitchedUpByFromE2 | src/guitar.js:123-129 | E2 raised by 5 is A2, and E2 raised by 1 is E#2. |
| NoteConverter.PitchedUpByFromG3 | src/guitar.js:123-129 | G3 raised by 4 is B3, and B3 raised by 1 is C4. |
| StringSim.NewString | src/guitar.js:133-151 | A new string keeps the given ends, width and open note. It rests, with zero amplitude, phase and shift speed, no timer and no previous note. With a non-negative width it is valid. |
| StringSim.Grab | src/guitar.js:154-156 | The string enters Plucking exactly when the mouse is down within 5.1 px of its rest line (or it was already plucking). Nothing else changes. |
| StringSim.Pluck | src/guitar.js:187-206 | A pluck makes the string wave from phase 0. The amplitude is distance·width mapped from [0,30] to [0,10], and the shift speed is 7·distance/30. The pluck emits a note-off of the previous note, then the open note raised by the fret for distance/10 seconds. That note is remembered. The old timer is replaced by a fresh one of distance·100 ms. |
| StringSim.Wave | src/guitar.js:176-184 | A waving frame damps the amplitude by 1.5%. The amplitude stays non-negative and strictly decreases while positive. The phase moves by the shift speed when the sum is at most 80, so a phase of exactly 80 is kept. The phase resets to 0 when the sum exceeds 80. With a non-negative speed the phase stays within [0, 80]. Nothing else changes. |
| StringSim.FireTimer | src/guitar.js:203-205 | After a timer fires, the string rests if and only if it was resting already or the timer was its pending one. A timer that is not the pending one (cleared by a later pluck) changes nothing, however long the string has been waving. Only the phase and the pending timer can change, and the string's invariant is kept. |
| StringSim.RestingGrabbedIff | src/guitar.js:152-175 | A resting string leaves rest in a frame if and only if it is grabbed. Otherwise the frame changes nothing and makes no sound. |
| StringSim.PluckingFrame | src/guitar.js:160-175 | A held string follows the mouse and mutes its previous note. If the mouse is released or pulled more than 30 px away, it plucks: it waves from phase 0 with amplitude distance·width/3 and shift speed 7·distance/30, arms a timer under the next timer id, emits note-off twice then note-on, and remembers the plucked note. Otherwise it keeps plucking with no timer, the same timer-id counter, the same previous note and the same wave values, so the next frame mutes that note again. |
| StringSim.WavingFrame | src/guitar.js:176-184 | An ungrabbed waving string is only damped and shifted, and it makes no sound. |
| StringSim.StaleTimerHarmless | src/guitar.js:201-205 | After a pluck, every earlier timer id is inert. The string keeps waving. |
| StringSim.OwnTimerRests | src/guitar.js:205 | The timer armed by a pluck returns the string to rest. |
| StringSim.RepluckCancelsFirstTimer | src/guitar.js:203-205 | When a string is plucked twice, the first pluck's timer no longer affects it. |
| StringSim.PluckValid | src/guitar.js:187-206 | Plucking at a non-negative distance keeps the string's invariant: non-negative amplitude and shift speed, phase within [0, 80], and a timer pending exactly while waving. |
| StringSim.Update | src/guitar.js:152-186 | `update`: a frame keeps the string's invariant and never changes the string's position, width or open note. The timer-id counter never goes back, so a timer cancelled before the frame stays cancelled. |
| StringSim.WavingDecays | src/guitar.js:176-184 | Over any number of undisturbed frames the amplitude never grows, and it strictly falls if it was positive. The invariant is kept. |
| Guitar.TuningNote | src/guitar.js:241-246 | Each open-string name is the name of a note with a single-digit octave in the twelve-note cycle. |
| Guitar.Layout | src/guitar.js:232-237 | String i runs horizontally from x = 0 to x = 600 at y = 100 + 40·i. Its width is 2/3·(6 − i). It is tuned to its open note and starts resting and valid, with zero amplitude, phase and shift speed, no pending timer and no previous note, so its first pluck releases no note. |
| Guitar.NewRig | src/guitar.js:228-247 | A new rig has six laid-out strings, fret 0 and no pending reset. |
| Guitar.GetStringCount | src/guitar.js:351-353 | A valid rig has six strings. |
| Guitar.FretForKey | src/guitar.js:310-347 | Exactly the twelve number-row keys select a fret: 1–9, 0→10, -→11, =→12. |
| Guitar.KeyDown | src/guitar.js:306-349 | A number-row key-down sets the fret and nothing else. Every other key-down changes nothing. The fret stays within 0..12. |
| Guitar.PluckString | src/guitar.js:253-301 | A key pluck plucks only string i, at the maximum distance and with the current fret, when the string exists. Otherwise it does nothing. The rig stays valid. |
| Guitar.FireFretReset | src/guitar.js:284 | A due fret reset sets the fret to 0 and consumes one pending reset. No reset arrives unless one was scheduled. The strings are untouched, and the rig stays valid. |
| Guitar.FireRestTimer | src/guitar.js:205 | A rest timer affects only its own string. The fret and the pending resets are unchanged, and the rig stays valid. |
| Guitar.UpdateStrings | src/guitar.js:354-357 | One frame updates every string with the current fret, in index order. The frame's sounds are the strings' sounds in that order, and the fret is unchanged. |
| Guitar.FrameKeepsRigValid | src/guitar.js:354-357 | A frame keeps the rig valid. |
| Guitar.PointerOverOneString | src/guitar.js:154 | The mouse can be over at most one string at a time, since the 5.1 px grab zone is narrower than half the 40 px spacing. |
| Guitar.LayoutWidths | src/guitar.js:232-237 | Lower strings (smaller index) are thicker and drawn higher on the screen. |
| Guitar.TuningIntervals | src/guitar.js:239-246 | Standard tuning: each string is the one below raised by 5 half steps, except G→B, which is 4. |
| Guitar.KeyDownFretRange | src/guitar.js:306-349 | Key-down keeps the rig valid. A numpad key-down changes nothing. |
| Guitar.KeyUp | src/guitar.js:250-304 | The key-up listener never changes the fret itself, and it keeps the rig valid. |
| Guitar.KeyUpPlucks | src/guitar.js:250-302 | The six routes: numpad 4/5/6 pluck strings 3/4/5. Arrow left/down/right pluck strings 0/1/2 when the key code is neither numpad nor number row. |
| Guitar.KeyUpSchedulesReset | src/guitar.js:269-286 | A number-row key-up schedules exactly one fret reset and changes nothing else. |
| Guitar.KeyUpOtherwiseInert | src/guitar.js:250-302 | Every other key-up changes nothing and makes no sound. |
| Guitar.FretResetNotCancelled | src/guitar.js:284 | No key-down cancels a scheduled reset. When the reset fires after a new fret key is pressed, the fret is 0. |
| Guitar.PluckStringPitch | src/guitar.js:194-199 | A key pluck of string i sounds the open note raised by exactly the current fret, for 3 seconds. |
| Guitar.FretFiveOnLowE | src/guitar.js:297-299 | With fret 5 held, the left arrow plays A2 for 3 seconds. |

## Quirks of the code kept by the model

- **E→E#.** Natural E steps to `E#` in the same octave (`src/guitar.js:101`),
  where F would be the usual name. The pitch is still one half step up. The
  same goes for pitched-up notes: E2 raised by one is E#2.
- **F is not 12-periodic.** Within the table's cycle, the pitch of F appears
  only as E#, and E# steps to F# (`src/guitar.js:97`). F natural itself is
  produced only from Fb (`src/guitar.js:107`). So after 12 half steps, F becomes
  E# of the next octave (`NoteConverter.FNaturalNotPeriodic`). Among canonical
  names (no flat, no B#) F is the only such exception
  (`NoteConverter.TwelveStepPeriodic`). Flats and B# are not periodic either: Cb4
  raised by 12 is B4, and B#3 raised by 12 is C5
  (`NoteConverter.FlatAndBSharpNotPeriodic`). From any start note, the name
  repeats one octave higher once two steps have been taken
  (`NoteConverter.TwelveStepPeriodicAfterTwo`).
- **Wave phase range.** The phase wraps to 0 only when it is strictly greater
  than 80 (`src/guitar.js:182`). So the phase range is [0, 80] inclusive.
- **Fret reset clobber.** The fret reset scheduled by a number-row key-up
  cannot be cancelled by a later key-down (`src/guitar.js:284`). A fret key
  pressed within the 75 ms window is overwritten to 0
  (`Guitar.FretResetNotCancelled`).
- **No distance clamp.** The pluck distance is not clamped. When it is over
  30 px, the note lasts longer than 3 s, the wave lasts longer than 3000 ms and
  the shift speed exceeds 7. The amplitude is distance·width/3
  (`src/guitar.js:190`), so it is above 10 on strings 0–4 even at 30 px, the
  distance of every key pluck: 40, 33.3, 26.7, 20 and 13.3. On string 5 (width
  2/3) it stays at or below 10 up to a 45 px pull.

## Left out

- Audio: the Tone.js synthesizers, instrument selection, volume
  (`volumeToDB`) and `localStorage` are not modelled. Sounds are emitted as
  `NoteOff`/`NoteOn` events; `Tone.now()` and the attack time are left out.
- Drawing: `draw`, `CtxUtil` and `WAVE_END_THETA` are left out. They do not
  change state.
- `CrlLib.map_range` is not part of this model. `StringSim.MapRange` assumes
  the usual linear interpolation.
- Real time: `setTimeout` is modelled as a pending timer plus an explicit
  firing. The order in which timers fire relative to frames is left to the
  caller. The 75 ms coyote time is not carried, and only the count of pending
  fret resets is kept.
- Numbers: JavaScript doubles are modelled as exact reals, so rounding in the
  damping and the distance mapping is not modelled.
- Strings: JavaScript strings index UTF-16 code units, while the model indexes
  Unicode scalar values. They differ only for characters outside the Basic
  Multilingual Plane.
- DOM wiring: listener registration, `init` and the animation loop are left
  out. A key event is modelled as its `keyCode` and `key`.
- NoteConverter.HalfStepUpName: stated only for octaves 0–9. For a two-digit
  octave, the table reads the first digit only; `HalfStepUp` models that text
  behaviour, but no structured property is claimed for it.
- NoteConverter.PitchedUpByName: stated only while the pitch stays at most
  120 (octave 10), for the same reason.
- StringSim.Mute has no contract of its own. Its note-off event is stated in
  the contracts of `StringSim.Pluck` and `StringSim.PluckingFrame`.
