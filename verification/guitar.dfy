/**
 The six-string rig (`class Guitar` in src/guitar.js): the fixed layout and tuning,
 the routing of key presses to fret changes and direct plucks, and the per-frame
 update of every string.

 The global `currentFret` of src/guitar.js is the rig's `fret` field. A released fret key
 schedules a reset of the fret to 0 a moment later; the model counts the resets
 still pending, and `FireFretReset` is one of them arriving.
 */
module Guitar {
  import opened Common
  import opened NoteConverter
  import opened StringSim

  const StringCount: nat := 6
  const StringStartX: real := 0.0
  const StringStartY: real := 100.0
  const StringLength: real := 600.0
  const StringSpacing: real := 40.0
  const StringWidth: real := 2.0
  const MaxFret: nat := 12

  /** A keyboard event: its legacy `keyCode` and its `key` text. */
  datatype KeyEvent = KeyEvent(keyCode: int, key: string)

  datatype Rig = Rig(strings: seq<GuitarString>, fret: nat, pendingFretResets: nat)

  /** A rig after an event, with the sound requests made on the way, in order. */
  datatype Outcome = Outcome(rig: Rig, sounds: seq<Sound>)

  /** Standard tuning, low string first. */
  const Tuning: seq<string> := ["E2", "A2", "D3", "G3", "B3", "E4"]

  /** The open notes of `Tuning` as structured notes. */
  function TuningNote(i: nat): (n: Note)
    requires i < StringCount
    ensures Name(n) == Tuning[i] && SingleDigitOctave(n) && InCycle(n)
  {
    if i == 0 then Note(E, Natural, 2)
    else if i == 1 then Note(A, Natural, 2)
    else if i == 2 then Note(D, Natural, 3)
    else if i == 3 then Note(G, Natural, 3)
    else if i == 4 then Note(B, Natural, 3)
    else Note(E, Natural, 4)
  }

  /** String `i` as the constructor builds it: a horizontal line at height
      100 + 40 i, thinner for higher strings. */
  function Layout(i: nat): (s: GuitarString)
    requires i < StringCount
    ensures s.startPos.y == s.endPos.y == StringStartY + StringSpacing * i as real
    ensures s.startPos.x == 0.0 && s.endPos.x - s.startPos.x == StringLength
    ensures 3.0 * s.width == 2.0 * (StringCount - i) as real
    ensures s.width > 0.0 && s.openNote == Tuning[i]
    ensures s.phase == Resting && Valid(s)
    ensures s.amplitude == 0.0 && s.wavePosition == 0.0 && s.waveShiftSpeed == 0.0
    ensures s.previousNote == None && s.timer == None
  {
    var y := StringStartY + StringSpacing * i as real;
    NewString(Point(StringStartX, y), Point(StringStartX + StringLength, y),
              StringWidth / 3.0 * (StringCount - i) as real, Tuning[i])
  }

  /** What every reachable rig satisfies. */
  predicate ValidRig(r: Rig) {
    && |r.strings| == StringCount
    && r.fret <= MaxFret
    && forall i :: 0 <= i < StringCount ==> SameConfig(r.strings[i], Layout(i)) && Valid(r.strings[i])
  }

  /** The constructor: six resting strings in standard tuning, fret 0. */
  function NewRig(): (r: Rig)
    ensures ValidRig(r) && r.fret == 0 && r.pendingFretResets == 0
    ensures forall i :: 0 <= i < StringCount ==> r.strings[i] == Layout(i)
  {
    Rig(seq(StringCount, i requires 0 <= i < StringCount => Layout(i)), 0, 0)
  }

  /** `getStringCount`. */
  function GetStringCount(r: Rig): (n: nat)
    ensures ValidRig(r) ==> n == 6
  {
    |r.strings|
  }

  // ---------------------------------------------------------------------------
  // Keys
  // ---------------------------------------------------------------------------

  /** The key codes of the number row and of the '-' and '=' keys. */
  predicate IsFretCode(code: int) {
    48 <= code <= 57 || code == 189 || code == 187
  }

  /** The key codes of the numeric keypad. */
  predicate IsNumpadCode(code: int) {
    96 <= code <= 105
  }

  /** The fret a number-row key selects: '1'..'9' are frets 1..9, then '0', '-', '='
      are 10, 11, 12. */
  function FretForKey(key: string): (f: Option<nat>)
    ensures f.Some? ==> 1 <= f.value <= MaxFret
    ensures f.Some? <==> key in {"1", "2", "3", "4", "5", "6", "7", "8", "9", "0", "-", "="}
    ensures |key| == 1 && '1' <= key[0] <= '9' ==> f == Some(key[0] as int - '0' as int)
    ensures key == "0" ==> f == Some(10)
    ensures key == "-" ==> f == Some(11)
    ensures key == "=" ==> f == Some(12)
  {
    if key == "1" then Some(1)
    else if key == "2" then Some(2)
    else if key == "3" then Some(3)
    else if key == "4" then Some(4)
    else if key == "5" then Some(5)
    else if key == "6" then Some(6)
    else if key == "7" then Some(7)
    else if key == "8" then Some(8)
    else if key == "9" then Some(9)
    else if key == "0" then Some(10)
    else if key == "-" then Some(11)
    else if key == "=" then Some(12)
    else None
  }

  /** The key-down listener: a number-row key selects its fret; nothing else changes,
      and in particular a pending fret reset is not cancelled. */
  function KeyDown(r: Rig, e: KeyEvent): (r': Rig)
    ensures r'.strings == r.strings && r'.pendingFretResets == r.pendingFretResets
    ensures IsFretCode(e.keyCode) && FretForKey(e.key).Some? ==> r'.fret == FretForKey(e.key).value
    ensures !(IsFretCode(e.keyCode) && FretForKey(e.key).Some?) ==> r' == r
    ensures r.fret <= MaxFret ==> r'.fret <= MaxFret
  {
    if IsFretCode(e.keyCode) && FretForKey(e.key).Some? then r.(fret := FretForKey(e.key).value) else r
  }

  /** Pluck string `i` at the full pluck distance with the current fret, if it exists. */
  function PluckString(r: Rig, i: nat): (o: Outcome)
    ensures |o.rig.strings| == |r.strings| && o.rig.fret == r.fret
    ensures o.rig.pendingFretResets == r.pendingFretResets
    ensures forall j :: 0 <= j < |r.strings| && j != i ==> o.rig.strings[j] == r.strings[j]
    ensures i < |r.strings| ==> o == Outcome(r.(strings := r.strings[i := Pluck(r.strings[i], MaxPluckDistance, r.fret).str]),
                                              Pluck(r.strings[i], MaxPluckDistance, r.fret).sounds)
    ensures i >= |r.strings| ==> o == Outcome(r, [])
    ensures ValidRig(r) ==> ValidRig(o.rig)
  {
    if i < |r.strings| then
      PluckValid(r.strings[i], MaxPluckDistance, r.fret);
      var p := Pluck(r.strings[i], MaxPluckDistance, r.fret);
      Outcome(r.(strings := r.strings[i := p.str]), p.sounds)
    else Outcome(r, [])
  }

  /** The key-up listener. Keypad 4, 5, 6 pluck strings 3, 4, 5; a number-row fret key
      schedules a reset of the fret to 0; the arrow keys left, down, right pluck
      strings 0, 1, 2. No key-up changes the fret itself, and every key-up keeps the
      rig valid. */
  function KeyUp(r: Rig, e: KeyEvent): (o: Outcome)
    ensures o.rig.fret == r.fret
    ensures ValidRig(r) ==> ValidRig(o.rig)
  {
    if IsNumpadCode(e.keyCode) then
      if e.key == "6" then PluckString(r, 5)
      else if e.key == "5" then PluckString(r, 4)
      else if e.key == "4" then PluckString(r, 3)
      else Outcome(r, [])
    else if IsFretCode(e.keyCode) then
      if FretForKey(e.key).Some? then Outcome(r.(pendingFretResets := r.pendingFretResets + 1), [])
      else Outcome(r, [])
    else
      if e.key == "ArrowRight" then PluckString(r, 2)
      else if e.key == "ArrowDown" then PluckString(r, 1)
      else if e.key == "ArrowLeft" then PluckString(r, 0)
      else Outcome(r, [])
  }

  /** A delayed fret reset arrives: the fret drops to 0, whatever key is held now. */
  function FireFretReset(r: Rig): (r': Rig)
    ensures r'.strings == r.strings
    ensures r.pendingFretResets > 0 ==> r'.fret == 0 && r'.pendingFretResets + 1 == r.pendingFretResets
    ensures r.pendingFretResets == 0 ==> r' == r
    ensures ValidRig(r) ==> ValidRig(r')
  {
    if r.pendingFretResets > 0 then r.(fret := 0, pendingFretResets := r.pendingFretResets - 1) else r
  }

  /** String `i`'s "back to rest" timer with identity `id` fires. */
  function FireRestTimer(r: Rig, i: nat, id: nat): (r': Rig)
    ensures r'.fret == r.fret && r'.pendingFretResets == r.pendingFretResets
    ensures i < |r.strings| ==> r'.strings == r.strings[i := FireTimer(r.strings[i], id)]
    ensures i >= |r.strings| ==> r' == r
    ensures ValidRig(r) ==> ValidRig(r')
  {
    if i < |r.strings| then r.(strings := r.strings[i := FireTimer(r.strings[i], id)]) else r
  }

  // ---------------------------------------------------------------------------
  // Frames
  // ---------------------------------------------------------------------------

  /** The sounds of updating `strings` in index order. */
  function FrameSounds(strings: seq<GuitarString>, mouse: Mouse, fret: nat): seq<Sound>
    decreases |strings|
  {
    if |strings| == 0 then []
    else FrameSounds(strings[..|strings| - 1], mouse, fret) + Update(strings[|strings| - 1], mouse, fret).sounds
  }

  lemma FrameSoundsNext(strings: seq<GuitarString>, i: nat, mouse: Mouse, fret: nat)
    requires i < |strings|
    ensures FrameSounds(strings[..i + 1], mouse, fret)
         == FrameSounds(strings[..i], mouse, fret) + Update(strings[i], mouse, fret).sounds
  {
    assert strings[..i + 1][..i] == strings[..i];
  }

  /** `updateStrings`: every string takes one frame, in index order, all reading the
      same fret; their sound requests come out in that order. */
  method UpdateStrings(r: Rig, mouse: Mouse) returns (next: Rig, sounds: seq<Sound>)
    ensures |next.strings| == |r.strings|
    ensures next.fret == r.fret && next.pendingFretResets == r.pendingFretResets
    ensures forall i :: 0 <= i < |r.strings| ==> next.strings[i] == Update(r.strings[i], mouse, r.fret).str
    ensures sounds == FrameSounds(r.strings, mouse, r.fret)
  {
    var strings: seq<GuitarString> := [];
    sounds := [];
    var i := 0;
    while i < |r.strings|
      invariant i <= |r.strings|
      invariant |strings| == i
      invariant forall j :: 0 <= j < i ==> strings[j] == Update(r.strings[j], mouse, r.fret).str
      invariant sounds == FrameSounds(r.strings[..i], mouse, r.fret)
    {
      var step := Update(r.strings[i], mouse, r.fret);
      FrameSoundsNext(r.strings, i, mouse, r.fret);
      strings := strings + [step.str];
      sounds := sounds + step.sounds;
      i := i + 1;
    }
    assert r.strings[..|r.strings|] == r.strings;
    next := r.(strings := strings);
  }

  /** A rig whose strings each took one frame, as `UpdateStrings` promises, is valid
      when the rig before was. */
  lemma FrameKeepsRigValid(r: Rig, next: Rig, mouse: Mouse)
    requires ValidRig(r) && next.fret == r.fret && |next.strings| == |r.strings|
    requires forall i :: 0 <= i < |r.strings| ==> next.strings[i] == Update(r.strings[i], mouse, r.fret).str
    ensures ValidRig(next)
  {
  }

  // ---------------------------------------------------------------------------
  // Properties
  // ---------------------------------------------------------------------------

  /** The strings lie 40 apart and the pluck tolerance is 5.1, so a pointer is over at
      most one string. */
  lemma PointerOverOneString(mouse: Mouse, i: nat, j: nat)
    requires i < StringCount && j < StringCount
    requires PointerOver(Layout(i), mouse) && PointerOver(Layout(j), mouse)
    ensures i == j
  {
  }

  /** Lower strings are thicker. */
  lemma LayoutWidths(i: nat, j: nat)
    requires i < j < StringCount
    ensures Layout(i).width > Layout(j).width
    ensures Layout(i).startPos.y < Layout(j).startPos.y
  {
  }

  /** Standard tuning: each string is the one below it raised by 5 semitones, except
      the B string, which is the G string raised by 4. */
  lemma TuningIntervals(i: nat)
    requires i + 1 < StringCount
    ensures PitchedUpBy(Tuning[i], if i == 3 then 4 else 5) == Tuning[i + 1]
  {
    var n := TuningNote(i);
    var k := if i == 3 then 4 else 5;
    PitchedUpByName(n, k);
    StepsUpFromCycle(n, k);
    var m := TuningNote(i + 1);
    CycleNoteOfPitch(m);
  }

  /** A number-row key-down keeps the fret within 0..12; a keypad key-down never
      changes the rig. */
  lemma KeyDownFretRange(r: Rig, e: KeyEvent)
    requires ValidRig(r)
    ensures ValidRig(KeyDown(r, e))
    ensures IsNumpadCode(e.keyCode) ==> KeyDown(r, e) == r
  {
  }

  /** The six plucking key-ups: keypad 4, 5, 6 and the arrows left, down, right each
      pluck one string at the full pluck distance. */
  lemma KeyUpPlucks(r: Rig, e: KeyEvent)
    ensures IsNumpadCode(e.keyCode) && e.key == "4" ==> KeyUp(r, e) == PluckString(r, 3)
    ensures IsNumpadCode(e.keyCode) && e.key == "5" ==> KeyUp(r, e) == PluckString(r, 4)
    ensures IsNumpadCode(e.keyCode) && e.key == "6" ==> KeyUp(r, e) == PluckString(r, 5)
    ensures !IsNumpadCode(e.keyCode) && !IsFretCode(e.keyCode) && e.key == "ArrowLeft" ==> KeyUp(r, e) == PluckString(r, 0)
    ensures !IsNumpadCode(e.keyCode) && !IsFretCode(e.keyCode) && e.key == "ArrowDown" ==> KeyUp(r, e) == PluckString(r, 1)
    ensures !IsNumpadCode(e.keyCode) && !IsFretCode(e.keyCode) && e.key == "ArrowRight" ==> KeyUp(r, e) == PluckString(r, 2)
  {
  }

  /** A key-up of a number-row fret key schedules one more reset and changes nothing
      else; any other key-up schedules none. */
  lemma KeyUpSchedulesReset(r: Rig, e: KeyEvent)
    ensures IsFretCode(e.keyCode) && FretForKey(e.key).Some? ==>
      KeyUp(r, e) == Outcome(r.(pendingFretResets := r.pendingFretResets + 1), [])
    ensures !(IsFretCode(e.keyCode) && FretForKey(e.key).Some?) ==>
      KeyUp(r, e).rig.pendingFretResets == r.pendingFretResets
  {
  }

  /** A key-up of a key that neither plucks nor frets changes nothing. */
  lemma KeyUpOtherwiseInert(r: Rig, e: KeyEvent)
    requires IsNumpadCode(e.keyCode) ==> e.key !in {"4", "5", "6"}
    requires IsFretCode(e.keyCode) ==> FretForKey(e.key).None?
    requires !IsNumpadCode(e.keyCode) && !IsFretCode(e.keyCode) ==> e.key !in {"ArrowLeft", "ArrowDown", "ArrowRight"}
    ensures KeyUp(r, e) == Outcome(r, [])
  {
  }

  /** No key-down cancels a scheduled reset: releasing one fret key and pressing
      another before the reset arrives still ends at fret 0. */
  lemma FretResetNotCancelled(r: Rig, up: KeyEvent, down: KeyEvent)
    requires IsFretCode(up.keyCode) && FretForKey(up.key).Some?
    ensures FireFretReset(KeyDown(KeyUp(r, up).rig, down)).fret == 0
  {
    KeyUpSchedulesReset(r, up);
  }

  /** Plucking string `i` from the keyboard at fret `f` sounds the open note raised by
      `f` semitones: its text is the name of the note with pitch value `f` higher. */
  lemma PluckStringPitch(r: Rig, i: nat)
    requires ValidRig(r) && i < StringCount
    ensures var o := PluckString(r, i);
      && o.sounds == [NoteOff(r.strings[i].previousNote), NoteOn(Name(StepsUp(TuningNote(i), r.fret)), 3.0)]
      && Pitch(StepsUp(TuningNote(i), r.fret)) == Pitch(TuningNote(i)) + r.fret
      && o.rig.strings[i].phase == Waving
  {
    var n := TuningNote(i);
    assert Pitch(n) <= 52;
    PitchedUpByName(n, r.fret);
  }

  /** With fret 5 held, the left arrow plucks the low E string and sounds A2. */
  lemma FretFiveOnLowE(r: Rig)
    requires ValidRig(r) && r.fret == 5
    ensures KeyUp(r, KeyEvent(37, "ArrowLeft")).sounds[1] == NoteOn("A2", 3.0)
  {
    KeyUpPlucks(r, KeyEvent(37, "ArrowLeft"));
    PitchedUpByFromE2();
  }
}
