/**
 One string of the guitar (`class String` in src/guitar.js).

 A string rests, is dragged by the pointer (plucking), or waves after release
 with a decaying amplitude. Every update returns the new string together with
 the sound requests it made; the real-time "back to rest" callback of src/guitar.js is
 an explicit pending timer that fires only through `FireTimer`.
 */
module StringSim {
  import opened Common
  import opened NoteConverter

  const PluckStartDistance: real := 5.1
  const MaxPluckDistance: real := 30.0
  const MaxWaveAmplitude: real := 10.0
  /** Milliseconds a full-strength pluck keeps the string waving. */
  const MaxWaveDuration: real := 3000.0
  const WavePeriodLength: real := 80.0
  const WaveDecreaseRate: real := 0.015
  const WaveShiftSpeed: real := 7.0
  /** Seconds a full-strength pluck lets the note ring. */
  const MaxNoteDuration: real := MaxWaveDuration / 1000.0

  datatype Point = Point(x: real, y: real)

  /** The pointer as sampled once per frame. */
  datatype Mouse = Mouse(pos: Point, down: bool)

  datatype Phase = Resting | Plucking | Waving

  /** Requests to the sound service. `NoteOff(None)` is a release of a note that was
      never set. */
  datatype Sound = NoteOff(released: Option<string>) | NoteOn(pitch: string, duration: real)

  /** The pending "back to rest" callback: its identity and its delay in milliseconds. */
  datatype RestTimer = RestTimer(id: nat, delay: real)

  datatype GuitarString = GuitarString(
    startPos: Point,
    endPos: Point,
    width: real,
    openNote: string,
    phase: Phase,
    pluckPos: Option<Point>,
    amplitude: real,
    wavePosition: real,
    waveShiftSpeed: real,
    timer: Option<RestTimer>,
    timersArmed: nat,
    previousNote: Option<string>)

  /** A string after an event, with the sound requests made on the way, in order. */
  datatype Step = Step(str: GuitarString, sounds: seq<Sound>)

  function Abs(x: real): real {
    if x < 0.0 then -x else x
  }

  /** `CrlLib.map_range`, taken to be the linear map of [inMin, inMax] onto [outMin, outMax]. */
  function MapRange(value: real, inMin: real, inMax: real, outMin: real, outMax: real): real
    requires inMin != inMax
  {
    outMin + (value - inMin) * (outMax - outMin) / (inMax - inMin)
  }

  /** The constructor: a resting string with the given ends, width and open note. */
  function NewString(startPos: Point, endPos: Point, width: real, openNote: string): (s: GuitarString)
    ensures s.startPos == startPos && s.endPos == endPos && s.width == width && s.openNote == openNote
    ensures s.phase == Resting && s.timer == None && s.previousNote == None
    ensures s.amplitude == 0.0 && s.wavePosition == 0.0 && s.waveShiftSpeed == 0.0
    ensures width >= 0.0 ==> Valid(s)
  {
    GuitarString(startPos, endPos, width, openNote, Resting, None, 0.0, 0.0, 0.0, None, 0, None)
  }

  /** The fields set at construction, which no event changes. */
  predicate SameConfig(s: GuitarString, t: GuitarString) {
    s.startPos == t.startPos && s.endPos == t.endPos && s.width == t.width && s.openNote == t.openNote
  }

  /** What every reachable string satisfies: a timer is pending exactly while the
      string waves, it is the latest one armed, and the wave values stay in range. */
  predicate Valid(s: GuitarString) {
    && s.width >= 0.0
    && s.amplitude >= 0.0
    && s.waveShiftSpeed >= 0.0
    && 0.0 <= s.wavePosition <= WavePeriodLength
    && (s.timer.Some? <==> s.phase == Waving)
    && (s.timer.Some? ==> s.timer.value.id + 1 == s.timersArmed)
  }

  /** The pointer is within the pluck tolerance of the string's rest line. */
  predicate PointerOver(s: GuitarString, mouse: Mouse) {
    Abs(mouse.pos.y - s.startPos.y) < PluckStartDistance
  }

  /** `mute`: release the most recently triggered note. */
  function Mute(s: GuitarString): seq<Sound> {
    [NoteOff(s.previousNote)]
  }

  /** The first part of `update`: a pressed pointer over the string grabs it, whatever
      the string was doing; otherwise nothing changes. */
  function Grab(s: GuitarString, mouse: Mouse): (r: GuitarString)
    ensures r.phase == Plucking <==> (mouse.down && PointerOver(s, mouse)) || s.phase == Plucking
    ensures !(mouse.down && PointerOver(s, mouse)) ==> r == s
    ensures r == s.(phase := r.phase)
  {
    if mouse.down && PointerOver(s, mouse) then s.(phase := Plucking) else s
  }

  /** `pluck`: start waving with parameters scaled by the pluck distance, release the
      previous note, sound the open note raised by the fret, and re-arm the single
      "back to rest" timer under a new identity. */
  function Pluck(s: GuitarString, distance: real, fret: nat): (r: Step)
    ensures r.str.phase == Waving && r.str.wavePosition == 0.0
    ensures r.str.amplitude == distance * s.width / 3.0
    ensures r.str.waveShiftSpeed == distance * 7.0 / 30.0
    ensures r.sounds == [NoteOff(s.previousNote), NoteOn(PitchedUpBy(s.openNote, fret), distance / 10.0)]
    ensures r.str.previousNote == Some(PitchedUpBy(s.openNote, fret))
    ensures r.str.timer == Some(RestTimer(s.timersArmed, distance * 100.0))
    ensures r.str.timersArmed == s.timersArmed + 1
    ensures SameConfig(r.str, s) && r.str.pluckPos == s.pluckPos
  {
    var note := PitchedUpBy(s.openNote, fret);
    var waving := s.(
      phase := Waving,
      amplitude := MapRange(distance * s.width, 0.0, MaxPluckDistance, 0.0, MaxWaveAmplitude),
      wavePosition := 0.0,
      waveShiftSpeed := WaveShiftSpeed * MapRange(distance, 0.0, MaxPluckDistance, 0.0, 1.0),
      previousNote := Some(note),
      timer := Some(RestTimer(s.timersArmed, MapRange(distance, 0.0, MaxPluckDistance, 0.0, MaxWaveDuration))),
      timersArmed := s.timersArmed + 1);
    Step(waving, Mute(s) + [NoteOn(note, MapRange(distance, 0.0, MaxPluckDistance, 0.0, MaxNoteDuration))])
  }

  /** One frame of a waving string: damp the amplitude and shift the wave, jumping
      back to 0 once the shift passes one period. */
  function Wave(s: GuitarString): (r: GuitarString)
    ensures r.amplitude == s.amplitude * (1.0 - WaveDecreaseRate)
    ensures s.amplitude >= 0.0 ==> 0.0 <= r.amplitude <= s.amplitude
    ensures s.amplitude > 0.0 ==> r.amplitude < s.amplitude
    ensures s.waveShiftSpeed >= 0.0 && 0.0 <= s.wavePosition ==> 0.0 <= r.wavePosition <= WavePeriodLength
    ensures s.wavePosition + s.waveShiftSpeed <= WavePeriodLength ==> r.wavePosition == s.wavePosition + s.waveShiftSpeed
    ensures s.wavePosition + s.waveShiftSpeed > WavePeriodLength ==> r.wavePosition == 0.0
    ensures r == s.(amplitude := r.amplitude, wavePosition := r.wavePosition)
  {
    var position := s.wavePosition + s.waveShiftSpeed;
    s.(amplitude := s.amplitude - s.amplitude * WaveDecreaseRate,
       wavePosition := if position > WavePeriodLength then 0.0 else position)
  }

  /** The state-machine part of `update`. A plucking string cancels its timer, releases
      its note and follows the pointer, and is plucked when the pointer is released or
      pulled further than `MaxPluckDistance` (the distance is not clamped). */
  function Advance(s: GuitarString, mouse: Mouse, fret: nat): Step {
    match s.phase
    case Resting => Step(s, [])
    case Plucking =>
      var held := s.(timer := None, pluckPos := Some(mouse.pos));
      var distance := Abs(mouse.pos.y - s.startPos.y);
      if !mouse.down || distance > MaxPluckDistance then
        var plucked := Pluck(held, distance, fret);
        Step(plucked.str, Mute(s) + plucked.sounds)
      else
        Step(held, Mute(s))
    case Waving => Step(Wave(s), [])
  }

  /** `update`: the grab check, then one step of the state machine. A frame keeps
      the string's invariant and never moves, resizes or retunes it. */
  function Update(s: GuitarString, mouse: Mouse, fret: nat): (r: Step)
    ensures Valid(s) ==> Valid(r.str)
    ensures SameConfig(r.str, s)
    ensures r.str.timersArmed >= s.timersArmed
  {
    Advance(Grab(s, mouse), mouse, fret)
  }

  /** The "back to rest" callback with identity `id` fires. Only the pending timer has
      any effect; a timer cancelled by a later pluck changes nothing. */
  function FireTimer(s: GuitarString, id: nat): (r: GuitarString)
    ensures r.phase == Resting <==> s.phase == Resting || (s.timer.Some? && s.timer.value.id == id)
    ensures r.timer.Some? ==> r == s
    ensures r == s.(phase := r.phase, timer := r.timer)
    ensures !(s.timer.Some? && s.timer.value.id == id) ==> r == s
    ensures Valid(s) ==> Valid(r)
  {
    if s.timer.Some? && s.timer.value.id == id then s.(phase := Resting, timer := None) else s
  }

  // ---------------------------------------------------------------------------
  // Properties
  // ---------------------------------------------------------------------------

  /** A resting string starts plucking exactly when the pointer is pressed within the
      tolerance of its rest line; otherwise the frame leaves it as it was. */
  lemma RestingGrabbedIff(s: GuitarString, mouse: Mouse, fret: nat)
    requires s.phase == Resting
    ensures Update(s, mouse, fret).str.phase == Plucking <==> mouse.down && PointerOver(s, mouse)
    ensures !(mouse.down && PointerOver(s, mouse)) ==> Update(s, mouse, fret) == Step(s, [])
  {
  }

  /** A frame that finds the string plucking (already, or grabbed now) releases the
      previous note and cancels the old timer. The string is plucked at the pointer's
      distance exactly when the pointer is up or too far, and then remembers the
      plucked note; otherwise it keeps plucking at the pointer with no timer pending,
      the same previous note and the same wave values. */
  lemma PluckingFrame(s: GuitarString, mouse: Mouse, fret: nat)
    requires Grab(s, mouse).phase == Plucking
    ensures var r := Update(s, mouse, fret);
      var distance := Abs(mouse.pos.y - s.startPos.y);
      var released := !mouse.down || distance > MaxPluckDistance;
      var off := NoteOff(s.previousNote);
      && r.str.pluckPos == Some(mouse.pos)
      && (released ==>
            && r.str.phase == Waving
            && r.str.timer == Some(RestTimer(s.timersArmed, distance * 100.0))
            && r.str.timersArmed == s.timersArmed + 1
            && r.sounds == [off, off, NoteOn(PitchedUpBy(s.openNote, fret), distance / 10.0)]
            && r.str.previousNote == Some(PitchedUpBy(s.openNote, fret))
            && r.str.amplitude == distance * s.width / 3.0
            && r.str.waveShiftSpeed == distance * 7.0 / 30.0
            && r.str.wavePosition == 0.0)
      && (!released ==>
            && r.str.phase == Plucking
            && r.str.timer == None
            && r.str.timersArmed == s.timersArmed
            && r.sounds == [off]
            && r.str.previousNote == s.previousNote
            && r.str.amplitude == s.amplitude
            && r.str.wavePosition == s.wavePosition
            && r.str.waveShiftSpeed == s.waveShiftSpeed)
  {
  }

  /** A waving string that is not grabbed damps and shifts and makes no sound. */
  lemma WavingFrame(s: GuitarString, mouse: Mouse, fret: nat)
    requires s.phase == Waving && !(mouse.down && PointerOver(s, mouse))
    ensures Update(s, mouse, fret) == Step(Wave(s), [])
  {
  }

  /** After a pluck only the new timer can return the string to rest: firing any
      timer armed before it, however short its delay was, leaves the string waving. */
  lemma StaleTimerHarmless(s: GuitarString, distance: real, fret: nat, id: nat)
    requires id < s.timersArmed
    ensures FireTimer(Pluck(s, distance, fret).str, id) == Pluck(s, distance, fret).str
    ensures FireTimer(Pluck(s, distance, fret).str, id).phase == Waving
  {
  }

  /** The pluck's own timer returns the string to rest and leaves nothing pending. */
  lemma OwnTimerRests(s: GuitarString, distance: real, fret: nat)
    ensures FireTimer(Pluck(s, distance, fret).str, s.timersArmed).phase == Resting
    ensures FireTimer(Pluck(s, distance, fret).str, s.timersArmed).timer == None
  {
  }

  /** Two plucks in a row: the first pluck's timer cannot end the second one's wave. */
  lemma RepluckCancelsFirstTimer(s: GuitarString, d1: real, d2: real, fret1: nat, fret2: nat)
    ensures var first := Pluck(s, d1, fret1).str;
      var second := Pluck(first, d2, fret2).str;
      FireTimer(second, first.timer.value.id) == second
  {
    StaleTimerHarmless(Pluck(s, d1, fret1).str, d2, fret2, s.timersArmed);
  }

  /** A string plucked with a non-negative distance is valid. */
  lemma PluckValid(s: GuitarString, distance: real, fret: nat)
    requires distance >= 0.0
    ensures Valid(s) ==> Valid(Pluck(s, distance, fret).str)
  {
  }

  /** While a valid string waves undisturbed, its amplitude never grows and stays
      non-negative, and the wave position stays within one period. */
  lemma {:induction false} WavingDecays(s: GuitarString, frames: nat)
    requires Valid(s)
    ensures var r := Iterate(Wave, s, frames);
      && Valid(r) && r.amplitude <= s.amplitude
      && (s.amplitude > 0.0 && frames > 0 ==> r.amplitude < s.amplitude)
    decreases frames
  {
    if frames > 0 {
      WavingDecays(Wave(s), frames - 1);
    }
  }
}
