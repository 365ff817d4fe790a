/**
 The note transposer of the guitar (`NoteConverter` in src/guitar.js).

 The JavaScript works on note names such as "E2", "C#4" or "Bb3" and raises them one
 semitone at a time with a letter-by-letter rule table. `HalfStepUp` models that
 table on strings, with JavaScript's reading of characters past the end of a
 string. `Note`, `Pitch` and `StepUp` are the structured reference: a note's pitch
 value is `12 * octave + letter index + accidental`, and every step raises it by
 exactly one.
 */
module NoteConverter {
  import opened Common

  datatype Letter = A | B | C | D | E | F | G

  datatype Accidental = Flat | Natural | Sharp

  /** A note name: letter, optional accidental and octave number. */
  datatype Note = Note(letter: Letter, accidental: Accidental, octave: nat)

  // ---------------------------------------------------------------------------
  // Pitch values and note names
  // ---------------------------------------------------------------------------

  /** Semitones above C within one octave. */
  function LetterIndex(l: Letter): int {
    match l
    case C => 0
    case D => 2
    case E => 4
    case F => 5
    case G => 7
    case A => 9
    case B => 11
  }

  function AccidentalOffset(a: Accidental): int {
    match a
    case Flat => -1
    case Natural => 0
    case Sharp => 1
  }

  /** The pitch value of a note in semitones; C0 is 0. */
  function Pitch(n: Note): int {
    12 * n.octave + LetterIndex(n.letter) + AccidentalOffset(n.accidental)
  }

  function LetterChar(l: Letter): char {
    match l
    case A => 'A'
    case B => 'B'
    case C => 'C'
    case D => 'D'
    case E => 'E'
    case F => 'F'
    case G => 'G'
  }

  function AccidentalText(a: Accidental): string {
    match a
    case Flat => "b"
    case Natural => ""
    case Sharp => "#"
  }

  function Digit(d: nat): (c: char)
    requires d < 10
    ensures '0' <= c <= '9'
  {
    "0123456789"[d]
  }

  /** The decimal text of a natural number, as JavaScript prints it. */
  function Decimal(n: nat): (r: string)
    ensures 1 <= |r|
  {
    if n < 10 then [Digit(n)] else Decimal(n / 10) + [Digit(n % 10)]
  }

  /** Decimal text consists of digits only. */
  lemma {:induction false} DecimalDigits(n: nat)
    ensures forall i :: 0 <= i < |Decimal(n)| ==> '0' <= Decimal(n)[i] <= '9'
    decreases n
  {
    if n >= 10 {
      DecimalDigits(n / 10);
    }
  }

  /** The text of a note, e.g. "C#4". */
  function Name(n: Note): string {
    [LetterChar(n.letter)] + AccidentalText(n.accidental) + Decimal(n.octave)
  }

  /** Names the JavaScript can read back: its octave is the one character after the accidental. */
  predicate SingleDigitOctave(n: Note) {
    n.octave <= 9
  }

  /** The names a step can produce: sharps or naturals, never B#. */
  predicate Canonical(n: Note) {
    n.accidental != Flat && !(n.letter == B && n.accidental == Sharp)
  }

  // ---------------------------------------------------------------------------
  // JavaScript string reading
  // ---------------------------------------------------------------------------

  /** `s[i]` in JavaScript: the character, or `undefined` past the end. */
  function CharAt(s: string, i: nat): Option<char> {
    if i < |s| then Some(s[i]) else None
  }

  /** What `"..." + s[i]` appends: the character, or the word "undefined". */
  function Text(c: Option<char>): string {
    match c
    case Some(ch) => [ch]
    case None => "undefined"
  }

  /** The characters JavaScript's `Number` skips as white space or line terminators. */
  predicate IsJsSpace(c: char) {
    || c == '\t' || c == '\n' || c == '\U{000B}' || c == '\U{000C}' || c == '\r'
    || c == ' ' || c == '\U{00A0}' || c == '\U{1680}'
    || ('\U{2000}' <= c <= '\U{200A}')
    || c == '\U{2028}' || c == '\U{2029}' || c == '\U{202F}' || c == '\U{205F}'
    || c == '\U{3000}' || c == '\U{FEFF}'
  }

  /** What `"..." + (Number(s[i]) + 1)` appends: a blank reads as 0, anything else that
      is not a digit (including `undefined`) as NaN. */
  function SuccText(c: Option<char>): string {
    match c
    case Some(ch) =>
      if ch == '9' then "10"
      else if '0' <= ch < '9' then [(ch as int + 1) as char]
      else if IsJsSpace(ch) then "1"
      else "NaN"
    case None => "NaN"
  }

  // ---------------------------------------------------------------------------
  // One semitone up
  // ---------------------------------------------------------------------------

  predicate IsNoteLetter(c: char) {
    'A' <= c <= 'G'
  }

  /** `getNoteHalfStepUp`: the rule table of src/guitar.js on note text. A natural E
      becomes E#, E# becomes F#, and the octave is the single character after the
      letter or the accidental. The step yields the empty text exactly when the note
      does not start with A-G; otherwise its result starts with A-G again. */
  function HalfStepUp(note: string): (r: string)
    ensures r == "" <==> (|note| == 0 || !IsNoteLetter(note[0]))
    ensures r != "" ==> IsNoteLetter(r[0])
  {
    if |note| == 0 then "" else Rule(note[0], CharAt(note, 1), CharAt(note, 2))
  }

  /** The rule table itself, given the first three characters of a note's text. */
  function Rule(first: char, second: Option<char>, third: Option<char>): (r: string)
  {
    var sharp := second == Some('#');
    var flat := second == Some('b');
    match first
    case 'A' =>
      if sharp then "B" + Text(third)
      else if flat then "A" + Text(third)
      else "A#" + Text(second)
    case 'B' =>
      if sharp then "C#" + SuccText(third)
      else if flat then "B" + Text(third)
      else "C" + SuccText(second)
    case 'C' =>
      if sharp then "D" + Text(third)
      else if flat then "C" + Text(third)
      else "C#" + Text(second)
    case 'D' =>
      if sharp then "E" + Text(third)
      else if flat then "D" + Text(third)
      else "D#" + Text(second)
    case 'E' =>
      if sharp then "F#" + Text(third)
      else if flat then "E" + Text(third)
      else "E#" + Text(second)
    case 'F' =>
      if sharp then "G" + Text(third)
      else if flat then "F" + Text(third)
      else "F#" + Text(second)
    case 'G' =>
      if sharp then "A" + Text(third)
      else if flat then "G" + Text(third)
      else "G#" + Text(second)
    case _ => ""
  }

  /** The same rule table on structured notes. */
  function StepUp(n: Note): (r: Note)
    ensures Pitch(r) == Pitch(n) + 1
    ensures Canonical(r)
  {
    var o := n.octave;
    match n.letter
    case A =>
      if n.accidental == Sharp then Note(B, Natural, o)
      else if n.accidental == Flat then Note(A, Natural, o)
      else Note(A, Sharp, o)
    case B =>
      if n.accidental == Sharp then Note(C, Sharp, o + 1)
      else if n.accidental == Flat then Note(B, Natural, o)
      else Note(C, Natural, o + 1)
    case C =>
      if n.accidental == Sharp then Note(D, Natural, o)
      else if n.accidental == Flat then Note(C, Natural, o)
      else Note(C, Sharp, o)
    case D =>
      if n.accidental == Sharp then Note(E, Natural, o)
      else if n.accidental == Flat then Note(D, Natural, o)
      else Note(D, Sharp, o)
    case E =>
      if n.accidental == Sharp then Note(F, Sharp, o)
      else if n.accidental == Flat then Note(E, Natural, o)
      else Note(E, Sharp, o)
    case F =>
      if n.accidental == Sharp then Note(G, Natural, o)
      else if n.accidental == Flat then Note(F, Natural, o)
      else Note(F, Sharp, o)
    case G =>
      if n.accidental == Sharp then Note(A, Natural, o)
      else if n.accidental == Flat then Note(G, Natural, o)
      else Note(G, Sharp, o)
  }

  /** On every readable note name the text rule table agrees with the structured one. */
  lemma HalfStepUpName(n: Note)
    requires SingleDigitOctave(n)
    ensures HalfStepUp(Name(n)) == Name(StepUp(n))
  {
    var d := Digit(n.octave);
    assert Decimal(n.octave) == [d];
    var s := Name(n);
    match n.accidental
    case Natural =>
      assert s == [LetterChar(n.letter), d];
      RuleNatural(n);
    case Sharp =>
      assert s == [LetterChar(n.letter), '#', d];
      RuleSharp(n);
    case Flat =>
      assert s == [LetterChar(n.letter), 'b', d];
  }

  lemma DecimalSingle(o: nat)
    requires o < 10
    ensures Decimal(o) == [Digit(o)]
  {
  }

  /** `Number(d) + 1` on a digit prints the next number. */
  lemma SuccDigit(o: nat)
    requires o < 10
    ensures SuccText(Some(Digit(o))) == Decimal(o + 1)
  {
    var d := Digit(o);
    assert d as int - '0' as int == o;
    if o == 9 {
      assert Decimal(10) == "10";
    } else {
      DecimalSingle(o + 1);
      assert Digit(o + 1) == (d as int + 1) as char;
    }
  }

  lemma RuleNatural(n: Note)
    requires SingleDigitOctave(n) && n.accidental == Natural
    ensures Rule(LetterChar(n.letter), Some(Digit(n.octave)), None) == Name(StepUp(n))
  {
    var o := n.octave;
    var m := StepUp(n);
    if n.letter == B {
      SuccDigit(o);
      assert Name(m) == "C" + Decimal(o + 1);
    } else {
      DecimalSingle(o);
      assert m.octave == o;
      assert Name(m) == [LetterChar(m.letter)] + AccidentalText(m.accidental) + [Digit(o)];
    }
  }

  lemma RuleSharp(n: Note)
    requires SingleDigitOctave(n) && n.accidental == Sharp
    ensures Rule(LetterChar(n.letter), Some('#'), Some(Digit(n.octave))) == Name(StepUp(n))
  {
    var o := n.octave;
    var m := StepUp(n);
    if n.letter == B {
      SuccDigit(o);
      assert Name(m) == "C#" + Decimal(o + 1);
    } else {
      DecimalSingle(o);
      assert m.octave == o;
      assert Name(m) == [LetterChar(m.letter)] + AccidentalText(m.accidental) + [Digit(o)];
    }
  }

  /** A readable name steps to a name without a flat, and a natural E steps to E#. */
  lemma HalfStepUpNoFlat(n: Note)
    requires SingleDigitOctave(n)
    ensures 'b' !in HalfStepUp(Name(n))
    ensures n.letter == E && n.accidental == Natural ==> HalfStepUp(Name(n)) == "E#" + Decimal(n.octave)
  {
    HalfStepUpName(n);
    var m := StepUp(n);
    var dec := Decimal(m.octave);
    DecimalDigits(m.octave);
    assert Name(m) == [LetterChar(m.letter)] + AccidentalText(m.accidental) + dec;
    assert 'b' !in dec;
  }

  // ---------------------------------------------------------------------------
  // Several semitones up
  // ---------------------------------------------------------------------------

  /** After at least one step, repeated stepping yields the empty text exactly when
      the note does not start with A-G, and otherwise text starting with A-G. */
  lemma {:induction false} IterateHalfStepUpShape(note: string, k: nat)
    ensures var r := Iterate(HalfStepUp, note, k);
      && (k > 0 ==> (r == "" <==> (|note| == 0 || !IsNoteLetter(note[0]))))
      && (k > 0 && r != "" ==> IsNoteLetter(r[0]))
    decreases k
  {
    if k > 1 {
      IterateHalfStepUpShape(HalfStepUp(note), k - 1);
    }
  }

  /** `getPitchedUpBy`: the one-semitone step applied `halfSteps` times. No steps
      leave the text as it is; after one or more, the text is empty exactly when
      the note did not start with A-G, and otherwise starts with A-G. */
  function PitchedUpBy(note: string, halfSteps: nat): (r: string)
    ensures halfSteps == 0 ==> r == note
    ensures halfSteps > 0 ==> (r == "" <==> (|note| == 0 || !IsNoteLetter(note[0])))
    ensures halfSteps > 0 && r != "" ==> IsNoteLetter(r[0])
  {
    IterateHalfStepUpShape(note, halfSteps);
    Iterate(HalfStepUp, note, halfSteps)
  }

  /** The structured counterpart of `PitchedUpBy`. */
  function StepsUp(n: Note, k: nat): (r: Note)
    ensures Pitch(r) == Pitch(n) + k
    ensures k >= 1 ==> Canonical(r)
    decreases k
  {
    if k == 0 then n else StepsUp(StepUp(n), k - 1)
  }

  /** Raising by zero is the identity; raising by `a` then by `b` is raising by `a + b`. */
  lemma {:induction false} PitchedUpByAdds(note: string, a: nat, b: nat)
    ensures PitchedUpBy(note, 0) == note
    ensures PitchedUpBy(PitchedUpBy(note, a), b) == PitchedUpBy(note, a + b)
  {
    IterateAdds(HalfStepUp, note, a, b);
  }

  /** The last of `k + 1` steps is one more half step on the first `k`. */
  lemma PitchedUpByLast(note: string, k: nat)
    ensures PitchedUpBy(note, k + 1) == HalfStepUp(PitchedUpBy(note, k))
  {
    IterateAdds(HalfStepUp, note, k, 1);
  }

  /** The loop of `getPitchedUpBy`, computing the same text as `PitchedUpBy`. */
  method PitchUp(note: string, halfStepCount: nat) returns (newNote: string)
    ensures newNote == PitchedUpBy(note, halfStepCount)
  {
    newNote := note;
    var i := 0;
    while i < halfStepCount
      invariant i <= halfStepCount
      invariant newNote == PitchedUpBy(note, i)
    {
      PitchedUpByLast(note, i);
      newNote := HalfStepUp(newNote);
      i := i + 1;
    }
  }

  /** A canonical note's octave is read off its pitch. */
  lemma CanonicalOctave(n: Note)
    requires Canonical(n)
    ensures 0 <= Pitch(n) && n.octave == Pitch(n) / 12
  {
    var off := LetterIndex(n.letter) + AccidentalOffset(n.accidental);
    assert 0 <= off < 12;
    assert Pitch(n) == 12 * n.octave + off;
  }

  /** While every intermediate note still has a one-digit octave, raising the text of a
      note by `k` gives the text of the note whose pitch value is `k` higher. */
  lemma {:induction false} PitchedUpByName(n: Note, k: nat)
    requires SingleDigitOctave(n)
    requires k <= 1 || Pitch(n) + k <= 120
    ensures PitchedUpBy(Name(n), k) == Name(StepsUp(n, k))
    ensures Pitch(StepsUp(n, k)) == Pitch(n) + k
    decreases k
  {
    if k > 0 {
      HalfStepUpName(n);
      var m := StepUp(n);
      if k > 1 {
        CanonicalOctave(m);
        PitchedUpByName(m, k - 1);
      }
    }
  }

  // ---------------------------------------------------------------------------
  // Twelve-step periodicity
  // ---------------------------------------------------------------------------

  /** The twelve names every walk of semitone steps settles into:
      C C# D D# E E# F# G G# A A# B. */
  predicate InCycle(n: Note) {
    Canonical(n) && !(n.letter == F && n.accidental == Natural)
  }

  /** The cycle name with a given pitch value. */
  function CycleNote(p: nat): (r: Note)
    ensures InCycle(r) && Pitch(r) == p
  {
    var o := p / 12;
    var i := p % 12;
    if i == 0 then Note(C, Natural, o)
    else if i == 1 then Note(C, Sharp, o)
    else if i == 2 then Note(D, Natural, o)
    else if i == 3 then Note(D, Sharp, o)
    else if i == 4 then Note(E, Natural, o)
    else if i == 5 then Note(E, Sharp, o)
    else if i == 6 then Note(F, Sharp, o)
    else if i == 7 then Note(G, Natural, o)
    else if i == 8 then Note(G, Sharp, o)
    else if i == 9 then Note(A, Natural, o)
    else if i == 10 then Note(A, Sharp, o)
    else Note(B, Natural, o)
  }

  /** A cycle name is determined by its pitch value. */
  lemma CycleNoteOfPitch(n: Note)
    requires InCycle(n)
    ensures 0 <= Pitch(n) && CycleNote(Pitch(n)) == n
  {
    CanonicalOctave(n);
    var off := LetterIndex(n.letter) + AccidentalOffset(n.accidental);
    assert Pitch(n) % 12 == off;
  }

  /** Twelve semitones higher in the cycle is the same name one octave up. */
  lemma CycleNoteOctave(p: nat)
    ensures CycleNote(p + 12) == CycleNote(p).(octave := CycleNote(p).octave + 1)
  {
    assert (p + 12) / 12 == p / 12 + 1;
    assert (p + 12) % 12 == p % 12;
  }

  /** Steps never leave the cycle. */
  lemma {:induction false} StepsUpInCycle(n: Note, k: nat)
    requires InCycle(n)
    ensures InCycle(StepsUp(n, k))
    decreases k
  {
    if k > 0 {
      StepsUpInCycle(StepUp(n), k - 1);
    }
  }

  /** From a cycle name, `k` steps reach the cycle name `k` semitones higher. */
  lemma StepsUpFromCycle(n: Note, k: nat)
    requires InCycle(n)
    ensures 0 <= Pitch(n) && StepsUp(n, k) == CycleNote(Pitch(n) + k)
  {
    StepsUpInCycle(n, k);
    CycleNoteOfPitch(n);
    CycleNoteOfPitch(StepsUp(n, k));
  }

  /** From a cycle name, `k + 12` steps give the name `k` steps give, one octave higher. */
  lemma TwelveStepPeriodic(n: Note, k: nat)
    requires InCycle(n)
    ensures StepsUp(n, k + 12) == StepsUp(n, k).(octave := StepsUp(n, k).octave + 1)
  {
    var m := StepsUp(n, k);
    var m' := StepsUp(n, k + 12);
    StepsUpInCycle(n, k);
    StepsUpInCycle(n, k + 12);
    CycleNoteOfPitch(m);
    CycleNoteOfPitch(m');
    CycleNoteOctave(Pitch(m));
  }

  /** Any note reaches the cycle within two steps, so periodicity holds from there on. */
  lemma TwelveStepPeriodicAfterTwo(n: Note, k: nat)
    requires k >= 2
    ensures StepsUp(n, k + 12) == StepsUp(n, k).(octave := StepsUp(n, k).octave + 1)
  {
    var m := StepUp(StepUp(n));
    assert InCycle(m);
    assert StepsUp(n, k) == StepsUp(m, k - 2);
    assert StepsUp(n, k + 12) == StepsUp(m, k - 2 + 12);
    TwelveStepPeriodic(m, k - 2);
  }

  /** A natural F is the one canonical name outside the cycle: twelve steps from F
      reach E# one octave up, not F. */
  lemma FNaturalNotPeriodic(o: nat)
    ensures StepsUp(Note(F, Natural, o), 12) == Note(E, Sharp, o + 1)
  {
    var fs := Note(F, Sharp, o);
    var r := StepsUp(fs, 11);
    assert StepsUp(Note(F, Natural, o), 12) == r;
    StepsUpInCycle(fs, 11);
    CycleNoteOfPitch(r);
    assert Pitch(r) == 12 * (o + 1) + 5;
  }

  /** Flats and B# leave the cycle on their first step and never come back to their
      own spelling: twelve steps from C flat reach B, and from B# reach C. */
  lemma FlatAndBSharpNotPeriodic(o: nat)
    ensures StepsUp(Note(C, Flat, o + 1), 12) == Note(B, Natural, o + 1)
    ensures StepsUp(Note(B, Sharp, o), 12) == Note(C, Natural, o + 2)
  {
    var c := Note(C, Natural, o + 1);
    assert StepsUp(Note(C, Flat, o + 1), 12) == StepsUp(c, 11);
    StepsUpInCycle(c, 11);
    CycleNoteOfPitch(StepsUp(c, 11));
    assert Pitch(StepsUp(c, 11)) == 12 * (o + 1) + 11;
    var cs := Note(C, Sharp, o + 1);
    assert StepsUp(Note(B, Sharp, o), 12) == StepsUp(cs, 11);
    StepsUpInCycle(cs, 11);
    CycleNoteOfPitch(StepsUp(cs, 11));
    assert Pitch(StepsUp(cs, 11)) == 12 * (o + 2);
  }

  /** On text: from a readable cycle name, raising by `k + 12` gives the text of
      raising by `k` with the octave one higher. */
  lemma TwelveStepPeriodicName(n: Note, k: nat)
    requires InCycle(n) && Pitch(n) + k + 12 <= 120
    ensures PitchedUpBy(Name(n), k + 12) == Name(StepsUp(n, k).(octave := StepsUp(n, k).octave + 1))
  {
    assert SingleDigitOctave(n) by {
      CanonicalOctave(n);
    }
    TwelveStepPeriodic(n, k);
    PitchedUpByName(n, k + 12);
  }

  /** On text: a natural F raised by 12 is E# one octave up, not F. */
  lemma FNaturalNotPeriodicName(o: nat)
    requires o <= 8
    ensures PitchedUpBy(Name(Note(F, Natural, o)), 12) == Name(Note(E, Sharp, o + 1))
  {
    PitchedUpByName(Note(F, Natural, o), 12);
    FNaturalNotPeriodic(o);
  }

  /** E2 raised by 5 is A2 and by 1 is E#2. */
  lemma PitchedUpByFromE2()
    ensures PitchedUpBy("E2", 5) == "A2"
    ensures PitchedUpBy("E2", 1) == "E#2"
  {
  }

  /** G3 raised by 4 is B3, and B3 raised by 1 is C4. */
  lemma PitchedUpByFromG3()
    ensures PitchedUpBy("G3", 4) == "B3"
    ensures PitchedUpBy("B3", 1) == "C4"
  {
  }
}
