/**
 * The background-music half of audio.js: note pitches, the melody table,
 * the scheduling of one pass over a melody, and the `AudioManager` object
 * that owns the audio context, the mute flag and the repeating BGM timer.
 *
 * Web Audio itself is outside the model: a scheduled note is recorded in
 * `AudioManager.played` instead of driving an oscillator, the context clock
 * is a parameter, and `setInterval` timers are a map from handle to loop.
 * Frequencies `440 * 2^(k/12)` Hz are represented by the exponent `k`.
 */
module Audio {
  import opened Wrappers

  /** A note's pitch: `Silent` is the frequency 0 that is never played; `Tone(k)` is `k` semitones from A4 (440 Hz). */
  datatype Pitch = Silent | Tone(fromA4: int)

  /** A melody entry's note as the table writes it: a rest (the literal 0) or `N(name, octave)`. */
  datatype Key = Rest | N(name: string, octave: int)

  datatype Note = Note(key: Key, beats: real)

  datatype Melody = Melody(tempo: int, lead: seq<Note>, bass: seq<Note>)

  /** Semitone of a note name within its octave, C = 0 ... B = 11; unknown names have none. */
  function Semitone(name: string): (s: Option<int>)
    ensures s.Some? ==> 0 <= s.value < 12
  {
    if name == "C" then Some(0) else if name == "C#" then Some(1)
    else if name == "D" then Some(2) else if name == "D#" then Some(3)
    else if name == "E" then Some(4) else if name == "F" then Some(5)
    else if name == "F#" then Some(6) else if name == "G" then Some(7)
    else if name == "G#" then Some(8) else if name == "A" then Some(9)
    else if name == "A#" then Some(10) else if name == "B" then Some(11)
    else None
  }

  /** The name of semitone `s` of an octave. */
  function NoteName(s: int): string
    requires 0 <= s < 12
  {
    ["C", "C#", "D", "D#", "E", "F", "F#", "G", "G#", "A", "A#", "B"][s]
  }

  /** `noteFreq(note, octave)`: 0 (silent) for an unknown name, else `440 * 2^((s - 9)/12 + octave - 4)`. */
  function NoteFreq(name: string, octave: int): (p: Pitch)
    ensures Semitone(name).None? <==> p == Silent
    ensures name == "A" && octave == 4 ==> p == Tone(0)
  {
    match Semitone(name)
    case None => Silent
    case Some(s) => Tone(s - 9 + 12 * (octave - 4))
  }

  /** Name and octave of a tone: the inverse of `NoteFreq` on known names. */
  function NameAndOctave(k: int): (string, int)
  {
    (NoteName((k + 9) % 12), (k + 9) / 12 + 4)
  }

  /** Every tone has exactly one spelling: `NoteFreq` and `NameAndOctave` are inverse. */
  lemma NoteFreqRoundTrip(name: string, octave: int, k: int)
    ensures Semitone(name).Some? ==> NameAndOctave(NoteFreq(name, octave).fromA4) == (name, octave)
    ensures NoteFreq(NameAndOctave(k).0, NameAndOctave(k).1) == Tone(k)
  {
    if Semitone(name).Some? {
      var s := Semitone(name).value;
      var k' := s - 9 + 12 * (octave - 4);
      assert k' + 9 == s + 12 * (octave - 4);
      assert (k' + 9) % 12 == s && (k' + 9) / 12 == octave - 4;
    }
    var s := (k + 9) % 12;
    assert Semitone(NoteName(s)) == Some(s);
  }

  /** The pitch an entry sounds at: a rest is silent, `N(name, octave)` is `noteFreq(name, octave)`. */
  function KeyPitch(k: Key): Pitch
  {
    match k
    case Rest => Silent
    case N(name, octave) => NoteFreq(name, octave)
  }

  /** One octave up is twelve semitones up, i.e. twice the frequency. */
  lemma OctaveDoubles(name: string, octave: int)
    requires Semitone(name).Some?
    ensures NoteFreq(name, octave + 1).fromA4 == NoteFreq(name, octave).fromA4 + 12
  {
  }

  // ---------------- the melody table ----------------

  /** `title`, 140 bpm. */
  const TitleTheme: Melody := Melody(140,
    [
      Note(N("E", 4), 0.5), Note(N("G", 4), 0.5), Note(N("B", 4), 0.5), Note(N("E", 5), 1.0),
      Note(N("D", 5), 0.5), Note(N("B", 4), 0.5), Note(N("G", 4), 1.0), Note(N("C", 4), 0.5),
      Note(N("E", 4), 0.5), Note(N("G", 4), 0.5), Note(N("C", 5), 1.0), Note(N("B", 4), 0.5),
      Note(N("G", 4), 0.5), Note(N("E", 4), 1.0), Note(N("A", 3), 0.5), Note(N("C", 4), 0.5),
      Note(N("E", 4), 0.5), Note(N("A", 4), 1.0), Note(N("G", 4), 0.5), Note(N("E", 4), 0.5),
      Note(N("C", 4), 1.0), Note(N("F", 4), 0.5), Note(N("A", 4), 0.5), Note(N("C", 5), 0.5),
      Note(N("B", 4), 1.5)],
    [
      Note(N("E", 2), 2.0), Note(N("E", 2), 2.0), Note(N("C", 2), 2.0), Note(N("C", 2), 2.0),
      Note(N("A", 1), 2.0), Note(N("A", 1), 2.0), Note(N("F", 2), 2.0), Note(N("G", 2), 2.0)])

  /** `park`, 150 bpm. */
  const ParkTheme: Melody := Melody(150,
    [
      Note(N("C", 4), 0.5), Note(N("E", 4), 0.5), Note(N("G", 4), 1.0), Note(N("E", 4), 0.5),
      Note(N("G", 4), 0.5), Note(N("A", 4), 1.0), Note(N("G", 4), 0.5), Note(N("E", 4), 0.5),
      Note(N("F", 4), 0.5), Note(N("A", 4), 0.5), Note(N("G", 4), 1.0), Note(N("E", 4), 0.5),
      Note(N("C", 4), 0.5), Note(N("D", 4), 1.0), Note(N("E", 4), 0.5), Note(N("C", 4), 0.5),
      Note(N("C", 4), 0.5), Note(N("E", 4), 0.5), Note(N("G", 4), 1.0), Note(N("C", 5), 1.0),
      Note(N("B", 4), 0.5), Note(N("A", 4), 0.5), Note(N("G", 4), 1.0), Note(N("F", 4), 0.5),
      Note(N("E", 4), 0.5), Note(N("D", 4), 0.5), Note(N("C", 4), 1.5)],
    [
      Note(N("C", 2), 2.0), Note(N("G", 2), 2.0), Note(N("F", 2), 2.0), Note(N("C", 2), 2.0),
      Note(N("C", 2), 2.0), Note(N("G", 2), 2.0), Note(N("F", 2), 1.0), Note(N("G", 2), 1.0),
      Note(N("C", 2), 2.0)])

  /** `cafe`, 120 bpm. */
  const CafeTheme: Melody := Melody(120,
    [
      Note(N("E", 4), 1.0), Note(N("D", 4), 0.5), Note(N("E", 4), 0.5), Note(N("G", 4), 1.0),
      Note(N("A", 4), 1.0), Note(N("G", 4), 1.0), Note(N("E", 4), 0.5), Note(N("D", 4), 0.5),
      Note(N("C", 4), 2.0), Note(N("D", 4), 1.0), Note(N("E", 4), 0.5), Note(N("F", 4), 0.5),
      Note(N("E", 4), 1.0), Note(N("D", 4), 1.0), Note(N("C", 4), 1.0), Note(N("D", 4), 0.5),
      Note(N("E", 4), 0.5), Note(N("C", 4), 2.0)],
    [
      Note(N("C", 2), 2.0), Note(N("A", 1), 2.0), Note(N("F", 2), 2.0), Note(N("G", 2), 2.0),
      Note(N("C", 2), 2.0), Note(N("A", 1), 2.0), Note(N("F", 2), 2.0), Note(N("G", 2), 2.0)])

  /** `beach`, 130 bpm. */
  const BeachTheme: Melody := Melody(130,
    [
      Note(N("G", 4), 1.0), Note(N("A", 4), 0.5), Note(N("B", 4), 0.5), Note(N("C", 5), 1.5),
      Note(Rest, 0.5), Note(N("B", 4), 0.5), Note(N("A", 4), 0.5), Note(N("G", 4), 1.0),
      Note(N("E", 4), 1.5), Note(Rest, 0.5), Note(N("F", 4), 0.5), Note(N("G", 4), 0.5),
      Note(N("A", 4), 1.0), Note(N("G", 4), 0.5), Note(N("F", 4), 0.5), Note(N("E", 4), 1.0),
      Note(N("D", 4), 0.5), Note(N("E", 4), 1.5)],
    [
      Note(N("C", 2), 2.0), Note(N("G", 2), 2.0), Note(N("A", 1), 2.0), Note(N("E", 2), 2.0),
      Note(N("F", 2), 2.0), Note(N("C", 2), 2.0), Note(N("G", 2), 2.0), Note(N("C", 2), 2.0)])

  /** `garden`, 140 bpm. */
  const GardenTheme: Melody := Melody(140,
    [
      Note(N("C", 5), 0.5), Note(N("B", 4), 0.5), Note(N("A", 4), 0.5), Note(N("G", 4), 1.5),
      Note(N("A", 4), 0.5), Note(N("B", 4), 0.5), Note(N("C", 5), 1.5), Note(Rest, 0.5),
      Note(N("E", 4), 0.5), Note(N("G", 4), 0.5), Note(N("A", 4), 0.5), Note(N("C", 5), 1.0),
      Note(N("B", 4), 0.5), Note(N("A", 4), 0.5), Note(N("G", 4), 1.5), Note(N("F", 4), 0.5),
      Note(N("A", 4), 0.5), Note(N("G", 4), 0.5), Note(N("E", 4), 1.5), Note(N("D", 4), 0.5),
      Note(N("E", 4), 0.5), Note(N("C", 4), 2.0)],
    [
      Note(N("C", 2), 2.0), Note(N("E", 2), 2.0), Note(N("A", 1), 2.0), Note(N("C", 2), 2.0),
      Note(N("F", 2), 2.0), Note(N("G", 2), 2.0), Note(N("C", 2), 2.0), Note(N("C", 2), 2.0)])

  /** `mountain`, 135 bpm. */
  const MountainTheme: Melody := Melody(135,
    [
      Note(N("E", 4), 1.0), Note(N("G", 4), 0.5), Note(N("A", 4), 0.5), Note(N("B", 4), 1.0),
      Note(N("A", 4), 1.0), Note(N("G", 4), 1.0), Note(N("E", 4), 0.5), Note(N("D", 4), 0.5),
      Note(N("E", 4), 2.0), Note(N("A", 4), 1.0), Note(N("B", 4), 0.5), Note(N("C", 5), 0.5),
      Note(N("B", 4), 1.0), Note(N("A", 4), 1.0), Note(N("G", 4), 1.0), Note(N("A", 4), 0.5),
      Note(N("G", 4), 0.5), Note(N("E", 4), 2.0)],
    [
      Note(N("A", 1), 2.0), Note(N("E", 2), 2.0), Note(N("A", 1), 2.0), Note(N("E", 2), 2.0),
      Note(N("F", 2), 2.0), Note(N("C", 2), 2.0), Note(N("G", 2), 2.0), Note(N("A", 1), 2.0)])

  /** `sky`, 110 bpm. */
  const SkyTheme: Melody := Melody(110,
    [
      Note(N("E", 5), 1.5), Note(N("D", 5), 0.5), Note(N("C", 5), 1.0), Note(N("B", 4), 1.0),
      Note(N("C", 5), 1.5), Note(N("B", 4), 0.5), Note(N("A", 4), 1.0), Note(N("G", 4), 1.0),
      Note(N("A", 4), 1.0), Note(N("B", 4), 0.5), Note(N("C", 5), 0.5), Note(N("D", 5), 1.0),
      Note(N("E", 5), 1.5), Note(N("C", 5), 0.5), Note(N("G", 4), 2.0), Note(N("F", 4), 0.5),
      Note(N("A", 4), 0.5), Note(N("C", 5), 1.0), Note(N("E", 5), 1.0), Note(N("D", 5), 0.5),
      Note(N("B", 4), 0.5), Note(N("G", 4), 1.0), Note(N("C", 5), 2.0)],
    [
      Note(N("C", 2), 2.0), Note(N("G", 2), 2.0), Note(N("A", 1), 2.0), Note(N("E", 2), 2.0),
      Note(N("F", 2), 2.0), Note(N("G", 2), 2.0), Note(N("C", 2), 2.0), Note(N("C", 2), 2.0)])

  /** `istanbul`, 130 bpm. */
  const IstanbulTheme: Melody := Melody(130, IstanbulLead, IstanbulBass)

  /** The `istanbul` lead: two nine-note phrases. */
  const IstanbulLead: seq<Note> := IstanbulCall + IstanbulAnswer

  const IstanbulCall: seq<Note> :=
    [
      Note(N("E", 4), 1.0), Note(N("F", 4), 0.5), Note(N("G", 4), 0.5), Note(N("A", 4), 1.5),
      Note(Rest, 0.5), Note(N("G", 4), 0.5), Note(N("F", 4), 0.5), Note(N("E", 4), 1.0),
      Note(N("D", 4), 1.5)]

  const IstanbulAnswer: seq<Note> :=
    [
      Note(Rest, 0.5), Note(N("C", 4), 0.5), Note(N("D", 4), 0.5),
      Note(N("E", 4), 1.0), Note(N("G", 4), 0.5), Note(N("F", 4), 0.5), Note(N("E", 4), 1.0),
      Note(N("D", 4), 0.5), Note(N("E", 4), 1.5)]

  const IstanbulBass: seq<Note> :=
    [
      Note(N("A", 1), 2.0), Note(N("E", 2), 2.0), Note(N("A", 1), 2.0), Note(N("D", 2), 2.0),
      Note(N("F", 2), 2.0), Note(N("C", 2), 2.0), Note(N("G", 2), 2.0), Note(N("A", 1), 2.0)]

  /** `baku`, 140 bpm. */
  const BakuTheme: Melody := Melody(140,
    [
      Note(N("A", 4), 1.0), Note(N("B", 4), 0.5), Note(N("C", 5), 0.5), Note(N("B", 4), 1.0),
      Note(N("A", 4), 1.0), Note(N("G", 4), 1.0), Note(N("A", 4), 0.5), Note(N("B", 4), 0.5),
      Note(N("A", 4), 2.0), Note(N("E", 4), 0.5), Note(N("G", 4), 0.5), Note(N("A", 4), 1.0),
      Note(N("C", 5), 1.0), Note(N("B", 4), 0.5), Note(N("A", 4), 0.5), Note(N("G", 4), 1.0),
      Note(N("A", 4), 1.5), Note(Rest, 0.5)],
    [
      Note(N("A", 1), 2.0), Note(N("E", 2), 2.0), Note(N("A", 1), 2.0), Note(N("C", 2), 2.0),
      Note(N("F", 2), 2.0), Note(N("G", 2), 2.0), Note(N("A", 1), 2.0), Note(N("E", 2), 2.0)])

  /** `cappadocia`, 125 bpm. */
  const CappadociaTheme: Melody := Melody(125,
    [
      Note(N("G", 4), 1.0), Note(N("A", 4), 0.5), Note(N("B", 4), 0.5), Note(N("C", 5), 1.5),
      Note(Rest, 0.5), Note(N("B", 4), 0.5), Note(N("A", 4), 0.5), Note(N("G", 4), 1.0),
      Note(N("E", 4), 1.5), Note(Rest, 0.5), Note(N("F", 4), 0.5), Note(N("G", 4), 0.5),
      Note(N("A", 4), 1.0), Note(N("G", 4), 0.5), Note(N("F", 4), 0.5), Note(N("E", 4), 1.0),
      Note(N("D", 4), 0.5), Note(N("E", 4), 1.5)],
    [
      Note(N("C", 2), 2.0), Note(N("G", 2), 2.0), Note(N("A", 1), 2.0), Note(N("E", 2), 2.0),
      Note(N("F", 2), 2.0), Note(N("C", 2), 2.0), Note(N("G", 2), 2.0), Note(N("C", 2), 2.0)])

  /** `memory`, 100 bpm. */
  const MemoryTheme: Melody := Melody(100,
    [
      Note(N("E", 4), 1.5), Note(N("G", 4), 0.5), Note(N("A", 4), 1.5), Note(Rest, 0.5),
      Note(N("G", 4), 1.0), Note(N("E", 4), 0.5), Note(N("D", 4), 0.5), Note(N("C", 4), 2.0),
      Note(N("D", 4), 1.0), Note(N("E", 4), 0.5), Note(N("F", 4), 0.5), Note(N("E", 4), 2.0),
      Note(N("C", 4), 1.0), Note(N("D", 4), 0.5), Note(N("E", 4), 0.5), Note(N("C", 4), 2.0)],
    [
      Note(N("A", 1), 2.0), Note(N("C", 2), 2.0), Note(N("F", 2), 2.0), Note(N("G", 2), 2.0),
      Note(N("A", 1), 2.0), Note(N("E", 2), 2.0), Note(N("F", 2), 2.0), Note(N("C", 2), 2.0)])

  /** `finale`, 95 bpm. */
  const FinaleTheme: Melody := Melody(95,
    [
      Note(N("C", 4), 1.0), Note(N("E", 4), 1.0), Note(N("G", 4), 1.0), Note(N("C", 5), 2.0),
      Note(N("B", 4), 0.5), Note(N("A", 4), 0.5), Note(N("G", 4), 1.0), Note(N("E", 4), 1.5),
      Note(Rest, 0.5), Note(N("F", 4), 1.0), Note(N("A", 4), 1.0), Note(N("C", 5), 1.0),
      Note(N("E", 5), 2.0), Note(N("D", 5), 0.5), Note(N("C", 5), 0.5), Note(N("B", 4), 1.0),
      Note(N("C", 5), 2.0), Note(Rest, 1.0), Note(N("A", 4), 1.0), Note(N("C", 5), 1.0),
      Note(N("E", 5), 2.0), Note(N("D", 5), 1.0), Note(N("C", 5), 1.0), Note(N("A", 4), 1.0),
      Note(N("G", 4), 2.0), Note(N("F", 4), 1.0), Note(N("E", 4), 1.0), Note(N("D", 4), 1.0),
      Note(N("C", 4), 3.0)],
    [
      Note(N("C", 2), 2.0), Note(N("E", 2), 2.0), Note(N("F", 2), 2.0), Note(N("C", 2), 2.0),
      Note(N("F", 2), 2.0), Note(N("A", 1), 2.0), Note(N("G", 2), 2.0), Note(N("C", 2), 2.0),
      Note(N("A", 1), 2.0), Note(N("F", 2), 2.0), Note(N("G", 2), 2.0), Note(N("C", 2), 4.0)])

  /** The themes that have their own melody. */
  const MelodyThemes: set<string> :=
    {"title", "park", "cafe", "beach", "garden", "mountain", "sky",
     "istanbul", "baku", "cappadocia", "memory", "finale"}

  /** `getMelody(theme)`: the theme's melody, `istanbul`'s for any other name. */
  function GetMelody(theme: string): (m: Melody)
    ensures m.tempo > 0
    ensures theme !in MelodyThemes ==> m == IstanbulTheme
    ensures theme == "title" ==> m == TitleTheme
    ensures theme == "memory" ==> m == MemoryTheme
    ensures theme == "finale" ==> m == FinaleTheme
  {
    if theme == "title" then TitleTheme
    else if theme == "park" then ParkTheme
    else if theme == "cafe" then CafeTheme
    else if theme == "beach" then BeachTheme
    else if theme == "garden" then GardenTheme
    else if theme == "mountain" then MountainTheme
    else if theme == "sky" then SkyTheme
    else if theme == "istanbul" then IstanbulTheme
    else if theme == "baku" then BakuTheme
    else if theme == "cappadocia" then CappadociaTheme
    else if theme == "memory" then MemoryTheme
    else if theme == "finale" then FinaleTheme
    else IstanbulTheme
  }

  // ---------------- scheduling one pass ----------------

  /** Fraction of its slot a note sounds for: lead notes 0.9, bass notes 0.85. */
  const LEAD_GATE: real := 0.9
  const BASS_GATE: real := 0.85

  datatype Voice = LeadVoice | BassVoice

  /** A note handed to the audio output: voice, pitch, start time and length in seconds. */
  datatype Played = Played(voice: Voice, fromA4: int, start: real, duration: real)

  /** Seconds per beat. */
  function BeatDuration(tempo: int): (d: real)
    requires tempo > 0
    ensures d > 0.0
  {
    60.0 / tempo as real
  }

  /** The slot a note takes, in seconds (`beats * beatDur`). */
  function SlotLength(n: Note, beatDur: real): real
  {
    n.beats * beatDur
  }

  /** How long a note sounds: `gate` of its slot. */
  function Gated(slot: real, gate: real): real
  {
    slot * gate
  }

  /** With non-negative beats and tempo, a slot is non-negative and a gated note fits in its slot. */
  lemma SlotBounds(n: Note, beatDur: real, gate: real)
    requires n.beats >= 0.0 && beatDur >= 0.0 && 0.0 <= gate <= 1.0
    ensures SlotLength(n, beatDur) >= 0.0
    ensures 0.0 <= Gated(SlotLength(n, beatDur), gate)
    ensures Gated(SlotLength(n, beatDur), gate) <= SlotLength(n, beatDur)
  {
    var s := n.beats * beatDur;
    assert s >= 0.0;
    assert s * gate >= 0.0;
    assert s * (1.0 - gate) >= 0.0;
  }

  /** Total length of a voice, in beats. */
  function SumBeats(notes: seq<Note>): real
  {
    if notes == [] then 0.0 else SumBeats(notes[..|notes| - 1]) + notes[|notes| - 1].beats
  }

  /** Total length of a voice, in seconds: where the scheduling loop's clock ends up. */
  function Span(notes: seq<Note>, beatDur: real): real
  {
    if notes == [] then 0.0 else Span(notes[..|notes| - 1], beatDur) + SlotLength(notes[|notes| - 1], beatDur)
  }

  /**
   * The notes a pass over one voice plays, starting at `start`: each note
   * starts where the previous slots end and sounds for `gate` of its slot;
   * silent notes only take their slot.
   */
  function Schedule(notes: seq<Note>, voice: Voice, start: real, beatDur: real, gate: real): seq<Played>
  {
    if notes == [] then []
    else
      var init := notes[..|notes| - 1];
      var last := notes[|notes| - 1];
      Schedule(init, voice, start, beatDur, gate) +
        (if KeyPitch(last.key).Silent? then []
         else [Played(voice, KeyPitch(last.key).fromA4, start + Span(init, beatDur), Gated(SlotLength(last, beatDur), gate))])
  }

  predicate NonNegativeBeats(notes: seq<Note>)
  {
    forall i :: 0 <= i < |notes| ==> notes[i].beats >= 0.0
  }

  /** Adding up the slots one by one gives the beat total times the beat length (the fallback's formula). */
  lemma {:induction false} SpanIsBeats(notes: seq<Note>, beatDur: real)
    ensures Span(notes, beatDur) == SumBeats(notes) * beatDur
  {
    if notes != [] {
      var init := notes[..|notes| - 1];
      SpanIsBeats(init, beatDur);
      Distribute(SumBeats(init), notes[|notes| - 1].beats, beatDur);
    }
  }

  lemma Distribute(a: real, b: real, d: real)
    ensures (a + b) * d == a * d + b * d
  {
  }

  lemma {:induction false} SpanNonNegative(notes: seq<Note>, beatDur: real)
    requires NonNegativeBeats(notes) && beatDur >= 0.0
    ensures Span(notes, beatDur) >= 0.0
  {
    if notes != [] {
      var init := notes[..|notes| - 1];
      assert NonNegativeBeats(init) by {
        forall i | 0 <= i < |init| ensures init[i].beats >= 0.0 {
          assert init[i] == notes[i];
        }
      }
      SpanNonNegative(init, beatDur);
      SlotBounds(notes[|notes| - 1], beatDur, 0.0);
    }
  }

  /** Notes all within `[start, end]`, each ending before the next starts. */
  predicate FitsIn(ps: seq<Played>, start: real, end: real)
  {
    && (forall i :: 0 <= i < |ps| ==> start <= ps[i].start && 0.0 <= ps[i].duration && End(ps[i]) <= end)
    && (forall i, j :: 0 <= i < j < |ps| ==> End(ps[i]) <= ps[j].start)
  }

  /** When a played note stops sounding. */
  function End(p: Played): real
  {
    p.start + p.duration
  }

  lemma FitsExtend(ps: seq<Played>, start: real, end0: real, e: Played, end1: real)
    requires FitsIn(ps, start, end0) && start <= end0 && e.start == end0
    requires e.duration >= 0.0 && End(e) <= end1
    ensures FitsIn(ps + [e], start, end1)
  {
  }

  lemma FitsWiden(ps: seq<Played>, start: real, end0: real, end1: real)
    requires FitsIn(ps, start, end0) && end0 <= end1
    ensures FitsIn(ps, start, end1)
  {
  }

  /**
   * With non-negative beats and tempo and a gate of at most 1, a pass plays
   * at most one event per note, in order without overlap, all within
   * `[start, start + Span]`.
   */
  lemma {:induction false} ScheduleFits(notes: seq<Note>, voice: Voice, start: real, beatDur: real, gate: real)
    requires NonNegativeBeats(notes) && beatDur >= 0.0 && 0.0 <= gate <= 1.0
    ensures |Schedule(notes, voice, start, beatDur, gate)| <= |notes|
    ensures FitsIn(Schedule(notes, voice, start, beatDur, gate), start, start + Span(notes, beatDur))
  {
    if notes != [] {
      var init := notes[..|notes| - 1];
      var last := notes[|notes| - 1];
      assert NonNegativeBeats(init) by {
        forall i | 0 <= i < |init| ensures init[i].beats >= 0.0 {
          assert init[i] == notes[i];
        }
      }
      ScheduleFits(init, voice, start, beatDur, gate);
      SpanNonNegative(init, beatDur);
      SlotBounds(last, beatDur, gate);
      var end0 := start + Span(init, beatDur);
      var end1 := start + Span(notes, beatDur);
      var ps0 := Schedule(init, voice, start, beatDur, gate);
      if KeyPitch(last.key).Silent? {
        FitsWiden(ps0, start, end0, end1);
      } else {
        var e := Played(voice, KeyPitch(last.key).fromA4, end0, Gated(SlotLength(last, beatDur), gate));
        FitsExtend(ps0, start, end0, e, end1);
      }
    }
  }

  /** Interval between repeats, in milliseconds: the pass length, at least one second. */
  function RepeatPeriod(seconds: real): (ms: real)
    ensures ms >= 1000.0
    ensures ms >= seconds * 1000.0
    ensures seconds >= 1.0 ==> ms == seconds * 1000.0
  {
    if seconds * 1000.0 > 1000.0 then seconds * 1000.0 else 1000.0
  }

  /** As written: one pass lasts as long as its lead voice (`playSequence`'s result and the fallback). */
  function LeadSpan(m: Melody, beatDur: real): real
  {
    Span(m.lead, beatDur)
  }

  /** A pass lasts as long as its longer voice. */
  function PassSpan(m: Melody, beatDur: real): real
  {
    if Span(m.bass, beatDur) > Span(m.lead, beatDur) then Span(m.bass, beatDur) else Span(m.lead, beatDur)
  }

  /** The repeat length `playBGM` arms: the pass's result, or the lead's beats times the beat length when there is none. */
  function LoopSeconds(m: Melody, beatDur: real, dur: Option<real>): real
  {
    if dur.None? || dur.value <= 0.0 then SumBeats(m.lead) * beatDur else dur.value
  }

  /** Whether or not the pass sounded, the music repeats every lead length. */
  lemma LoopSecondsIsLeadSpan(m: Melody, beatDur: real, dur: Option<real>)
    requires dur.None? || dur == Some(LeadSpan(m, beatDur))
    ensures LoopSeconds(m, beatDur, dur) == LeadSpan(m, beatDur)
  {
    SpanIsBeats(m.lead, beatDur);
  }

  /**
   * With the pass length taken over both voices, every note of a pass (lead
   * and bass) has finished when the next pass may start; the lead-only
   * length is never longer.
   */
  lemma PassSpanCoversBothVoices(m: Melody, now: real, beatDur: real)
    requires NonNegativeBeats(m.lead) && NonNegativeBeats(m.bass) && beatDur >= 0.0
    ensures FitsIn(Schedule(m.lead, LeadVoice, now, beatDur, LEAD_GATE), now, now + PassSpan(m, beatDur))
    ensures FitsIn(Schedule(m.bass, BassVoice, now, beatDur, BASS_GATE), now, now + PassSpan(m, beatDur))
    ensures LeadSpan(m, beatDur) <= PassSpan(m, beatDur)
  {
    ScheduleFits(m.lead, LeadVoice, now, beatDur, LEAD_GATE);
    ScheduleFits(m.bass, BassVoice, now, beatDur, BASS_GATE);
    var end := now + PassSpan(m, beatDur);
    FitsWiden(Schedule(m.lead, LeadVoice, now, beatDur, LEAD_GATE), now, now + Span(m.lead, beatDur), end);
    FitsWiden(Schedule(m.bass, BassVoice, now, beatDur, BASS_GATE), now, now + Span(m.bass, beatDur), end);
  }

  lemma SumBeatsSnoc(notes: seq<Note>, k: nat)
    requires k < |notes|
    ensures SumBeats(notes[..k + 1]) == SumBeats(notes[..k]) + notes[k].beats
  {
    assert notes[..k + 1][..k] == notes[..k];
  }

  /**
   * The `istanbul` melody (also the one unknown themes fall back to) has 14
   * beats of lead and 16 of bass. The music timer repeats every lead length,
   * so the last bass note of a pass starts exactly when the next pass does and
   * is still sounding then.
   */
  lemma IstanbulBassOutlastsLeadSpan(now: real)
    ensures var bd := BeatDuration(IstanbulTheme.tempo);
      var bass := Schedule(IstanbulTheme.bass, BassVoice, now, bd, BASS_GATE);
      && LeadSpan(IstanbulTheme, bd) < Span(IstanbulTheme.bass, bd)
      && |bass| == 8
      && bass[7].start == now + LeadSpan(IstanbulTheme, bd)
      && End(bass[7]) > now + LeadSpan(IstanbulTheme, bd)
      && RepeatPeriod(LeadSpan(IstanbulTheme, bd)) == LeadSpan(IstanbulTheme, bd) * 1000.0
  {
    var bd := BeatDuration(IstanbulTheme.tempo);
    var bassNotes := IstanbulTheme.bass;
    var init := bassNotes[..7];
    IstanbulLeadBeats();
    IstanbulBassBeats();
    SpanIsBeats(IstanbulTheme.lead, bd);
    SpanIsBeats(init, bd);
    SpanIsBeats(bassNotes, bd);
    var last := bassNotes[7];
    assert SlotLength(last, bd) == 2.0 * bd;
    GatedPositive(SlotLength(last, bd), BASS_GATE);
    var e := Played(BassVoice, KeyPitch(last.key).fromA4, now + Span(init, bd), Gated(SlotLength(last, bd), BASS_GATE));
    assert bassNotes[..|bassNotes| - 1] == init;
    assert Schedule(bassNotes, BassVoice, now, bd, BASS_GATE) == Schedule(init, BassVoice, now, bd, BASS_GATE) + [e];
    ScheduleLength(init, BassVoice, now, bd, BASS_GATE);
  }

  lemma GatedPositive(slot: real, gate: real)
    requires slot > 0.0 && gate > 0.0
    ensures Gated(slot, gate) > 0.0
  {
  }

  /** The `istanbul` lead lasts 14 beats. */
  lemma IstanbulLeadBeats()
    ensures SumBeats(IstanbulTheme.lead) == 14.0
  {
    IstanbulCallBeats();
    IstanbulAnswerBeats();
    SumBeatsAppend(IstanbulCall, IstanbulAnswer);
  }

  /** Beats add up over a concatenation. */
  lemma {:induction false} SumBeatsAppend(a: seq<Note>, b: seq<Note>)
    ensures SumBeats(a + b) == SumBeats(a) + SumBeats(b)
    decreases |b|
  {
    if b != [] {
      var init := b[..|b| - 1];
      SumBeatsAppend(a, init);
      assert (a + b)[..|a + b| - 1] == a + init;
    } else {
      assert a + b == a;
    }
  }

  /** The first phrase of the `istanbul` lead lasts 7.5 beats. */
  lemma IstanbulCallBeats()
    ensures SumBeats(IstanbulCall) == 7.5
  {
    var ns := IstanbulCall;
    assert SumBeats(ns[..0]) == 0.0;
    SumBeatsSnoc(ns, 0); SumBeatsSnoc(ns, 1); SumBeatsSnoc(ns, 2);
    SumBeatsSnoc(ns, 3); SumBeatsSnoc(ns, 4); SumBeatsSnoc(ns, 5);
    SumBeatsSnoc(ns, 6); SumBeatsSnoc(ns, 7); SumBeatsSnoc(ns, 8);
    assert ns[..9] == ns;
  }

  /** The second phrase of the `istanbul` lead lasts 6.5 beats. */
  lemma IstanbulAnswerBeats()
    ensures SumBeats(IstanbulAnswer) == 6.5
  {
    var ns := IstanbulAnswer;
    assert SumBeats(ns[..0]) == 0.0;
    SumBeatsSnoc(ns, 0); SumBeatsSnoc(ns, 1); SumBeatsSnoc(ns, 2);
    SumBeatsSnoc(ns, 3); SumBeatsSnoc(ns, 4); SumBeatsSnoc(ns, 5);
    SumBeatsSnoc(ns, 6); SumBeatsSnoc(ns, 7); SumBeatsSnoc(ns, 8);
    assert ns[..9] == ns;
  }

  /** The `istanbul` bass lasts 16 beats, its last note starting at beat 14. */
  lemma IstanbulBassBeats()
    ensures SumBeats(IstanbulTheme.bass[..7]) == 14.0
    ensures SumBeats(IstanbulTheme.bass) == 16.0
  {
    var bass := IstanbulTheme.bass;
    assert |bass| == 8;
    assert SumBeats(bass[..0]) == 0.0;
    SumBeatsSnoc(bass, 0); SumBeatsSnoc(bass, 1); SumBeatsSnoc(bass, 2); SumBeatsSnoc(bass, 3);
    SumBeatsSnoc(bass, 4); SumBeatsSnoc(bass, 5); SumBeatsSnoc(bass, 6); SumBeatsSnoc(bass, 7);
    assert bass[..8] == bass;
  }

  /** A voice with no rests plays one event per note. */
  lemma {:induction false} ScheduleLength(notes: seq<Note>, voice: Voice, start: real, beatDur: real, gate: real)
    requires forall i :: 0 <= i < |notes| ==> KeyPitch(notes[i].key).Tone?
    ensures |Schedule(notes, voice, start, beatDur, gate)| == |notes|
  {
    if notes != [] {
      var init := notes[..|notes| - 1];
      assert forall i :: 0 <= i < |init| ==> init[i] == notes[i];
      ScheduleLength(init, voice, start, beatDur, gate);
    }
  }

  // ---------------- the manager ----------------

  /** A repeating BGM timer: which theme it replays and its period in milliseconds. */
  datatype Loop = Loop(theme: string, periodMs: real)

  /**
   * `AudioManager`. `hasContext` stands for `ctx !== null`, `suspended` for
   * `ctx.state === 'suspended'`, `volume` for the master gain; `timers` holds
   * the live `setInterval` timers by handle, `played` every note scheduled.
   */
  class AudioManager {
    var hasContext: bool
    var suspended: bool
    var resumePending: bool
    var initialized: bool
    var muted: bool
    var volume: real
    var currentBGM: Option<string>
    var bgmInterval: Option<nat>
    var timers: map<nat, Loop>
    var nextHandle: nat
    var played: seq<Played>

    /**
     * At most one music timer is ever live, it is the one `bgmInterval` names,
     * it replays `currentBGM`, and music is only set up once there is a context.
     */
    ghost predicate Valid()
      reads this
    {
      && (bgmInterval.Some? <==> currentBGM.Some?)
      && (bgmInterval.None? ==> timers == map[])
      && (bgmInterval.Some? ==> timers.Keys == {bgmInterval.value} && timers[bgmInterval.value].theme == currentBGM.value)
      && (currentBGM.Some? ==> hasContext)
      && nextHandle > 0
      && (forall h :: h in timers ==> 0 < h < nextHandle)
      && (hasContext <==> initialized)
      && (!hasContext ==> !suspended && !resumePending)
    }

    constructor()
      ensures Valid()
      ensures !hasContext && !initialized && !muted && currentBGM.None? && timers == map[] && played == []
    {
      hasContext, suspended, resumePending, initialized, muted := false, false, false, false, false;
      volume := 0.0;
      currentBGM, bgmInterval := None, None;
      timers := map[];
      nextHandle := 1;
      played := [];
    }

    /**
     * `init()`: once only; creates the context (`available`: the browser has Web
     * Audio), which may start suspended, and sets the master gain to 0.3.
     */
    method Init(available: bool, startsSuspended: bool)
      requires Valid()
      modifies this
      ensures Valid()
      ensures old(initialized) || !available ==> unchanged(this)
      ensures !old(initialized) && available ==>
                initialized && hasContext && suspended == startsSuspended && !resumePending && volume == 0.3 &&
                muted == old(muted) && currentBGM == old(currentBGM) && timers == old(timers) &&
                bgmInterval == old(bgmInterval) && played == old(played) && nextHandle == old(nextHandle)
    {
      if initialized || !available {
        return;
      }
      hasContext, initialized := true, true;
      suspended, resumePending := startsSuspended, false;
      volume := 0.3;
    }

    /** `resume()`: asks a suspended context to resume; the context resumes later (`ResumeSettled`). */
    method Resume()
      requires Valid()
      modifies this`resumePending
      ensures Valid()
      ensures resumePending == (old(resumePending) || (hasContext && suspended))
    {
      if hasContext && suspended {
        resumePending := true;
      }
    }

    /** The context's `resume()` promise settling: a pending resume takes effect. */
    method ResumeSettled()
      requires Valid()
      modifies this`suspended, this`resumePending
      ensures Valid()
      ensures old(resumePending) ==> !suspended && !resumePending
      ensures !old(resumePending) ==> unchanged(this)
    {
      if resumePending {
        suspended, resumePending := false, false;
      }
    }

    /**
     * `playSequence`: unless muted, without context or suspended, schedules one
     * pass of both voices from `clock + 0.1` and returns the length of its lead
     * voice in seconds (the bass may run longer).
     */
    method PlaySequence(m: Melody, clock: real) returns (span: Option<real>)
      requires m.tempo > 0
      modifies this`played
      ensures muted || !hasContext || suspended ==> span.None? && played == old(played)
      ensures !(muted || !hasContext || suspended) ==>
                var now, bd := clock + 0.1, BeatDuration(m.tempo);
                && span == Some(LeadSpan(m, bd))
                && played == old(played) + Schedule(m.lead, LeadVoice, now, bd, LEAD_GATE)
                                         + Schedule(m.bass, BassVoice, now, bd, BASS_GATE)
    {
      if muted || !hasContext || suspended {
        return None;
      }
      var now := clock + 0.1;
      var beatDur := 60.0 / m.tempo as real;
      var t := PlayVoice(m.lead, LeadVoice, now, beatDur, LEAD_GATE);
      var tb := PlayVoice(m.bass, BassVoice, now, beatDur, BASS_GATE);
      span := Some(t - now);
    }

    /**
     * One of `playSequence`'s two loops: walks a voice from `now`, hands each
     * sounding note to the output for `gate` of its slot, and returns where
     * the clock ends up.
     */
    method PlayVoice(notes: seq<Note>, voice: Voice, now: real, beatDur: real, gate: real) returns (t: real)
      modifies this`played
      ensures t == now + Span(notes, beatDur)
      ensures played == old(played) + Schedule(notes, voice, now, beatDur, gate)
    {
      t := now;
      var i := 0;
      while i < |notes|
        invariant 0 <= i <= |notes|
        invariant t == now + Span(notes[..i], beatDur)
        invariant played == old(played) + Schedule(notes[..i], voice, now, beatDur, gate)
      {
        var n := notes[i];
        var dur := SlotLength(n, beatDur);
        assert notes[..i + 1][..i] == notes[..i] && notes[..i + 1][i] == n;
        var freq := KeyPitch(n.key);
        if freq.Tone? {
          played := played + [Played(voice, freq.fromA4, t, Gated(dur, gate))];
        }
        t := t + dur;
        i := i + 1;
      }
      assert notes[..i] == notes;
    }

    /** `stopBGM()`: clears the music timer and forgets the theme. */
    method StopBGM()
      requires Valid()
      modifies this`timers, this`bgmInterval, this`currentBGM
      ensures Valid()
      ensures timers == map[] && bgmInterval.None? && currentBGM.None?
    {
      if bgmInterval.Some? {
        timers := timers - {bgmInterval.value};
        bgmInterval := None;
      }
      currentBGM := None;
    }

    /**
     * `playBGM(theme)`: without a context, nothing; otherwise the old music
     * stops, a pass starts at once and a new timer repeats it every lead
     * length (at least a second), whether or not the pass could sound.
     */
    method PlayBGM(theme: string, clock: real)
      requires Valid()
      modifies this`nextHandle, this`timers, this`bgmInterval, this`currentBGM, this`played
      ensures Valid()
      ensures !old(hasContext) ==> unchanged(this)
      ensures old(hasContext) ==>
                var m := GetMelody(theme);
                var bd := BeatDuration(m.tempo);
                && currentBGM == Some(theme)
                && bgmInterval == Some(old(nextHandle)) && nextHandle == old(nextHandle) + 1
                && timers == map[old(nextHandle) := Loop(theme, RepeatPeriod(LeadSpan(m, bd)))]
                && (muted || suspended ==> played == old(played))
                && (!muted && !suspended ==>
                      played == old(played) + Schedule(m.lead, LeadVoice, clock + 0.1, bd, LEAD_GATE)
                                            + Schedule(m.bass, BassVoice, clock + 0.1, bd, BASS_GATE))
      ensures hasContext == old(hasContext) && muted == old(muted) && suspended == old(suspended)
      ensures volume == old(volume) && initialized == old(initialized) && resumePending == old(resumePending)
    {
      if !hasContext {
        return;
      }
      StopBGM();
      var m := GetMelody(theme);
      var beatDur := 60.0 / m.tempo as real;
      var dur := PlaySequence(m, clock);
      LoopSecondsIsLeadSpan(m, beatDur, dur);
      var seconds := LoopSeconds(m, beatDur, dur);
      StartLoop(theme, seconds);
    }

    /** The `setInterval` of `playBGM`: a fresh handle repeating `theme` every `seconds` (at least one). */
    method StartLoop(theme: string, seconds: real)
      requires Valid() && hasContext && bgmInterval.None?
      modifies this`nextHandle, this`timers, this`bgmInterval, this`currentBGM
      ensures Valid()
      ensures currentBGM == Some(theme)
      ensures bgmInterval == Some(old(nextHandle)) && nextHandle == old(nextHandle) + 1
      ensures timers == map[old(nextHandle) := Loop(theme, RepeatPeriod(seconds))]
    {
      var handle := nextHandle;
      nextHandle := nextHandle + 1;
      timers := map[handle := Loop(theme, RepeatPeriod(seconds))];
      bgmInterval := Some(handle);
      currentBGM := Some(theme);
    }

    /** The music timer `handle` firing: a live timer replays its theme unless muted. */
    method TimerFired(handle: nat, clock: real)
      requires Valid()
      modifies this`played
      ensures Valid()
      ensures handle !in timers || muted || suspended ==> played == old(played)
      ensures handle in timers && !muted && !suspended ==>
                var m := GetMelody(timers[handle].theme);
                var bd := BeatDuration(m.tempo);
                played == old(played) + Schedule(m.lead, LeadVoice, clock + 0.1, bd, LEAD_GATE)
                                      + Schedule(m.bass, BassVoice, clock + 0.1, bd, BASS_GATE)
    {
      if handle in timers && !muted {
        var _ := PlaySequence(GetMelody(timers[handle].theme), clock);
      }
    }

    /** `toggleMute()`: flips the flag, silences or restores the master gain, stops the music when muting. */
    method ToggleMute() returns (nowMuted: bool)
      requires Valid()
      modifies this
      ensures Valid()
      ensures nowMuted == muted == !old(muted)
      ensures hasContext ==> volume == (if muted then 0.0 else 0.3)
      ensures !hasContext ==> volume == old(volume)
      ensures muted ==> timers == map[] && currentBGM.None?
      ensures !muted ==> timers == old(timers) && currentBGM == old(currentBGM) && bgmInterval == old(bgmInterval)
      ensures played == old(played) && hasContext == old(hasContext) && suspended == old(suspended)
      ensures initialized == old(initialized) && resumePending == old(resumePending) && nextHandle == old(nextHandle)
    {
      muted := !muted;
      if hasContext {
        volume := if muted then 0.0 else 0.3;
      }
      if muted {
        StopBGM();
      }
      nowMuted := muted;
    }
  }
}
