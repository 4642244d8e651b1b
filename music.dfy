/** The music data the generator works on (note sequences and melodies), and the
    interface contracts it relies on from the music library, which is not modelled. */
module Music {

  /** The melody event that means "nothing happens at this step" (MELODY_NO_EVENT). */
  const NO_EVENT: int := -2

  /** The tempo assumed when a note sequence carries none (DEFAULT_QUARTERS_PER_MINUTE). */
  const DEFAULT_QUARTERS_PER_MINUTE: real := 120.0

  /** One timed note; times are in seconds. */
  datatype Note = Note(pitch: int, startTime: real, endTime: real, instrument: int)

  datatype Tempo = Tempo(time: real, qpm: real)

  /** A NoteSequence, reduced to the two repeated fields the generator reads. */
  datatype NoteSequence = NoteSequence(notes: seq<Note>, tempos: seq<Tempo>)

  /** A monophonic melody: one event per step, anchored at an absolute step. */
  datatype Melody = Melody(events: seq<int>, startStep: int)
  {
    function Length(): nat { |events| }
  }

  /** The pair the paired model is primed with and returns. */
  datatype MelodyPair = MelodyPair(mainMelody: Melody, accompaniment: Melody)

  /** Python's `[NO_EVENT] * n`, which is empty when n is not positive. */
  function NoEvents(n: int): seq<int>
  {
    seq(if n < 0 then 0 else n, _ => NO_EVENT)
  }

  /** `set_length(n)` of a melody with n >= 0: the melody keeps its start step,
      has exactly n events, and keeps its events up to the new length. */
  ghost predicate IsResized(m: Melody, n: nat, r: Melody)
  {
    && |r.events| == n
    && r.startStep == m.startStep
    && forall k :: 0 <= k < n && k < |m.events| ==> r.events[k] == m.events[k]
  }

  /** The music library's operations, as the generator sees them:
      - extractSubsequence(s, start, end): the part of s inside a time window;
      - quantizeAndExtractMelodies(s, stepsPerQuarter): quantizes s and extracts its
        melodies with the generator's fixed policy, in extraction order;
      - toSequence(m, instrument, qpm): renders a melody as notes of one instrument;
      - setLength(m, n): the melody resized to n steps. */
  datatype MusicLibrary = MusicLibrary(
    extractSubsequence: (NoteSequence, real, real) -> NoteSequence,
    quantizeAndExtractMelodies: (NoteSequence, int) -> seq<Melody>,
    toSequence: (Melody, int, real) -> NoteSequence,
    setLength: (Melody, int) -> Melody)
  {
    /** Every note that toSequence produces carries the requested instrument. */
    ghost predicate TagsInstrument()
    {
      forall m, instrument, qpm, k ::
        0 <= k < |toSequence(m, instrument, qpm).notes| ==>
          toSequence(m, instrument, qpm).notes[k].instrument == instrument
    }

    /** setLength with a non-negative length behaves as IsResized says. */
    ghost predicate Resizes()
    {
      forall m, n :: n >= 0 ==> IsResized(m, n, setLength(m, n))
    }
  }
}
