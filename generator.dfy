/** The request handling of the Accompaniment RNN sequence generator: checking a
    generation request, priming the paired model with a main melody and an
    accompaniment, and merging the two generated parts into one note sequence. */
module AccompanimentRnnGenerator {
  import opened Music
  import opened TimeSteps

  /** Lowest and highest pitch the one-melody fallback may seed the accompaniment with. */
  const MIN_SEED_PITCH: int := 16
  const MAX_SEED_PITCH: int := 54

  type SeedPitch = p: int | MIN_SEED_PITCH <= p <= MAX_SEED_PITCH witness MIN_SEED_PITCH

  /** A time window of a generation request, in seconds. */
  datatype Section = Section(startTime: real, endTime: real)

  /** The value of a named argument: whichever field of its `oneof` is set, if any. */
  datatype ArgValue =
    | Unset
    | ByteValue(bytes: seq<bv8>)
    | IntValue(intValue: int)
    | FloatValue(floatValue: real)
    | BoolValue(boolValue: bool)
    | StringValue(stringValue: string)
  {
    /** Reading `float_value`: the value when that field is set, otherwise its default 0.0. */
    function AsFloat(): real
    {
      if FloatValue? then floatValue else 0.0
    }
  }

  /** The generator options of one request; `args` holds the named arguments. */
  datatype GeneratorOptions = GeneratorOptions(
    inputSections: seq<Section>,
    generateSections: seq<Section>,
    args: map<string, ArgValue>)

  /** What the process supplies from outside the request: whether Python assertions
      run (they do not under `python -O`) and the draw of `random.randint(16, 54)`. */
  datatype Ambient = Ambient(assertionsEnabled: bool, randomPitch: SeedPitch)

  /** The paired model: its minimum priming length and its inference. */
  datatype PairedModel = PairedModel(
    predictaheadSteps: int,
    generateMelodyPair: (int, MelodyPair, real) -> MelodyPair)

  /** Why a request fails. All are SequenceGeneratorExceptions except
      MelodyCountAssertion, which is the AssertionError of the melody-count assert. */
  datatype GenerationError =
    | TooManyInputSections(inputCount: nat)
    | WrongGenerateSectionCount(generateCount: nat)
    | BeforeAccompanimentEnd(requestedStart: real, finalNoteEnd: real)
    | MelodyCountAssertion(assertedCount: nat)
    | BeforePredictahead(predictaheadSteps: int, requestedStep: int)
    | UnsupportedMelodyCount(melodyCount: nat)

  datatype Result<T> = Ok(value: T) | Error(reason: GenerationError)

  /** Everything the paired model is called with, and the tempo the output is rendered at. */
  datatype Prepared = Prepared(qpm: real, numSteps: int, primer: MelodyPair, temperature: real)

  /** The `float_value` of the `temperature` argument, or 1.0 when the request has none. */
  function Temperature(args: map<string, ArgValue>): real
  {
    if "temperature" in args then args["temperature"].AsFloat() else 1.0
  }

  /** The first tempo of the sequence, or the default tempo when it has none. */
  function Qpm(s: NoteSequence): real
  {
    if |s.tempos| > 0 then s.tempos[0].qpm else DEFAULT_QUARTERS_PER_MINUTE
  }

  /** The end times of the notes of one instrument. */
  function EndTimes(notes: seq<Note>, instrument: int): (ends: seq<real>)
    ensures |ends| == 0 <==> forall k :: 0 <= k < |notes| ==> notes[k].instrument != instrument
    ensures forall k :: 0 <= k < |notes| && notes[k].instrument == instrument ==> notes[k].endTime in ends
    ensures forall e :: e in ends ==> exists k :: 0 <= k < |notes| && notes[k].instrument == instrument && notes[k].endTime == e
  {
    if |notes| == 0 then []
    else
      var rest := EndTimes(notes[1..], instrument);
      assert forall e :: e in rest ==> exists k :: 1 <= k < |notes| && notes[k].instrument == instrument && notes[k].endTime == e by {
        forall e | e in rest
          ensures exists k :: 1 <= k < |notes| && notes[k].instrument == instrument && notes[k].endTime == e
        {
          var j :| 0 <= j < |notes[1..]| && notes[1..][j].instrument == instrument && notes[1..][j].endTime == e;
          assert notes[j + 1] == notes[1..][j];
        }
      }
      assert forall k :: 1 <= k < |notes| ==> notes[k] == notes[1..][k - 1];
      if notes[0].instrument == instrument then [notes[0].endTime] + rest else rest
  }

  /** Python's `max` of a non-empty list. */
  function Max(xs: seq<real>): (m: real)
    requires |xs| > 0
    ensures m in xs
    ensures forall x :: x in xs ==> x <= m
  {
    if |xs| == 1 then xs[0]
    else
      var rest := Max(xs[1..]);
      assert forall x :: x in xs ==> x == xs[0] || x in xs[1..];
      if xs[0] >= rest then xs[0] else rest
  }

  /** The end of the existing accompaniment: the latest end time of an
      instrument-1 note, or 0 when there is none. */
  function AccompanimentEndTime(notes: seq<Note>): (t: real)
    ensures (forall k :: 0 <= k < |notes| ==> notes[k].instrument != 1) ==> t == 0.0
    ensures forall k :: 0 <= k < |notes| && notes[k].instrument == 1 ==> notes[k].endTime <= t
    ensures (exists k :: 0 <= k < |notes| && notes[k].instrument == 1) ==>
              exists k :: 0 <= k < |notes| && notes[k].instrument == 1 && notes[k].endTime == t
  {
    var ends := EndTimes(notes, 1);
    if |ends| > 0 then Max(ends) else 0.0
  }

  /** The input sequence, restricted to the input section when there is one. */
  function Windowed(lib: MusicLibrary, input: NoteSequence, options: GeneratorOptions): NoteSequence
  {
    if |options.inputSections| > 0 then
      lib.extractSubsequence(input, options.inputSections[0].startTime, options.inputSections[0].endTime)
    else input
  }

  /** The melodies extracted from the quantized input, in extraction order. */
  function ExtractedMelodies(lib: MusicLibrary, windowed: NoteSequence): seq<Melody>
  {
    lib.quantizeAndExtractMelodies(windowed, STEPS_PER_QUARTER)
  }

  /** The accompaniment made up when only one melody is extracted: no events from
      the main melody's start up to the step before `startStep`, then `pitch`. */
  function FallbackAccompaniment(main: Melody, startStep: int, pitch: SeedPitch): (m: Melody)
    ensures m.startStep == main.startStep
    ensures main.startStep <= startStep ==> m.Length() == startStep - main.startStep + 1
    ensures startStep < main.startStep ==> m.Length() == 1
    ensures forall k :: 0 <= k < m.Length() - 1 ==> m.events[k] == NO_EVENT
    ensures m.events[m.Length() - 1] == pitch
    ensures MIN_SEED_PITCH <= m.events[m.Length() - 1] <= MAX_SEED_PITCH
  {
    Melody(NoEvents(startStep - main.startStep) + [pitch], main.startStep)
  }

  /** The primer and step count for generating from `startStep` to `endStep`, with
      the accompaniment resized to end where generation starts. */
  function Primed(lib: MusicLibrary, qpm: real, main: Melody, accompaniment: Melody,
                  startStep: int, endStep: int, temperature: real): (p: Prepared)
    ensures p.primer.mainMelody == main
    ensures startStep + p.numSteps == endStep
    ensures lib.Resizes() && accompaniment.startStep <= startStep ==>
              && p.primer.accompaniment.startStep == accompaniment.startStep
              && p.primer.accompaniment.startStep + p.primer.accompaniment.Length() == startStep
              && IsResized(accompaniment, startStep - accompaniment.startStep, p.primer.accompaniment)
  {
    Prepared(qpm, endStep - startStep,
             MelodyPair(main, lib.setLength(accompaniment, startStep - accompaniment.startStep)),
             temperature)
  }

  /** Specification of everything the generator does before inference: the checks
      in the order they are made, and on success the call it makes to the model. */
  function Request(predictahead: int, lib: MusicLibrary, env: Ambient,
                   input: NoteSequence, options: GeneratorOptions): Result<Prepared>
  {
    if |options.inputSections| > 1 then Error(TooManyInputSections(|options.inputSections|))
    else if |options.generateSections| != 1 then Error(WrongGenerateSectionCount(|options.generateSections|))
    else
      var section := options.generateSections[0];
      var windowed := Windowed(lib, input, options);
      var finalEnd := AccompanimentEndTime(windowed.notes);
      if finalEnd > section.startTime then Error(BeforeAccompanimentEnd(section.startTime, finalEnd))
      else
        var melodies := ExtractedMelodies(lib, windowed);
        if env.assertionsEnabled && !(1 <= |melodies| <= 2) then Error(MelodyCountAssertion(|melodies|))
        else
          var qpm := Qpm(windowed);
          var startStep := SecondsToSteps(section.startTime, qpm);
          var endStep := SecondsToSteps(section.endTime, qpm);
          var temperature := Temperature(options.args);
          if startStep < predictahead then Error(BeforePredictahead(predictahead, startStep))
          else if |melodies| == 2 then
            Ok(Primed(lib, qpm, melodies[0], melodies[1], startStep, endStep, temperature))
          else if |melodies| == 1 then
            Ok(Primed(lib, qpm, melodies[0], FallbackAccompaniment(melodies[0], startStep, env.randomPitch),
                      startStep + 1, endStep, temperature))
          else Error(UnsupportedMelodyCount(|melodies|))
  }

  /** The notes of `main` followed by those of `accompaniment`, on `main`'s other fields. */
  function Merged(main: NoteSequence, accompaniment: NoteSequence): (out: NoteSequence)
    ensures |out.notes| == |main.notes| + |accompaniment.notes|
    ensures out.notes[..|main.notes|] == main.notes
    ensures out.notes[|main.notes|..] == accompaniment.notes
    ensures out.tempos == main.tempos
  {
    main.(notes := main.notes + accompaniment.notes)
  }

  /** Specification of a whole generation call. */
  function Generation(model: PairedModel, lib: MusicLibrary, env: Ambient,
                      input: NoteSequence, options: GeneratorOptions): Result<NoteSequence>
  {
    match Request(model.predictaheadSteps, lib, env, input, options)
    case Error(e) => Error(e)
    case Ok(p) =>
      var generated := model.generateMelodyPair(p.numSteps, p.primer, p.temperature);
      Ok(Merged(lib.toSequence(generated.mainMelody, 0, p.qpm),
                lib.toSequence(generated.accompaniment, 1, p.qpm)))
  }

  /** One generation call, step by step as the generator makes it. */
  method Generate(model: PairedModel, lib: MusicLibrary, env: Ambient,
                  input: NoteSequence, options: GeneratorOptions)
    returns (r: Result<NoteSequence>)
    ensures r == Generation(model, lib, env, input, options)
  {
    if |options.inputSections| > 1 {
      return Error(TooManyInputSections(|options.inputSections|));
    }
    if |options.generateSections| != 1 {
      return Error(WrongGenerateSectionCount(|options.generateSections|));
    }
    var temperature := Temperature(options.args);
    var generateSection := options.generateSections[0];

    var inputSequence := input;
    if |options.inputSections| > 0 {
      var inputSection := options.inputSections[0];
      inputSequence := lib.extractSubsequence(inputSequence, inputSection.startTime, inputSection.endTime);
    }

    var accompanimentEndTime := AccompanimentEndTime(inputSequence.notes);
    if accompanimentEndTime > generateSection.startTime {
      return Error(BeforeAccompanimentEnd(generateSection.startTime, accompanimentEndTime));
    }

    var extractedMelodies := lib.quantizeAndExtractMelodies(inputSequence, STEPS_PER_QUARTER);
    if env.assertionsEnabled && !(1 <= |extractedMelodies| <= 2) {
      return Error(MelodyCountAssertion(|extractedMelodies|));
    }

    var qpm := Qpm(inputSequence);
    var startStep := SecondsToSteps(generateSection.startTime, qpm);
    var endStep := SecondsToSteps(generateSection.endTime, qpm);
    if startStep < model.predictaheadSteps {
      return Error(BeforePredictahead(model.predictaheadSteps, startStep));
    }

    var mainMelody, accompaniment;
    if |extractedMelodies| == 2 {
      mainMelody, accompaniment := extractedMelodies[0], extractedMelodies[1];
    } else if |extractedMelodies| == 1 {
      mainMelody := extractedMelodies[0];
      accompaniment := FallbackAccompaniment(mainMelody, startStep, env.randomPitch);
      startStep := startStep + 1;
    } else {
      return Error(UnsupportedMelodyCount(|extractedMelodies|));
    }

    accompaniment := lib.setLength(accompaniment, startStep - accompaniment.startStep);

    var primerPair := MelodyPair(mainMelody, accompaniment);
    var generatedPair := model.generateMelodyPair(endStep - startStep, primerPair, temperature);
    var sequence := lib.toSequence(generatedPair.mainMelody, 0, qpm);
    sequence := sequence.(notes := sequence.notes + lib.toSequence(generatedPair.accompaniment, 1, qpm).notes);
    return Ok(sequence);
  }
}
