/** What a generation call promises, stated over all requests, libraries and models. */
module GeneratorProperties {
  import opened Music
  import opened TimeSteps
  import opened AccompanimentRnnGenerator

  /** The section counts are checked first, input sections before generate sections,
      so neither the library nor the model has any say in these two failures. */
  lemma SectionCountsCheckedFirst(model: PairedModel, lib: MusicLibrary, env: Ambient,
                                  input: NoteSequence, options: GeneratorOptions)
    ensures |options.inputSections| > 1 ==>
              Generation(model, lib, env, input, options) == Error(TooManyInputSections(|options.inputSections|))
    ensures |options.inputSections| <= 1 && |options.generateSections| != 1 ==>
              Generation(model, lib, env, input, options) == Error(WrongGenerateSectionCount(|options.generateSections|))
    ensures Generation(model, lib, env, input, options).Ok? ==>
              |options.inputSections| <= 1 && |options.generateSections| == 1
  {
  }

  /** A request may only extend the accompaniment: it fails with BeforeAccompanimentEnd
      exactly when the last instrument-1 note of the (windowed) input ends strictly after
      the requested start, so a start equal to that end is accepted. */
  lemma ExtensionOnly(model: PairedModel, lib: MusicLibrary, env: Ambient,
                      input: NoteSequence, options: GeneratorOptions)
    requires |options.inputSections| <= 1 && |options.generateSections| == 1
    ensures var start := options.generateSections[0].startTime;
            var finalEnd := AccompanimentEndTime(Windowed(lib, input, options).notes);
            && (finalEnd > start <==>
                  Generation(model, lib, env, input, options) == Error(BeforeAccompanimentEnd(start, finalEnd)))
            && (Generation(model, lib, env, input, options).Ok? ==> finalEnd <= start)
  {
  }

  /** With the earlier checks passed, a start step before the model's predict-ahead
      steps fails, and in that failure the model's inference plays no part. */
  lemma PredictionFloor(model: PairedModel, lib: MusicLibrary, env: Ambient,
                        input: NoteSequence, options: GeneratorOptions)
    requires |options.inputSections| <= 1 && |options.generateSections| == 1
    requires AccompanimentEndTime(Windowed(lib, input, options).notes) <= options.generateSections[0].startTime
    requires env.assertionsEnabled ==> 1 <= |ExtractedMelodies(lib, Windowed(lib, input, options))| <= 2
    ensures var step := SecondsToSteps(options.generateSections[0].startTime, Qpm(Windowed(lib, input, options)));
            step < model.predictaheadSteps ==>
              Generation(model, lib, env, input, options) == Error(BeforePredictahead(model.predictaheadSteps, step))
  {
  }

  /** Every failure is decided before inference: a model with the same
      predict-ahead steps but any other inference fails in the same way. */
  lemma FailuresPrecedeInference(model: PairedModel, other: PairedModel, lib: MusicLibrary, env: Ambient,
                                 input: NoteSequence, options: GeneratorOptions)
    requires other.predictaheadSteps == model.predictaheadSteps
    ensures Generation(model, lib, env, input, options).Error? <==>
              Request(model.predictaheadSteps, lib, env, input, options).Error?
    ensures Generation(model, lib, env, input, options).Error? ==>
              Generation(other, lib, env, input, options) == Generation(model, lib, env, input, options)
  {
  }

  /** Only one or two extracted melodies lead to generation. Any other count fails:
      with assertions on, at the assertion, before the predict-ahead check; with
      them off, after the predict-ahead check, as an unsupported count. */
  lemma MelodyCount(model: PairedModel, lib: MusicLibrary, env: Ambient,
                    input: NoteSequence, options: GeneratorOptions)
    requires |options.inputSections| <= 1 && |options.generateSections| == 1
    requires AccompanimentEndTime(Windowed(lib, input, options).notes) <= options.generateSections[0].startTime
    ensures var melodies := ExtractedMelodies(lib, Windowed(lib, input, options));
            var step := SecondsToSteps(options.generateSections[0].startTime, Qpm(Windowed(lib, input, options)));
            var result := Generation(model, lib, env, input, options);
            && (result.Ok? ==> 1 <= |melodies| <= 2)
            && (env.assertionsEnabled && !(1 <= |melodies| <= 2) ==> result == Error(MelodyCountAssertion(|melodies|)))
            && (!env.assertionsEnabled && !(1 <= |melodies| <= 2) && model.predictaheadSteps <= step ==>
                  result == Error(UnsupportedMelodyCount(|melodies|)))
            && ((1 <= |melodies| <= 2) && model.predictaheadSteps <= step ==> result.Ok?)
  {
  }

  /** With two melodies, the first extracted is the main melody and the second,
      resized to end at the start step, is the accompaniment. */
  lemma TwoMelodiesInExtractionOrder(predictahead: int, lib: MusicLibrary, env: Ambient,
                                     input: NoteSequence, options: GeneratorOptions, p: Prepared)
    requires lib.Resizes()
    requires Request(predictahead, lib, env, input, options) == Ok(p)
    requires |ExtractedMelodies(lib, Windowed(lib, input, options))| == 2
    ensures var melodies := ExtractedMelodies(lib, Windowed(lib, input, options));
            var step := SecondsToSteps(options.generateSections[0].startTime, Qpm(Windowed(lib, input, options)));
            && p.primer.mainMelody == melodies[0]
            && (melodies[1].startStep <= step ==>
                  IsResized(melodies[1], step - melodies[1].startStep, p.primer.accompaniment))
  {
  }

  /** With one melody, it is the main melody and the accompaniment is made up: it starts
      with the main melody, holds no events up to the original start step and then the seed
      pitch on that step, and generation starts one step later. Resizing leaves it as made.
      (When the start step lies before the main melody, resizing has a negative length.) */
  lemma OneMelodyFallback(predictahead: int, lib: MusicLibrary, env: Ambient,
                          input: NoteSequence, options: GeneratorOptions, p: Prepared)
    requires lib.Resizes()
    requires Request(predictahead, lib, env, input, options) == Ok(p)
    requires |ExtractedMelodies(lib, Windowed(lib, input, options))| == 1
    ensures var main := ExtractedMelodies(lib, Windowed(lib, input, options))[0];
            var qpm := Qpm(Windowed(lib, input, options));
            var step := SecondsToSteps(options.generateSections[0].startTime, qpm);
            && p.primer.mainMelody == main
            && p.numSteps == SecondsToSteps(options.generateSections[0].endTime, qpm) - (step + 1)
            && (main.startStep <= step + 1 ==> p.primer.accompaniment.startStep == main.startStep)
            && (main.startStep <= step ==>
                  p.primer.accompaniment == Melody(NoEvents(step - main.startStep) + [env.randomPitch], main.startStep))
  {
  }

  /** In both branches the accompaniment is resized to end exactly where generation
      starts, and the model is asked for the steps from there to the end step. */
  lemma AlignedToStartStep(predictahead: int, lib: MusicLibrary, env: Ambient,
                           input: NoteSequence, options: GeneratorOptions, p: Prepared)
    requires lib.Resizes()
    requires Request(predictahead, lib, env, input, options) == Ok(p)
    ensures var melodies := ExtractedMelodies(lib, Windowed(lib, input, options));
            var qpm := Qpm(Windowed(lib, input, options));
            var start := SecondsToSteps(options.generateSections[0].startTime, qpm) + (if |melodies| == 1 then 1 else 0);
            var end := SecondsToSteps(options.generateSections[0].endTime, qpm);
            var anchor := (if |melodies| == 2 then melodies[1] else melodies[0]).startStep;
            var accompaniment := p.primer.accompaniment;
            && p.qpm == qpm
            && p.numSteps == end - start
            && (anchor <= start ==> accompaniment.startStep == anchor)
            && (anchor <= start ==> accompaniment.Length() == start - accompaniment.startStep)
            && (anchor <= start ==> accompaniment.startStep + accompaniment.Length() + p.numSteps == end)
  {
  }

  /** The temperature is 1.0 unless the request names one; a `temperature` argument
      set as another kind than a float reads as the float default 0.0. */
  lemma TemperatureDefault(predictahead: int, lib: MusicLibrary, env: Ambient,
                           input: NoteSequence, options: GeneratorOptions, p: Prepared)
    requires Request(predictahead, lib, env, input, options) == Ok(p)
    ensures "temperature" !in options.args ==> p.temperature == 1.0
    ensures "temperature" in options.args && options.args["temperature"].FloatValue? ==>
              p.temperature == options.args["temperature"].floatValue
    ensures "temperature" in options.args && !options.args["temperature"].FloatValue? ==> p.temperature == 0.0
  {
  }

  /** The tempo is the first tempo of the (windowed) input, or the default tempo when it has none. */
  lemma TempoDefault(predictahead: int, lib: MusicLibrary, env: Ambient,
                     input: NoteSequence, options: GeneratorOptions, p: Prepared)
    requires Request(predictahead, lib, env, input, options) == Ok(p)
    ensures |Windowed(lib, input, options).tempos| == 0 ==> p.qpm == DEFAULT_QUARTERS_PER_MINUTE
    ensures |Windowed(lib, input, options).tempos| > 0 ==> p.qpm == Windowed(lib, input, options).tempos[0].qpm
  {
  }

  /** The output holds the main melody's generated notes, all on instrument 0,
      followed by the accompaniment's generated notes, all on instrument 1. */
  lemma OutputAssembly(model: PairedModel, lib: MusicLibrary, env: Ambient,
                       input: NoteSequence, options: GeneratorOptions, p: Prepared)
    requires lib.TagsInstrument()
    requires Request(model.predictaheadSteps, lib, env, input, options) == Ok(p)
    ensures Generation(model, lib, env, input, options).Ok?
    ensures var generated := model.generateMelodyPair(p.numSteps, p.primer, p.temperature);
            var main := lib.toSequence(generated.mainMelody, 0, p.qpm);
            var accompaniment := lib.toSequence(generated.accompaniment, 1, p.qpm);
            var out := Generation(model, lib, env, input, options).value;
            && out.notes == main.notes + accompaniment.notes
            && |out.notes| == |main.notes| + |accompaniment.notes|
            && out.tempos == main.tempos
            && (forall k :: 0 <= k < |main.notes| ==> out.notes[k].instrument == 0)
            && (forall k :: |main.notes| <= k < |out.notes| ==> out.notes[k].instrument == 1)
  {
  }

  /** No instrument other than 0 and 1 appears in a generated sequence. */
  lemma OnlyTwoInstruments(model: PairedModel, lib: MusicLibrary, env: Ambient,
                           input: NoteSequence, options: GeneratorOptions, out: NoteSequence)
    requires lib.TagsInstrument()
    requires Generation(model, lib, env, input, options) == Ok(out)
    ensures forall k :: 0 <= k < |out.notes| ==> out.notes[k].instrument == 0 || out.notes[k].instrument == 1
  {
  }
}
