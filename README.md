# Accompaniment RNN sequence generator: request handling

This project models how the Accompaniment RNN sequence generator handles one
generation request (`AccompanimentRnnSequenceGenerator._generate`), together
with its conversion from seconds to steps (`_seconds_to_steps`). A request holds
an input note sequence that has a main melody on instrument 0 and an
accompaniment on instrument 1. The generator checks the request. It then
extracts the two melodies, primes a paired model with them, and merges the two
parts the model generates into one note sequence.

Modules:

- `Music` (`music.dfy`) holds notes, tempos, note sequences, melodies and melody
  pairs. It also holds the music-library operations the generator calls, as the
  arrow-typed fields of `MusicLibrary`. Two predicates on it state the
  contracts the generator relies on, and the lemmas assume whichever they need.
  `MusicLibrary.TagsInstrument`: `toSequence` tags every note with the
  instrument it is given. `MusicLibrary.Resizes`: `setLength(m, n)` with
  `n >= 0` gives `n` events, keeps the start step and keeps the events up to
  the new length.
- `TimeSteps` (`time_steps.dfy`) holds `STEPS_PER_QUARTER = 4`. It models
  Python's `int()` as truncation toward zero (`Truncate`). The conversion
  `SecondsToSteps(s, qpm)` is the truncation of `s * (qpm / 60) * 4`.
- `AccompanimentRnnGenerator` (`generator.dfy`) is the generator itself.
  `Request` and `Generation` are its functional specification: every check in
  source order, then the call made to the model. `Generate` is the method as the
  source writes it, with early returns, the `start_step` increment, the in-place
  resize of the accompaniment and the extension of the output notes. Its
  contract is that it returns exactly what `Generation` specifies.
- `GeneratorProperties` (`generator_properties.dfy`) proves what a call
  promises, for every request, library and model.

Parameters stand for what the generator takes from outside:

- The paired model (`PairedModel`) is its `predictahead_steps` plus its
  inference, given as a function.
- `Ambient.randomPitch` is the draw of `random.randint(16, 54)`. Its type,
  `SeedPitch`, keeps it within 16..54.
- `Ambient.assertionsEnabled` says whether Python runs the `assert` on line 115.
  It is skipped under `python -O`.

The constants `MELODY_NO_EVENT = -2` and `DEFAULT_QUARTERS_PER_MINUTE = 120.0`
are those of the music library's constants module. That module is not part of
this model.

Any melody count other than 1 or 2 fails. With assertions on, the
`assert 1 <= len(extracted_melodies) <= 2` on line 115 raises an
`AssertionError` before the predict-ahead check. The exception on lines
144-147 is reached only under `python -O`. Both are modelled
(`MelodyCountAssertion`, `UnsupportedMelodyCount`), and `MelodyCount` proves
where each applies.

A named argument of the request is a message with a `oneof` value. Line 83
reads its `float_value`, which is 0.0 when the argument was set as another kind.
`ArgValue.AsFloat` models that read.

## Model

| member | source | states |
|---|---|---|
| TimeSteps.Truncate | magenta/models/accompaniment_rnn/accompaniment_rnn_generator.py:71 | `int()` truncates toward zero: for x >= 0 the result r has r <= x < r + 1; for x < 0, x <= r < x + 1 and r <= 0 |
| TimeSteps.SecondsToSteps | magenta/models/accompaniment_rnn/accompaniment_rnn_generator.py:59-71 | the step count is the truncation toward zero of the exact value seconds * qpm / 15 (qpm / 60 quarters per second, 4 steps per quarter): for a non-negative exact value r <= x < r + 1, for a negative one x <= r < x + 1 and r <= 0 |
| TimeSteps.TruncateMonotone | magenta/models/accompaniment_rnn/accompaniment_rnn_generator.py:71 | truncation never decreases as its argument grows |
| TimeSteps.StepsNonNegative | magenta/models/accompaniment_rnn/accompaniment_rnn_generator.py:59-71 | a non-negative time at a non-negative tempo converts to a non-negative step count |
| TimeSteps.StepsMonotone | magenta/models/accompaniment_rnn/accompaniment_rnn_generator.py:59-71 | at a non-negative tempo, a later time never converts to an earlier step |
| TimeSteps.OneQuarterNote | magenta/models/accompaniment_rnn/accompaniment_rnn_generator.py:59-71 | one quarter note, 60 / qpm seconds, converts to exactly STEPS_PER_QUARTER = 4 steps |
| TimeSteps.TruncatesPartialSteps | magenta/models/accompaniment_rnn/accompaniment_rnn_generator.py:71 | partial steps are dropped, not rounded: 0.9 s at 60 qpm is 3 steps |
| AccompanimentRnnGenerator.EndTimes | magenta/models/accompaniment_rnn/accompaniment_rnn_generator.py:93-94 | the list of end times holds the end time of every note of the instrument and nothing else; it is empty iff there is no such note |
| AccompanimentRnnGenerator.Max | magenta/models/accompaniment_rnn/accompaniment_rnn_generator.py:95 | the maximum of a non-empty list is an element of the list and at least every element |
| AccompanimentRnnGenerator.AccompanimentEndTime | magenta/models/accompaniment_rnn/accompaniment_rnn_generator.py:93-96 | the accompaniment's end is 0 when no note is on instrument 1; otherwise it is the end time of some instrument-1 note and no instrument-1 note ends later |
| AccompanimentRnnGenerator.FallbackAccompaniment | magenta/models/accompaniment_rnn/accompaniment_rnn_generator.py:138-142 | the made-up accompaniment starts at the main melody's start step. It has NO_EVENT on every step before the start step, then one pitch in 16..54. Its length is start - main start + 1, or 1 when the start lies before the main melody (the padding is then empty) |
| AccompanimentRnnGenerator.ArgValue.AsFloat | magenta/models/accompaniment_rnn/accompaniment_rnn_generator.py:83 | definition: `float_value`, the value when the argument is set as a float, else 0.0; proved as seen by the model in `TemperatureDefault` |
| AccompanimentRnnGenerator.Temperature | magenta/models/accompaniment_rnn/accompaniment_rnn_generator.py:83-84 | definition: the `float_value` of the `temperature` argument, or 1.0 when there is none; proved as seen by the model in `TemperatureDefault` |
| AccompanimentRnnGenerator.Qpm | magenta/models/accompaniment_rnn/accompaniment_rnn_generator.py:117-118 | definition: the first tempo, or DEFAULT_QUARTERS_PER_MINUTE when there is none; proved as seen by the model in `TempoDefault` |
| AccompanimentRnnGenerator.Windowed | magenta/models/accompaniment_rnn/accompaniment_rnn_generator.py:88-91 | definition: the input cut to the input section by the library when there is one, else the input unchanged; every check after the section counts is stated on it (`ExtensionOnly`, `PredictionFloor`, `TempoDefault`) |
| AccompanimentRnnGenerator.ExtractedMelodies | magenta/models/accompaniment_rnn/accompaniment_rnn_generator.py:104-114 | definition: the library melodies of the windowed input quantized at STEPS_PER_QUARTER, in extraction order; their count decides the branch (`MelodyCount`) |
| AccompanimentRnnGenerator.Primed | magenta/models/accompaniment_rnn/accompaniment_rnn_generator.py:149-155 | the main melody is kept; the model is asked for end - start steps; with a library that `Resizes` and an accompaniment starting no later than the start, the accompaniment keeps its start step, is resized to end exactly at the start step, and keeps its events up to there |
| AccompanimentRnnGenerator.Request | magenta/models/accompaniment_rnn/accompaniment_rnn_generator.py:74-155 | definition: the checks in source order (section counts, accompaniment end, melody-count assert, predict-ahead, melody-count dispatch) and on success the model call; its properties are proved in `SectionCountsCheckedFirst`, `ExtensionOnly`, `PredictionFloor`, `MelodyCount`, `TwoMelodiesInExtractionOrder`, `OneMelodyFallback`, `AlignedToStartStep`, `TemperatureDefault` and `TempoDefault` |
| AccompanimentRnnGenerator.Merged | magenta/models/accompaniment_rnn/accompaniment_rnn_generator.py:156-159 | the merged sequence has the main part's notes, then the accompaniment part's notes, so the count is the sum; its tempos are the main part's |
| AccompanimentRnnGenerator.Generation | magenta/models/accompaniment_rnn/accompaniment_rnn_generator.py:73-159 | definition: a failure of `Request` unchanged, otherwise the merge of the two generated melodies rendered on instruments 0 and 1; proved in `FailuresPrecedeInference`, `OutputAssembly` and `OnlyTwoInstruments`, and met by `Generate` |
| Music.NoEvents | magenta/models/accompaniment_rnn/accompaniment_rnn_generator.py:139-140 | definition: Python's `[NO_EVENT] * n`, max(0, n) NO_EVENTs; its use is proved in `FallbackAccompaniment` and `OneMelodyFallback` |
| Music.MusicLibrary.TagsInstrument | magenta/models/accompaniment_rnn/accompaniment_rnn_generator.py:156-158 | definition of the contract relied on from `to_sequence`: every rendered note carries the requested instrument; assumed by `OutputAssembly` and `OnlyTwoInstruments` |
| Music.MusicLibrary.Resizes | magenta/models/accompaniment_rnn/accompaniment_rnn_generator.py:151 | definition of the contract relied on from `set_length(n)` for n >= 0: n events, same start step, events kept up to the new length; assumed by `Primed`, `TwoMelodiesInExtractionOrder`, `OneMelodyFallback` and `AlignedToStartStep` |
| AccompanimentRnnGenerator.Generate | magenta/models/accompaniment_rnn/accompaniment_rnn_generator.py:73-159 | the step-by-step method returns exactly what the specification `Generation` gives, failure or output sequence |
| GeneratorProperties.SectionCountsCheckedFirst | magenta/models/accompaniment_rnn/accompaniment_rnn_generator.py:74-81 | more than one input section fails first; if that check passes, any generate-section count other than 1 fails; both results do not depend on the library or the model; success implies both counts are right |
| GeneratorProperties.ExtensionOnly | magenta/models/accompaniment_rnn/accompaniment_rnn_generator.py:87-102 | on the windowed input, the request fails with BeforeAccompanimentEnd(start, end) iff the accompaniment's end is strictly after the requested start, so equality is accepted |
| GeneratorProperties.PredictionFloor | magenta/models/accompaniment_rnn/accompaniment_rnn_generator.py:117-128 | once the earlier checks pass, a start step below predictahead_steps fails with BeforePredictahead(predictahead, step), the step being the converted start at the input's tempo |
| GeneratorProperties.FailuresPrecedeInference | magenta/models/accompaniment_rnn/accompaniment_rnn_generator.py:74-155 | a call fails iff the checks before inference fail; a failing call gives the same result under any model with the same predictahead_steps, so inference takes no part in it |
| GeneratorProperties.MelodyCount | magenta/models/accompaniment_rnn/accompaniment_rnn_generator.py:109-147 | success needs 1 or 2 melodies. With assertions on, another count fails at the assert, before the predict-ahead check. With them off, it fails as unsupported once the start step passes the predict-ahead check. With 1 or 2 melodies and that check passed, the call succeeds |
| GeneratorProperties.TwoMelodiesInExtractionOrder | magenta/models/accompaniment_rnn/accompaniment_rnn_generator.py:130-131 | with two melodies, the first extracted is the main melody, and the second, resized to end at the start step, is the accompaniment |
| GeneratorProperties.OneMelodyFallback | magenta/models/accompaniment_rnn/accompaniment_rnn_generator.py:132-143 | with one melody, it is the main melody. Generation starts one step after the converted start. The primer's accompaniment is exactly NO_EVENT * (start - main start) followed by the seed pitch, anchored at the main melody's start, so the resize leaves it unchanged |
| GeneratorProperties.AlignedToStartStep | magenta/models/accompaniment_rnn/accompaniment_rnn_generator.py:149-155 | in both branches, when the accompaniment starts no later than the (adjusted) start step: it keeps its start step, its length is start - its start step, and the model is asked for exactly end - start steps, so primer end plus generated steps reach the end step |
| GeneratorProperties.TemperatureDefault | magenta/models/accompaniment_rnn/accompaniment_rnn_generator.py:83-84 | the model gets the `float_value` of the request's `temperature` argument (0.0 when the argument is set as another kind), or 1.0 when it has none |
| GeneratorProperties.TempoDefault | magenta/models/accompaniment_rnn/accompaniment_rnn_generator.py:117-118 | the tempo is the first tempo of the windowed input, or the default tempo when it has none |
| GeneratorProperties.OutputAssembly | magenta/models/accompaniment_rnn/accompaniment_rnn_generator.py:156-159 | the output is the main melody's generated notes, all on instrument 0, followed by the accompaniment's generated notes, all on instrument 1, in order; the note count is the sum of both parts; the tempos are those of the main part |
| GeneratorProperties.OnlyTwoInstruments | magenta/models/accompaniment_rnn/accompaniment_rnn_generator.py:156-159 | no instrument other than 0 and 1 appears in a generated sequence |

## Left out

- The constructor, the `predictahead_steps` property and the `BaseSequenceGenerator` base class (lines 49-57) are left out. So are the session and the checkpoint or bundle loading. They are TensorFlow plumbing; the model stands in as `PairedModel`.
- `get_generator_map` (lines 162-175) is left out. It only builds model objects from a configuration table.
- Quantization, `extract_melodies`, `extract_subsequence`, `Melody.to_sequence` and `Melody.set_length` belong to the music library, which is not part of this model. They are parameters that carry only the contracts the generator relies on. These calls, and the `Melody(...)` constructor on line 138, are modelled as total: errors any of these library calls may raise are not modelled.
- The model's inference inside `generate_melody_pair` is a parameter with no contract. Its own errors, which propagate unchanged, are not modelled.
- `tf.logging.warn` in the one-melody branch is a side effect only and is left out.
- `random.randint(16, 54)` is ambient randomness. It becomes the parameter `Ambient.randomPitch`.
- Floating-point rounding is not modelled: seconds and tempos are `real`. Because `int()` truncates, this matters most on exact step boundaries. `OneQuarterNote` proves 60 / qpm seconds is exactly 4 steps in real arithmetic, but in Python a float product just below 4.0 truncates to 3. The step counts stated here are claims about the model, not about float arithmetic.
- The in-place updates are modelled as rebinding values: `set_length` changes the accompaniment and `extend` changes the output's notes. No other reference to these objects is used after the update, so aliasing does not arise.
- A note sequence keeps only its notes and tempos. The fields that are passed through untouched are not modelled.
- `input_sequence and ...` on line 117 is modelled as always true, because a note-sequence message is always truthy in Python.
- GeneratorProperties.AlignedToStartStep: the resize is only specified for a non-negative length. So the length and start-step claims are conditional on the accompaniment starting no later than the start step. The source's `set_length` with a negative length is not modelled.
- GeneratorProperties.TwoMelodiesInExtractionOrder: the claim about the accompaniment holds only when the second melody starts no later than the start step, for the same reason.
- GeneratorProperties.OneMelodyFallback: the exact accompaniment is stated only when the start step is not before the main melody's start. Earlier, Python's list multiplication gives empty padding and the resize length is negative.
- Idempotence (same inputs and same random draw give the same output) holds by construction, because `Generation` is a function. It is not stated as a lemma.
