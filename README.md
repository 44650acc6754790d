# SpeechBrain data preparation and data pipeline, modelled in Dafny

This project models two parts of SpeechBrain. The first is the corpus preparation in
`speechbrain/data_io/data_preparation.py`:

- **TIMIT.** The constructor of the `timit_prepare` class fixes its speaker lists and its 60→48 and
  60→39 phoneme tables. `create_csv` turns each wav file into a CSV row. A row holds the
  sentence and speaker IDs, the words of the `.wrd` file and the reduced, silence-filtered
  phonemes of the `.phn` file, plus the optional kaldi label columns.
- **LibriSpeech.** `text_to_dict` builds the transcript dictionary. `create_csv` writes one
  row per `.flac` file, optionally stopping after `select_n_sentences` rows.
- **VoxCeleb.** `prepare_wav_list` sorts the lines of the identification split file into
  train, dev and test lists. `prepare_csv` writes one row per wav file, with the ID
  `spk---session---utterance`.

The second part is the `DataPipeline` whose behaviour `tests/unittests/test_data_pipeline.py`
fixes. It has a registry of named functions with argument names, and a list of selected
outputs. A call runs only the functions that the selected outputs depend on, each once, in
dependency order, and returns the selected values.

Module layout:

| file | module | what |
|---|---|---|
| `outcomes.dfy` | `Outcomes` | `Option`, `Result` and the Python exceptions raised on the modelled paths; `Collect` (a loop that stops at the first exception) |
| `pystr.dfy` | `PyStrings` | the Python string operations the source uses (`split`, `join`, `replace`, `strip`, `rstrip`, `upper`, `os.path.join`) |
| `timit_tables.dfy` | `TimitTables` | the 61 TIMIT labels (and `sil`), the two conversion tables, and their images |
| `timit.dfy` | `Timit` | IDs, transcription files, phoneme reduction, CSV rows, and the `TimitPrepare` class |
| `librispeech.dfy` | `LibriSpeech` | `text_to_dict` and `create_csv` |
| `voxceleb.dfy` | `VoxCeleb` | `prepare_wav_list` and `prepare_csv` |
| `pipeline.dfy` | `Pipeline` | the registry, dependency closure, evaluation, the lazy plan, and the `DataPipeline` class |
| `pipeline_tests.dfy` | `PipelineScenarios` | each scenario of the unit test, proved for the model |

The loops of the source are methods with loop invariants:

- `TimitPrepare.CreateCsv`, `TimitPrepare.CollectPhonemes`, `LibriSpeech.TextToDict`,
  `LibriSpeech.CreateCsv`, `VoxCeleb.PrepareWavList`, `VoxCeleb.PrepareCsv` and
  `Pipeline.RunPlan`.
- Each data-preparation method is proved equal to a specification function of its inputs.
  `Pipeline.RunPlan` is proved to leave every planned function's reference value in its
  frame, and to log exactly the plan.
- What the source promises is proved about those functions as lemmas.

Reading files is modelled by a `Corpus` value (a map from file name to its lines) or by a
sequence of lines. The duration of an audio file is a parameter `durationOf`.

## Model

| member | source | states |
|---|---|---|
| Pipeline.DataPipeline.constructor | tests/unittests/test_data_pipeline.py:13 | a new pipeline has no registered function and no selected output |
| Pipeline.DataPipeline.FromConfiguration | tests/unittests/test_data_pipeline.py:4-10 | the registry and the selection are exactly the given configuration |
| Pipeline.DataPipeline.AddFunc | tests/unittests/test_data_pipeline.py:14-16 | binds the name to the function and its argument names, replacing an earlier binding; the selection is unchanged |
| Pipeline.DataPipeline.AppendOutputName | tests/unittests/test_data_pipeline.py:17 | appends one name to the selection; the registry is unchanged |
| Pipeline.DataPipeline.SetOutputNames | tests/unittests/test_data_pipeline.py:56 | replaces the selection; the registry is unchanged |
| Pipeline.DataPipeline.Call | tests/unittests/test_data_pipeline.py:44-61 | for an acyclic registry whose needed leaves are inputs: the result's keys are exactly the selected names; each selected value is the value defined by evaluating its dependencies; the functions run are the plan, each once, after its registered arguments |
| Pipeline.PlanSpec | tests/unittests/test_data_pipeline.py:20-42 | the plan has no duplicates, runs each function after the registered functions it takes as arguments, and contains exactly the registered functions that some selected output depends on |
| Pipeline.NotRequiredNotRun | tests/unittests/test_data_pipeline.py:35-42 | a function that no selected output depends on is never run, even when its arguments are available |
| Pipeline.RequiredStep | tests/unittests/test_data_pipeline.py:27-34 | the set of functions a selection depends on is closed under taking arguments |
| Pipeline.LeavesCovered | tests/unittests/test_data_pipeline.py:18 | when every argument is registered or an input, every needed leaf is an input |
| Pipeline.EvalFuel | tests/unittests/test_data_pipeline.py:27-34 | in an acyclic registry, evaluating a name gives the same value for every evaluation depth above its rank |
| Pipeline.RunPlan | tests/unittests/test_data_pipeline.py:27-34 | running the plan in order stores, under each function's name, the value its dependencies define, and keeps the inputs; the log of applied functions is exactly the plan |
| Pipeline.OutputsAgree | tests/unittests/test_data_pipeline.py:44-53 | after the whole plan has run, every selected name is in the frame with its defined value |
| PipelineScenarios.Chained | tests/unittests/test_data_pipeline.py:4-12 | `foo` lower-cases `text` and `bar` reverses `foo`; with input `Test` the result is `{bar: tset}` after running `foo` then `bar` |
| PipelineScenarios.Sum | tests/unittests/test_data_pipeline.py:13-19 | `foobar = foo + bar` on inputs 1 and 2 gives `{foobar: 3}` |
| PipelineScenarios.NothingSelected | tests/unittests/test_data_pipeline.py:20-26 | with no output selected, the registered function is not run and the result is empty |
| PipelineScenarios.Transitive | tests/unittests/test_data_pipeline.py:27-34 | `truebar` depends on `foobar`, so `foobar` runs first and `truebar` is 3 |
| PipelineScenarios.Unrelated | tests/unittests/test_data_pipeline.py:35-42 | `truebar` reads only the input `foo`, so `foobar` is not run and `truebar` is 1 |
| PipelineScenarios.CallBothSelected | tests/unittests/test_data_pipeline.py:44-53 | selecting `foobar` and `foo` runs `foobar` and returns exactly those two keys |
| PipelineScenarios.CallBarSelected | tests/unittests/test_data_pipeline.py:56-61 | after the selection becomes `bar`, nothing runs and the only key is `bar` |
| PipelineScenarios.ChangeOutputs | tests/unittests/test_data_pipeline.py:44-61 | the same pipeline first returns `{foobar: 3, foo: 1}` running `foobar`, then after `set_output_names` returns `{bar: 2}` running nothing |
| TimitTables.Table48 | speechbrain/data_io/data_preparation.py:199-263 | the 60→48 table maps exactly the TIMIT labels, each to its 48-set phoneme |
| TimitTables.Table39 | speechbrain/data_io/data_preparation.py:265-331 | the 60→39 table maps exactly the TIMIT labels, each to its 39-set phoneme |
| TimitTables.TablesShareKeys | speechbrain/data_io/data_preparation.py:199-331 | both tables are defined on exactly the TIMIT labels |
| TimitTables.OnlyQErased | speechbrain/data_io/data_preparation.py:315 | the 39 table maps a label to the empty string if and only if the label is `q` |
| TimitTables.Table48Image | speechbrain/data_io/data_preparation.py:199-263 | the values of the 48 table are exactly the 48-phoneme inventory, which has 48 distinct members |
| TimitTables.Table39Image | speechbrain/data_io/data_preparation.py:265-331 | the non-empty values of the 39 table are exactly the 39-phoneme inventory, which has 39 distinct members |
| TimitTables.Inventory39Within48 | speechbrain/data_io/data_preparation.py:59-63 | every phoneme of the 39 set is also a phoneme of the 48 set |
| Timit.TimitPrepare.constructor | speechbrain/data_io/data_preparation.py:92-346 | stores the options, including the kaldi alignment folders and options, with the defaults `phn_set = "39"`, `uppercase = False` and no kaldi folders; sets a 16 kHz sample rate; builds both conversion tables; when `uppercase` is set, upper-cases the speaker lists, the calibration sentences and the extension |
| Timit.UpperCalibration | speechbrain/data_io/data_preparation.py:333-346 | upper-casing gives the calibration sentences `SA1`, `SA2` and the extension `.WAV` |
| Timit.UpperAll | speechbrain/data_io/data_preparation.py:340-346 | upper-casing a list keeps its length and each item's length; in each item every `a`–`z` letter becomes its capital and every other character (digits included) is kept |
| PyStrings.Upper | speechbrain/data_io/data_preparation.py:340-346 | `upper()` keeps the length, replaces each `a`–`z` letter by its capital and keeps every other character |
| Timit.SpeakerIdExists | speechbrain/data_io/data_preparation.py:627 | the speaker ID (the second-to-last path component) exists if and only if the path has a `/` |
| Timit.SpeakerId | speechbrain/data_io/data_preparation.py:627 | a speaker ID is a single path component (contains no `/`) |
| Timit.SentenceId | speechbrain/data_io/data_preparation.py:628-630 | the sentence ID exists exactly when the speaker ID does, and starts with the speaker ID and `_` |
| Timit.TimitIds | speechbrain/data_io/data_preparation.py:627-630 | for `.../spk/name.wav` the speaker ID is `spk` and the sentence ID is `spk_name` |
| Timit.UppercaseIdKeepsExtension | speechbrain/data_io/data_preparation.py:628 | for an upper-case corpus, `.../SPK/NAME.WAV` gets the sentence ID `SPK_NAME.WAV`, because only `.wav` is removed |
| Timit.LastTwoComponents | speechbrain/data_io/data_preparation.py:627-628 | the last two `/`-components of `prefix/spk/file` are `spk` and `file` |
| Timit.ThirdFieldExists | speechbrain/data_io/data_preparation.py:676 | the third space-separated field of a line exists if and only if the line holds at least two spaces |
| Timit.ThirdField | speechbrain/data_io/data_preparation.py:676 | the third field contains no space |
| Timit.ThirdOfThree | speechbrain/data_io/data_preparation.py:676 | the third field of `start end field` is `field` |
| Timit.WordLine | speechbrain/data_io/data_preparation.py:676 | a `.wrd` line `start end word` with its newline gives `word` |
| Timit.PhonemeLine | speechbrain/data_io/data_preparation.py:695 | a `.phn` line `start end label` with its newline gives `label`, except that `h#` gives `sil` |
| Timit.Words | speechbrain/data_io/data_preparation.py:676 | on success, one word per line, each the line's third field; it fails exactly when some line has no third field |
| Timit.WordsRoundTrip | speechbrain/data_io/data_preparation.py:676-678 | splitting the space-joined words at spaces gives back the word list |
| Timit.ReduceAccepts | speechbrain/data_io/data_preparation.py:697-703 | for set 48 or 39 a phoneme is looked up in that table, raising `KeyError` exactly when it is not a TIMIT label; for any other set it passes through unchanged |
| Timit.ReduceLands | speechbrain/data_io/data_preparation.py:697-703 | a reduced phoneme lies in the chosen 48 or 39 inventory (except the erased `q`) |
| Timit.PhonemesWellFormed | speechbrain/data_io/data_preparation.py:693-707 | the phoneme list holds no empty phoneme, and with set 48 or 39 only phonemes of that inventory |
| Timit.PhonemesReduced | speechbrain/data_io/data_preparation.py:693-707 | when every line's phoneme converts, the phonemes are the converted phonemes of the lines, in order, without the empty ones |
| Timit.PhonemesPassThrough | speechbrain/data_io/data_preparation.py:693-707 | with a set other than 48 and 39, the phonemes are the lines' third fields, without the empty ones |
| Timit.PhonemesErrorSticks | speechbrain/data_io/data_preparation.py:693-707 | once a prefix of the `.phn` lines raises, the whole file raises the same error |
| Timit.NonEmpty | speechbrain/data_io/data_preparation.py:706-707 | keeps exactly the non-empty phonemes |
| Timit.SilencePairCollapses | speechbrain/data_io/data_preparation.py:712 | two consecutive silences become one |
| Timit.SilenceCollapseOnePass | speechbrain/data_io/data_preparation.py:712 | three consecutive silences become two, because the replacement is a single left-to-right pass |
| Timit.Header | speechbrain/data_io/data_preparation.py:599-621 | the header has 14 columns, or 17 with kaldi labels, and starts with `ID` |
| Timit.RowShape | speechbrain/data_io/data_preparation.py:715-735 | a row is as wide as the header, with the sentence ID, the wav path and the speaker ID in their columns |
| Timit.RowsInOrder | speechbrain/data_io/data_preparation.py:624-738 | the table has one row per wav file, in input order, each the row of that file |
| Timit.RowsFailIffSomeRowFails | speechbrain/data_io/data_preparation.py:624-738 | the table fails exactly when some wav file raises |
| Timit.TimitPrepare.CollectPhonemes | speechbrain/data_io/data_preparation.py:690-707 | the loop over the `.phn` lines computes the reduced, non-empty phoneme list or its first error |
| Timit.TimitPrepare.RowOf | speechbrain/data_io/data_preparation.py:624-735 | computes the row of one wav file or the error it raises |
| Timit.TimitPrepare.AppendRow | speechbrain/data_io/data_preparation.py:715-738 | one loop iteration: extends the table by the next file's row, keeping the header, or returns the error of the whole table |
| Timit.TimitPrepare.CreateCsv | speechbrain/data_io/data_preparation.py:599-738 | the loop builds the header followed by the rows of all files, or stops at the first error |
| LibriSpeech.LibriSentenceId | speechbrain/data_io/data_preparation.py:1061 | the sentence ID of `.../name.flac` is `name` |
| LibriSpeech.LibriSpeakerId | speechbrain/data_io/data_preparation.py:1062 | the speaker ID of `reader-chapter-utt` is `reader-chapter` |
| LibriSpeech.TextToDict | speechbrain/data_io/data_preparation.py:1199-1210 | the nested loop over files and lines builds the dictionary of all lines in order, a later line overwriting an earlier one with the same key |
| LibriSpeech.EntriesKeys | speechbrain/data_io/data_preparation.py:1207-1208 | the dictionary's keys are exactly the first fields of the lines |
| LibriSpeech.EntriesLastWins | speechbrain/data_io/data_preparation.py:1207-1208 | the value of a key is the text of the last line with that key |
| LibriSpeech.TranscriptLine | speechbrain/data_io/data_preparation.py:1207-1208 | a transcript line `id w1 ... wn` is stored under `id` as `w1_..._wn` |
| LibriSpeech.CreateCsv | speechbrain/data_io/data_preparation.py:1055-1090 | the loop with its sentence counter and `break` builds the lines of the selected files, or raises at the first file without a transcript |
| LibriSpeech.CsvLinesSelect | speechbrain/data_io/data_preparation.py:1086-1090 | with `select_n_sentences` n ≥ 1 the table has min(n, number of files) lines, otherwise one per file; each line is the line of its file |
| LibriSpeech.CsvLinesFail | speechbrain/data_io/data_preparation.py:1063 | the call fails exactly when a selected file's sentence ID has no transcript, and the error is a `KeyError` |
| LibriSpeech.CsvLinesIgnoresRest | speechbrain/data_io/data_preparation.py:1089-1090 | files after the n-th are never read |
| VoxCeleb.PrepareWavList | speechbrain/data_io/data_preparation.py:1451-1476 | the loop over the split file computes the three lists of the specification function `WavListsOf` |
| VoxCeleb.WavListsPartition | speechbrain/data_io/data_preparation.py:1463-1474 | when every line is well formed with label 1, 2 or 3, each list holds the joined paths of the lines with its label, in order |
| VoxCeleb.PathsLabelledCount | speechbrain/data_io/data_preparation.py:1463-1474 | the three lists together hold one path per line |
| VoxCeleb.WavListsStop | speechbrain/data_io/data_preparation.py:1460-1462 | a well-formed line with an unknown label ends the scan: the result is that of the lines before it |
| VoxCeleb.WavListsMalformed | speechbrain/data_io/data_preparation.py:1458-1459 | the first malformed line, before any unknown label, makes the call raise its `ValueError` |
| VoxCeleb.ListedLine | speechbrain/data_io/data_preparation.py:1458-1459 | a line `label spk/sess/file` parses into that label and path |
| VoxCeleb.PrepareCsv | speechbrain/data_io/data_preparation.py:1622-1675 | the loop builds the header followed by one row per wav file, or stops at the first error |
| VoxCeleb.CsvShape | speechbrain/data_io/data_preparation.py:1622-1666 | the table has an 8-column header and one 8-column row per file in order, with the wav path and the speaker ID in their columns |
| VoxCeleb.CsvFails | speechbrain/data_io/data_preparation.py:1647 | the call fails exactly when some wav path has fewer than three `/`-components |
| VoxCeleb.RowOfComponents | speechbrain/data_io/data_preparation.py:1647-1648 | when the last three components are `spk`, `sess` and `utt.ext`, the row's ID is `spk---sess---utt` and its speaker is `spk` |
| VoxCeleb.VoxId | speechbrain/data_io/data_preparation.py:1647-1648 | the file `prefix/spk/sess/utt.ext` gets the ID `spk---sess---utt` and the speaker `spk` |
| VoxCeleb.ListedFileId | speechbrain/data_io/data_preparation.py:1463-1466 | a file listed in the split file reaches the CSV with the ID built from its speaker, session and utterance |
| Outcomes.CollectFirstErr | speechbrain/data_io/data_preparation.py:624-738 | a loop that raises stops with the error of the first failing item |

## Left out

- Reading and writing files, audio and pickles is not modelled. This covers `get_all_files`, `read_wav_soundfile`, `save_pkl`, the CSV writer, `os.makedirs` and the `skip`/`check_*` helpers of each preparer. File contents are given as lines; the duration column is `durationOf(wav)`, because the source's float division of a sample count is not modelled.
- The existence checks before reading the `.wrd` and `.phn` files test the directory of the file. The model tests whether the file itself is in the corpus and raises `FileNotFoundError` when it is not.
- Timit.Row: a sentence with no kaldi label is modelled as the error `MissingKaldiLabel`. The source sets `missing_lab = False` on that path (line 634), so the sentence is kept. Its row then reuses the label path of the previous sentence (line 733), or raises a `NameError` for the first sentence. The model does not reproduce the stale path.
- The kaldi-label ratio check (lines 649-658) only logs, so it is not modelled. Reading the kaldi alignments (`read_kaldi_lab`) is not modelled either; the labels are a set of sentence IDs.
- Timit.TimitPrepare.constructor: `save_folder` has no default. In the source its default is `None`. The `None` branch (lines 349-354) reads `self.global_config`, which is never assigned, and then raises `NotImplementedError`. So that constructor never returns, and the model takes a folder name instead. The kaldi folders and options are stored; only `__call__` reads them, and it is not modelled.
- Timit.CsvLines: the kaldi branch is modelled as evidently intended, with 17-column rows. As written, `create_csv` with `kaldi_lab` set first reads `self.global_config` (line 591). That attribute is never assigned, so the call raises `AttributeError` before any row is built.
- `check_voxceleb1_folders` raises `NotImplementedError` (line 1727). It is part of the folder checks, which are not modelled.
- The `__call__` methods that pick the splits, and the file selection by speaker list, calibration sentence and extension, are not modelled. The constructor's lists are, but the filtering lives in `get_all_files`.
- The LibriSpeech and VoxCeleb preparer constructors are not modelled. Each runs the whole preparation: file discovery, the folder checks, and writing the CSVs and pickles.
  - LibriSpeech (lines 940-986): `get_all_files`, `text_to_dict`, then `create_csv` per split. `select_n_sentences` defaults to the number of wav files (lines 975-978).
  - VoxCeleb (lines 1378-1437): `prepare_wav_list`, then `prepare_csv` per split.
  - Both read `self.save_folder`, `self.splits` or `self.conf`, which they never assign (lines 940, 1383, 1446).
  - The model covers their steps: `TextToDict` and `CreateCsv` (with `n` as the selected count), and `PrepareWavList` and `PrepareCsv`.
- The implementation of `DataPipeline` (`speechbrain/utils/data_pipeline.py`) is not part of this model. The class follows what the unit test promises:
  - registered functions are total and are always called with the right number of arguments; a Python `TypeError` for a wrong arity is not modelled;
  - the test's `set_output_names("bar")` is modelled as the selection `["bar"]`;
  - the mock's `called` flag is the `calls` log a call returns.
- Pipeline.Eval: a registered function shadows an input of the same name. The unit test never gives an input the name of a registered function, so this choice is the model's own.
- Pipeline.DataPipeline.Call requires an acyclic registry whose needed leaves are all inputs. What the implementation does on a cycle or a missing input is not visible, so it is not modelled.
- PyStrings.Upper, Timit.UpperAll: only the ASCII letters `a`–`z` are upper-cased. Python's `str.upper` also maps non-ASCII letters. TIMIT names are ASCII.
- PyStrings.Strip, PyStrings.IsSpace: whitespace is exactly the set of characters Python's `str.isspace` accepts.
- The training recipes that call these preparers are not part of this model.
