# Response-time test: trial sequencing, in Dafny

This project models the core of the response-time test window of the
Eyelids-Tests experiment (`test.py`). A subject is shown (or played, or sent) a
direction stimulus and presses the matching key. The window measures the
latency from stimulus onset to the key press and works through a fixed plan of
trials. The plan is `repeats` correctly answered trials of each test kind
("Baseline", "Speech", "Audio", "Eyelids"), kind after kind. At the end it shows
the average latency per kind and writes a results file.

Modules, one per concern of `test.py`:

- `TrialPlan` (`plan.dfy`): the kind-major trial plan. Trial `i` has kind
  `types[i / repeats]`. A kind listed `c` times is planned `repeats * c` times,
  so when the kinds are distinct each kind is planned exactly `repeats` times.
- `Results` (`results.dfy`): the `(kind, direction, latency)` records, the
  per-kind average (0 for a kind with no record), and the rows of the results
  file (a header, then one row per record). It also holds a reader for those
  rows, the inverse of the export.
- `Translation` (`translation.dfy`): the English-to-Chinese message table and
  `translate`, which falls back to the English text.
- `Symbols` (`symbols.dfy`): the glyph a baseline trial shows for each of the
  five directions, and its inverse.
- `ResponseTime` (`response_time.dfy`): the class `ResponseTimeTest` with the
  fields of the source. These are `test_count`, `start_time`, `current_test`,
  `current_direction` and `results`, plus the start button's state, the symbol
  label, the pending delayed callbacks, the shown averages and the written rows.
  Its methods are the source's transitions: `StartTest`, `PresentStimulus`,
  `KeyResponse`, `ShowResults`, `SaveResultsToCsv`, the start button
  (`ClickStart`) and the event loop running one pending callback (`FireTimer`).

The object invariant `Valid()` is what every transition keeps:

- `|results| == testCount <= Total`, where `Total` is `len(types) * repeats`
  for positive `repeats` and 0 otherwise;
- record `i` has kind `types[i / repeats]`, and its direction is a configured one;
- the window is in one of five phases, read off its fields: not started,
  preparing a chosen trial, awaiting a key, showing feedback, or finished.

How the model represents the environment:

- The clock reading `now` (seconds, as a `real`) is a parameter of
  `PresentStimulus` and `KeyResponse`.
- The randomly drawn direction is a parameter of the methods that may start a
  trial, and it must be one of the configured directions.
- Each `master.after` callback becomes a pending `Timer` that the method
  appends. `FireTimer` later removes one and runs it.

The guard `if self.start_time:` tests Python truthiness, so the model scores a
key only when the stored onset time is present and non-zero (`Pending()`).

`ResponseTimeTest` takes its configuration as a constructor parameter. The
source reads the module constant `test_setup`; the model keeps that constant as
`TestSetup`. This lets the lemmas hold for every configuration, including
`repeats == 0`, which ends the session at once without reaching the division at
`test.py:102`.

Behaviours of the code the model keeps:

- The file header is `Test Type`, `Direction`, `Response Time (seconds)`.
- A clock reading of exactly 0.0 counts as "no stimulus pending", because the
  guard tests truthiness.

## Model

| member | source | states |
|---|---|---|
| `TrialPlan.Plan` | test.py:98-102 | the plan has `len(types) * repeats` trials (none for non-positive `repeats`), each of a configured kind |
| `TrialPlan.GuardIsTotal` | test.py:98-100 | the finishing test `test_count >= len(types) * repeats` is exactly `test_count >= Total`, where Total is 0 for non-positive `repeats` |
| `TrialPlan.BlockInRange` | test.py:102 | below the total, `repeats > 0` (no division by zero) and `test_count // repeats` is a valid index into the kinds |
| `TrialPlan.PlanKind` | test.py:102 | the kind chosen for trial `i` is one of the configured kinds |
| `TrialPlan.PlanUnfolds` | test.py:98-102 | kind-major order: the plan is `repeats` trials of the first kind followed by the plan of the remaining kinds |
| `TrialPlan.PlanCount` | test.py:98-102 | a kind listed `c` times is planned `repeats * c` times |
| `TrialPlan.EachKindPlannedRepeatsTimes` | test.py:98-102 | with distinct kinds, every kind is planned exactly `repeats` times |
| `Results.LatenciesOf` | test.py:152 | a kind's samples are never more than the records, and are empty exactly when no record has that kind |
| `Results.Mean` | test.py:153 | the mean of no samples is 0; otherwise the mean times the number of samples is their sum |
| `Results.AverageFor` | test.py:152-153 | a kind that no record has averages to 0 |
| `Results.HasKindExists` | test.py:152 | the "no record of this kind" test used by `LatenciesOf` and `AverageFor` holds exactly when no record index has that kind |
| `Results.AverageOfAbsentKind` | test.py:152-153 | a kind with no record has no samples and averages to exactly 0 |
| `Results.LatenciesOfAppend` | test.py:141-152 | appending a record adds its latency at the end of its own kind's samples and changes no other kind's samples |
| `Results.LatencyComesFromRecord` | test.py:152 | every sample of a kind is the latency of some record of that kind |
| `Results.SampleCount` | test.py:152 | the number of samples of a kind equals the number of records of that kind |
| `Results.MeanBounds` | test.py:153 | the average of non-empty samples lying in `[lo, hi]` lies in `[lo, hi]` |
| `Results.EachKindSampledRepeatsTimes` | test.py:141-153 | records that follow the plan to its end hold exactly `repeats` samples of each of the distinct kinds |
| `Results.KindAverages` | test.py:151-153 | the results loop yields one average per kind, in the kinds' order, each the mean of that kind's latencies (0 if none) |
| `Results.RowOf` | test.py:167 | a record's row (kind, direction, latency) reads back as exactly that record |
| `Results.RowsOf` | test.py:166-167 | one row per record, row `i` being record `i`'s row |
| `Results.ExportTable` | test.py:165-167 | the exported table has `len(results) + 1` rows: the header first, then row `i + 1` is record `i`, in insertion order |
| `Results.WriteRows` | test.py:164-167 | the writing loop produces exactly the header followed by every record's row |
| `Results.ExportRoundTrip` | test.py:165-167 | reading the rows back yields exactly the records in order, and only the export of those records reads back as them |
| `Translation.NoTranslationIsAKey` | test.py:18-39 | no Chinese translation is itself an English message of the table |
| `Translation.Translate` | test.py:41-42 | a text outside the table comes back unchanged; a message of the table becomes one of the table's translations, which is itself not a message of the table |
| `Translation.TranslateIdempotent` | test.py:41-42 | translating twice gives the same text as translating once |
| `Translation.TranslateChangesExactlyTableMessages` | test.py:41-42 | `translate` changes a text if and only if the text is a message of the table; every other text is returned unchanged |
| `Translation.UntranslatedMessages` | test.py:61-121 | the Eyelids kind, its prompt and the connect messages are not in the table and are shown in English |
| `Symbols.SymbolFor` | test.py:125-132 | a glyph exists exactly for the directions of the table, and reading the glyph back gives the direction |
| `Symbols.FiveDirections` | test.py:125-131 | exactly the five directions have a glyph |
| `Symbols.SymbolsDistinct` | test.py:125-131 | different directions show different glyphs |
| `Symbols.SymbolRoundTrip` | test.py:125-132 | a glyph is shown for a direction if and only if reading the glyph back names that direction |
| `ResponseTime.ResponseTimeTest.constructor` | test.py:53-59 | a new window has the configured kinds, repeats and directions, no trial, no onset time, count 0 and no results; the invariant holds |
| `ResponseTime.ResponseTimeTest.ClickStart` | test.py:67 | a click on the disabled button changes nothing; on the enabled button it runs `start_test`; results and count never change; the invariant is kept |
| `ResponseTime.ResponseTimeTest.StartTest` | test.py:97-107 | at or past the total it shows the results, writes the file and schedules the close, choosing no trial; otherwise `repeats > 0`, the kind is `types[count // repeats]`, the direction is the drawn one, the button is disabled and the stimulus is scheduled after 2000 ms; results, count and onset are unchanged |
| `ResponseTime.ResponseTimeTest.PresentStimulus` | test.py:109-113 | stamps the onset time `now`, keeps the trial, shows the direction's glyph on a baseline trial; the window then awaits a key |
| `ResponseTime.ResponseTimeTest.KeyResponse` | test.py:134-147 | with no truthy onset time nothing changes; a wrong key leaves results and count, clears the onset and schedules the same trial again; the right key appends exactly `(kind, direction, now - onset)`, increments the count by one, clears the onset and schedules the next trial; the invariant is kept |
| `ResponseTime.ResponseTimeTest.ShowResults` | test.py:149-160 | the shown averages are one per kind, in order, each the kind's mean latency; the file holds the export of the results; the close is scheduled after 100 ms |
| `ResponseTime.ResponseTimeTest.SaveResultsToCsv` | test.py:162-167 | the file is overwritten with the header and one row per record |
| `ResponseTime.ResponseTimeTest.FireTimer` | test.py:174-179 | running any pending callback keeps the invariant and never records a result; a stimulus callback stamps the onset, a restart callback behaves as `start_test`, a close callback only leaves the queue; only a restart callback changes the shown averages, the file or the start button, and a close callback also leaves the trial, the onset and the symbol unchanged |
| `ResponseTime.CompletedSessionSamples` | test.py:141-153 | at the end of a session with distinct kinds, every kind's average is over exactly `repeats` samples |
| `ResponseTime.TwoTrialAverage` | test.py:152-167 | latencies 0.40 s and 0.55 s of one kind average to 0.475 s, and the file has a header and two rows |

## Left out

- Widgets: the tkinter labels, buttons, key bindings and message box (`test.py:61-81`, `test.py:104`, `test.py:138`, `test.py:142`, `test.py:154-155`) are not modelled. Their text is display only. The key bindings are the `key` argument of `KeyResponse`. The symbol label and the start button's enabled state are modelled, because the sequencing depends on them.
- Stimulus playback: the pygame sound, the `say` subprocess and the Eyelids signal (`test.py:114-122`) are fire-and-forget foreign calls and are not modelled. The onset time is stamped before them.
- Bluetooth: the connect window and the connector classes (`test.py:83-95`, `connector.py`) are not part of this model. The constructor starts in the state after a device is connected, with the start button enabled. Closing the Bluetooth window again mid-session would re-enable the button; that path is not modelled.
- The disconnect request at the end (`test.py:159`) is a foreign call and is not modelled.
- `ResponseTime.ResponseTimeTest.FireTimer`: the close callback (`master.quit`) only leaves the queue; tearing down the window is not modelled. Callbacks may fire in any order, which over-approximates the event loop's due-time order.
- The event loop and `run_test` (`test.py:170-183`) are plumbing; `FireTimer` stands for one callback they run.
- The clock and `random.choice` are parameters. The clock is not assumed monotonic, so the model makes no claim on the sign of a latency. `random.choice` raising on an empty direction list is not modelled, because a drawn direction must be one of the configured ones.
- Numbers: float rounding is not modelled; latencies and averages are exact reals.
- File output: opening the file, the csv module's text encoding and the `print` (`test.py:163-168`) are not modelled. The file is the sequence of rows it receives; a latency cell holds the full value, as `test.py:167` writes it. The three-decimal `:.3f` formatting (`test.py:142`, `test.py:154`) is display text only and is not modelled.
- `result.py` (pandas grouping and charts) is not part of this model; `Results.ParseTable` stands for reading the file back.
