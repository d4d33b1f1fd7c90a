# ChronoBloom core, modelled in Dafny

ChronoBloom feeds phenology observations into Splunk and asks Gemini for
predictions about them. This project models two sequential pieces of it.

**The acquisition input handler** (`ChronoBloomInput`, file `chronobloom_input.dfy`)
- `main` starts from a four-key default configuration. Each `key=value`
  argument overrides one entry; it is split at its first `=`.
- `run` parses the species and phenophase id lists and the state list from
  that configuration.
- It then generates a batch of five synthetic observations and writes them to
  standard output in order.
- When an id list does not parse, `int()` raises. The handler then writes
  exactly one fixed test event instead.

**The prediction bridge** (`GeminiPrediction`, file `gemini_prediction.dfy`)
- `generate_gemini_prediction` turns fetched observations into predictions:
  - no data gives one error record, and Gemini is never called;
  - a failed Gemini call gives one error record;
  - otherwise the text from the first `[` to the last `]` of Gemini's reply is
    parsed, and a reply with no such span, or a span that does not parse, gives
    one error record that keeps the raw reply.
- `ingest_predictions_to_splunk` writes one envelope per prediction, in order,
  to the `predictions` index. It writes nothing when the list is empty, Splunk
  is unreachable or the index is missing.
- The `__main__` block ingests only when the fetch found data and no
  prediction carries an `"error"` key.

The Python string operations both rely on are modelled in `py_strings.dfy`
(`PyStrings`):
- `str.find` and `str.rfind`;
- `str.split`, with `Join` defined beside it only as its inverse, to state the
  round-trip lemmas (neither file calls `str.join`);
- `str.strip` and `str.upper`;
- `in` on two strings, the test the prediction gate applies to string records;
- `int()` on a token and `str()` of an integer.

`wrappers.dfy` holds the `Option` type.

Foreign effects are modelled as follows:
- **Random choices.** `random.choice` and `random.uniform` become an injected
  chooser `choose(i, draw)`: round `i` and the kind of draw select the pick.
  `random.choice(xs)` is `xs[pick % |xs|]`.
- **Clock.** `time.time()` and `datetime.now()` become an injected clock.
  Record `i` reads `clock(i)`.
- **Standard output.** A `Stdout` object whose `lines` grow by one per event.
- **Gemini.** A `GeminiClient` object. It records the data embedded in each
  prompt and answers with a fixed `Reply(text)` or `Failure(message)`.
- **`json.loads`.** A partial function `string -> Option<seq<Json>>`. It is
  only ever applied to text that starts with `[`, so a successful parse is an
  array.
- **Splunk.** A `SplunkService` object: whether `connect` succeeds, whether
  the `predictions` index exists, and the sequence of events submitted.
- **The Splunk fetch.** `fetch_splunk_data` becomes the `fetched` parameter.
  It is `None` when the fetch raised.

The model follows the code, which:
- raises on a malformed id token: `int()` aborts the whole batch and the
  single test event is emitted; the token is not dropped;
- does not check the fields of a generated record; it only draws from the
  given lists or uses the defaults.

## Model

| member | source | states |
|---|---|---|
| PyStrings.Find | bin/gemini_integration/gemini_prediction_script.py:161 | `find` returns -1 exactly when the character is absent, otherwise an index holding it with no earlier occurrence |
| PyStrings.AbsentBefore | bin/gemini_integration/gemini_prediction_script.py:161 | a character at no index below n is absent from the first n characters |
| PyStrings.AbsentAfter | bin/gemini_integration/gemini_prediction_script.py:162 | a character at no index from n on is absent from the rest of the string |
| PyStrings.RFind | bin/gemini_integration/gemini_prediction_script.py:162 | `rfind` returns -1 exactly when the character is absent, otherwise an index holding it with no later occurrence |
| PyStrings.Split | bin/chronobloom_input.py:60 | `split(',')` yields at least one piece |
| PyStrings.SplitPiecesSeparatorFree | bin/chronobloom_input.py:60 | no piece of a split contains the separator |
| PyStrings.JoinSplit | bin/chronobloom_input.py:60 | joining the pieces of a split with the separator gives back the original string |
| PyStrings.SplitJoin | bin/chronobloom_input.py:60 | splitting a join of separator-free pieces gives back the pieces |
| PyStrings.SplitSeparatorFree | bin/chronobloom_input.py:60 | a string without the separator splits into itself alone |
| PyStrings.SplitAfterPiece | bin/chronobloom_input.py:60 | a separator-free prefix followed by the separator becomes the first piece, the rest splits on its own |
| PyStrings.Join | bin/chronobloom_input.py:60 | joining separator-free pieces puts the separator in the text exactly when there are two or more pieces |
| PyStrings.StripLeft | bin/chronobloom_input.py:60 | the result is a suffix of the input, everything dropped is whitespace, and it does not start with whitespace |
| PyStrings.StripRight | bin/chronobloom_input.py:60 | the result is a prefix of the input, everything dropped is whitespace, and it does not end with whitespace |
| PyStrings.Strip | bin/chronobloom_input.py:60 | `strip()` leaves no whitespace at either end and is empty exactly when the input is blank |
| PyStrings.StripIsSlice | bin/chronobloom_input.py:60 | what `strip()` keeps is a contiguous part of the input with only whitespace before and after it |
| PyStrings.StripKeepsOut | bin/chronobloom_input.py:60 | `strip()` introduces no character that was absent from its input |
| PyStrings.SliceKeepsOut | bin/chronobloom_input.py:60 | a slice holds no character its string does not |
| PyStrings.StripTrimmed | bin/chronobloom_input.py:60 | a non-empty string with no whitespace at either end is left unchanged |
| PyStrings.UpperChar | bin/chronobloom_input.py:66 | a lowercase letter `a`-`z` becomes the uppercase letter at the same place in `A`-`Z`; any other character is kept |
| PyStrings.Upper | bin/chronobloom_input.py:66 | `upper()` keeps the length, upper-cases each character in place, leaves no lowercase letter, and keeps every character that was not lowercase |
| PyStrings.UpperKeepsOut | bin/chronobloom_input.py:66 | `upper()` introduces no character that was absent, other than an uppercase letter |
| PyStrings.ParseInt | bin/chronobloom_input.py:60 | `int()` succeeds exactly on an optional sign followed by at least one digit, and a parsed token is non-empty and comma-free |
| PyStrings.NatToString | bin/chronobloom_input.py:87 | the decimal text of a natural number is non-empty digits ending in its last digit, with a leading `0` only for zero itself |
| PyStrings.NatToStringValue | bin/chronobloom_input.py:87 | the digits of a natural number read back as that number |
| PyStrings.IntToString | bin/chronobloom_input.py:87 | `str(i)` is non-empty digits with at most a leading minus sign |
| PyStrings.ParseIntToString | bin/chronobloom_input.py:60 | `int(str(i)) == i` for every integer |
| PyStrings.IntToStringInjective | bin/chronobloom_input.py:89 | distinct integers print differently |
| PyStrings.Contains | bin/gemini_integration/gemini_prediction_script.py:236 | `pat in s` can hold only when pat is no longer than s |
| PyStrings.ContainsOccurrence | bin/gemini_integration/gemini_prediction_script.py:236 | `pat in s` holds exactly when pat occurs in s at some position |
| ChronoBloomInput.Assignment | bin/chronobloom_input.py:147-148 | an argument is an assignment exactly when it contains `=`; the key has no `=`, and key + `=` + value rebuilds the argument |
| ChronoBloomInput.Override | bin/chronobloom_input.py:146-149 | every key of the result was in the starting configuration or is assigned by some argument |
| ChronoBloomInput.OverrideLastWins | bin/chronobloom_input.py:146-149 | the last argument assigning a key decides its value, even a value containing `=` |
| ChronoBloomInput.OverrideUnassigned | bin/chronobloom_input.py:146-149 | a key no argument assigns keeps its default value, or stays absent |
| ChronoBloomInput.OverrideKeys | bin/chronobloom_input.py:146-149 | every default key survives and every assigned key, known or not, is stored |
| ChronoBloomInput.OverrideIgnoresPlainArgument | bin/chronobloom_input.py:147 | an argument without `=` changes nothing |
| ChronoBloomInput.ApplyArguments | bin/chronobloom_input.py:138-149 | the loop leaves the configuration the default map overridden by the arguments in order |
| ChronoBloomInput.StripAll | bin/chronobloom_input.py:60 | `x.strip()` of every piece, one result per piece, in order |
| ChronoBloomInput.StripAllAppend | bin/chronobloom_input.py:60 | stripping works piece by piece: it distributes over concatenation of the pieces |
| ChronoBloomInput.NonEmpty | bin/chronobloom_input.py:60 | the `if x.strip()` filter keeps no more strings than it is given, and none of them empty |
| ChronoBloomInput.NonEmptyAppend | bin/chronobloom_input.py:60 | the `if x.strip()` filter distributes over concatenation |
| ChronoBloomInput.NonEmptyKeeps | bin/chronobloom_input.py:60 | what the filter keeps was among its input |
| ChronoBloomInput.NonEmptyOfNonEmpty | bin/chronobloom_input.py:60 | strings that are all non-empty pass the filter unchanged, in order |
| ChronoBloomInput.NonEmptySkipsEmpty | bin/chronobloom_input.py:60 | an empty string anywhere in the list is dropped by the filter |
| ChronoBloomInput.StripAllWithBlank | bin/chronobloom_input.py:60 | a blank piece strips to the empty string in its place |
| ChronoBloomInput.StrippedSkipsBlank | bin/chronobloom_input.py:60 | a blank piece anywhere in the list changes none of the kept stripped pieces |
| ChronoBloomInput.Tokens | bin/chronobloom_input.py:60 | every token of the list is non-empty |
| ChronoBloomInput.TokensFromPieces | bin/chronobloom_input.py:60 | stripping comma-free pieces and dropping the empty results leaves comma-free tokens |
| ChronoBloomInput.TokensCommaFree | bin/chronobloom_input.py:60 | no token of a comma-separated list holds a comma |
| ChronoBloomInput.TokensOfEmpty | bin/chronobloom_input.py:58-60 | the empty string has no tokens |
| ChronoBloomInput.TokensOfJoin | bin/chronobloom_input.py:60 | the tokens of a comma-joined list are its pieces, stripped, with the blank ones dropped |
| ChronoBloomInput.BlankPieceIgnored | bin/chronobloom_input.py:60 | a blank piece between commas, as in `3,,52` or `3,52,`, contributes no token |
| ChronoBloomInput.ParseEach | bin/chronobloom_input.py:60 | the list parses exactly when every token does, and then holds one value per token, in order |
| ChronoBloomInput.ParseIds | bin/chronobloom_input.py:56-59 | `""` gives the empty list |
| ChronoBloomInput.ParseIdsTokenwise | bin/chronobloom_input.py:56-60 | the result exists exactly when every non-blank token is a decimal, and then holds one int per token, in order |
| ChronoBloomInput.ParseIdsOfTokens | bin/chronobloom_input.py:58-60 | `parse_ids` is `int()` over the tokens, the empty string included |
| ChronoBloomInput.BlankPieceNoId | bin/chronobloom_input.py:60 | `3,,52` and `3,52,` parse to the same ids as `3,52` |
| ChronoBloomInput.PrintedTrimmed | bin/chronobloom_input.py:60 | the decimal text of an id is non-empty, comma-free and unchanged by `strip()` |
| ChronoBloomInput.TokensOfPrinted | bin/chronobloom_input.py:60 | a non-empty list of printed ids, joined with commas, tokenises back into the printed ids |
| ChronoBloomInput.ParseEachPrinted | bin/chronobloom_input.py:60 | `int()` of each printed id gives the ids back |
| ChronoBloomInput.ParseIdsRoundTrip | bin/chronobloom_input.py:56-60 | `parse_ids` inverts `",".join(str(i) for i in ids)` |
| ChronoBloomInput.PrintedDefaultSpecies | bin/chronobloom_input.py:40 | the default species ids print as `3`, `35`, `52` |
| ChronoBloomInput.PrintedDefaultPhenophases | bin/chronobloom_input.py:41 | the default phenophase ids print as `373`, `501`, `390` |
| ChronoBloomInput.DefaultSpeciesParse | bin/chronobloom_input.py:40 | the default species list `3,35,52` parses to [3, 35, 52] |
| ChronoBloomInput.DefaultPhenophasesParse | bin/chronobloom_input.py:41 | the default phenophase list `373,501,390` parses to [373, 501, 390] |
| ChronoBloomInput.DefaultSettings | bin/chronobloom_input.py:138-143 | main's default configuration holds the id lists `3,35,52` and `373,501,390` |
| ChronoBloomInput.DefaultConfigParses | bin/chronobloom_input.py:36-43 | the default id lists parse to [3, 35, 52] and [373, 501, 390], so the default configuration yields filters and `run` generates the batch |
| ChronoBloomInput.ParseStates | bin/chronobloom_input.py:62-66 | one state per non-blank token, each the upper-cased stripped token, in order; `""` gives none |
| ChronoBloomInput.ParseStatesNormalised | bin/chronobloom_input.py:66 | every state is non-empty, comma-free and has no lowercase letter |
| ChronoBloomInput.ParseConfig | bin/chronobloom_input.py:40-42 | the filters exist exactly when both id lists parse, and they are the parsed lists and states |
| ChronoBloomInput.SpeciesName | bin/chronobloom_input.py:77-89 | a species name is non-empty and starts with `S` exactly when it is the `Species_<id>` fallback for an id outside the table |
| ChronoBloomInput.SpeciesNameInjective | bin/chronobloom_input.py:77-89 | equal species names come from equal species ids |
| ChronoBloomInput.PhenophaseName | bin/chronobloom_input.py:78-91 | a phenophase name is non-empty and starts with `P` exactly when it is the `Phenophase_<id>` fallback for an id outside the table |
| ChronoBloomInput.PhenophaseNameInjective | bin/chronobloom_input.py:78-91 | equal phenophase names come from equal phenophase ids |
| ChronoBloomInput.ChoiceOr | bin/chronobloom_input.py:82-84 | an empty list yields the default, a non-empty one yields one of its elements |
| ChronoBloomInput.LatitudeMicro | bin/chronobloom_input.py:94 | latitude lies between 32 and 42 degrees |
| ChronoBloomInput.LongitudeMicro | bin/chronobloom_input.py:95 | longitude lies between -120 and -100 degrees |
| ChronoBloomInput.ObservationId | bin/chronobloom_input.py:87 | the id `test_<t>_<i>` ends in `_<i>`, so its last character is the last digit of i |
| ChronoBloomInput.SyntheticObservation | bin/chronobloom_input.py:81-101 | each observation's ids and state come from the filters or are 3, 373 and `CA`; its names follow the tables; its id ends in `_<i>`; its site is `Test Site <i+1>`; its coordinates, status, intensity and source are in range |
| ChronoBloomInput.Rounds | bin/chronobloom_input.py:80-105 | a loop of n rounds appending one value each builds exactly n values |
| ChronoBloomInput.RoundsAt | bin/chronobloom_input.py:81-103 | entry i of the rounds is the value built in round i |
| ChronoBloomInput.SyntheticBatch | bin/chronobloom_input.py:80-105 | the first n rounds produce exactly n observations |
| ChronoBloomInput.SyntheticBatchAt | bin/chronobloom_input.py:81-103 | entry i of the batch is the observation built in round i |
| ChronoBloomInput.GenerateTestData | bin/chronobloom_input.py:73-105 | exactly five observations, round i building entry i, each well formed |
| ChronoBloomInput.FetchData | bin/chronobloom_input.py:68-71 | the data fetched is the generated batch |
| ChronoBloomInput.BatchIdsDistinct | bin/chronobloom_input.py:87 | the observation ids of one batch are pairwise distinct, whatever the clock reads |
| ChronoBloomInput.TestEvent | bin/chronobloom_input.py:113-131 | the fallback event has species 3, phenophase 373 and state `CA` |
| ChronoBloomInput.RunOutput | bin/chronobloom_input.py:36-54 | `run` writes exactly one test event when an id list fails to parse, and otherwise the five generated observations in generation order |
| ChronoBloomInput.Stdout.Emit | bin/chronobloom_input.py:107-111 | one event is appended to the output |
| ChronoBloomInput.InputHandler.OutputTestEvent | bin/chronobloom_input.py:113-132 | exactly the test event is appended to the output |
| ChronoBloomInput.EmitAll | bin/chronobloom_input.py:48-49 | the observations are appended to the output in order |
| ChronoBloomInput.InputHandler.Run | bin/chronobloom_input.py:36-54 | the output grows by exactly `RunOutput` of the configuration |
| ChronoBloomInput.RunFromCommandLine | bin/chronobloom_input.py:134-153 | `main` writes the run output of the default configuration overridden by the arguments |
| GeminiPrediction.ArraySpan | bin/gemini_integration/gemini_prediction_script.py:161-163 | a span exists exactly when some `[` has a `]` after it; it runs from a `[` to a later `]` with no `[` before it and no `]` after it |
| GeminiPrediction.ArrayText | bin/gemini_integration/gemini_prediction_script.py:161-164 | the text handed to the parser is the inclusive slice of the span; it starts with `[`, ends with `]`, no `[` precedes it and no `]` follows it |
| GeminiPrediction.ExtractPredictions | bin/gemini_integration/gemini_prediction_script.py:159-173 | without a span, or when the slice does not parse, the result is one error record holding the raw reply; otherwise it is the parsed array |
| GeminiPrediction.ArrayTextOfWrapped | bin/gemini_integration/gemini_prediction_script.py:159-164 | prose without `[` before a bracketed array and without `]` after it is cut away exactly |
| GeminiPrediction.ReversedBracketsExample | bin/gemini_integration/gemini_prediction_script.py:163 | a `]` that comes before the only `[` is no span |
| GeminiPrediction.PredictionsFromReply | bin/gemini_integration/gemini_prediction_script.py:149-177 | a failed call, a reply without a span or a span that does not parse gives exactly one record that holds `"error"`; otherwise the parsed array |
| GeminiPrediction.Prediction | bin/gemini_integration/gemini_prediction_script.py:69-177 | no data gives exactly one record that holds `"error"`; otherwise the predictions are those of Gemini's reply to the data |
| GeminiPrediction.GeminiClient.GenerateContent | bin/gemini_integration/gemini_prediction_script.py:149-153 | each call records its prompt's data and returns Gemini's reply to it |
| GeminiPrediction.GenerateGeminiPrediction | bin/gemini_integration/gemini_prediction_script.py:69-177 | the predictions are those of the reply to the data, and Gemini is called once when there is data and never otherwise |
| GeminiPrediction.NoDataPrediction | bin/gemini_integration/gemini_prediction_script.py:74-76 | no data gives exactly the no-data error record, which carries `"error"` |
| GeminiPrediction.FailurePrediction | bin/gemini_integration/gemini_prediction_script.py:175-177 | a failed call gives exactly one error record naming the failure, and the gate rejects it |
| GeminiPrediction.UnparsablePrediction | bin/gemini_integration/gemini_prediction_script.py:168-173 | an unparsable reply gives exactly one error record whose `raw_response` is the whole reply, and the gate rejects it |
| GeminiPrediction.ContainsError | bin/gemini_integration/gemini_prediction_script.py:236 | `"error" in p` raises exactly on numbers, booleans and null; it tests the keys of an object, the elements of a list, and the substrings of a string |
| GeminiPrediction.AnyError | bin/gemini_integration/gemini_prediction_script.py:236 | `any(...)` is false exactly when every record tests clean; it is true, or raises, only at a record that holds `"error"`, or raises, with every record before it clean |
| GeminiPrediction.AnyErrorStep | bin/gemini_integration/gemini_prediction_script.py:236 | a clean first record leaves the decisive record of the rest decisive for the whole list |
| GeminiPrediction.Gate | bin/gemini_integration/gemini_prediction_script.py:236-240 | the gate never reports no data; an empty list is rejected; a crash or a rejection of a non-empty list comes from the first decisive record |
| GeminiPrediction.GateIngestsExactlyClean | bin/gemini_integration/gemini_prediction_script.py:236-237 | ingestion is called exactly when the predictions are non-empty and none holds `"error"` |
| GeminiPrediction.ErrorObjectBlocks | bin/gemini_integration/gemini_prediction_script.py:236 | one object with an `"error"` key anywhere in the list stops ingestion |
| GeminiPrediction.FirstDecisiveRecord | bin/gemini_integration/gemini_prediction_script.py:236 | a number before an error object crashes the test, an error object before a number rejects the predictions |
| GeminiPrediction.Envelopes | bin/gemini_integration/gemini_prediction_script.py:205-213 | one envelope per prediction |
| GeminiPrediction.EnvelopesCarryPredictions | bin/gemini_integration/gemini_prediction_script.py:205-215 | the envelopes carry the predictions unchanged and in order, each with the script's source and the `chrono_predictions` sourcetype |
| GeminiPrediction.SplunkService.Submit | bin/gemini_integration/gemini_prediction_script.py:215 | a submit appends one event to the index |
| GeminiPrediction.IngestPredictions | bin/gemini_integration/gemini_prediction_script.py:179-218 | the index grows by one envelope per prediction, in order, when the list is non-empty, Splunk is reachable and the index exists, and by nothing otherwise |
| GeminiPrediction.ScriptOutcome | bin/gemini_integration/gemini_prediction_script.py:231-242 | the outcome is no data exactly when the fetch found nothing, and ingestion only ever receives a non-empty list |
| GeminiPrediction.RunPredictionScript | bin/gemini_integration/gemini_prediction_script.py:220-243 | the outcome follows the gate; Gemini is called only with data; Splunk is written only when ingestion is called |
| GeminiPrediction.WritesOnlyClean | bin/gemini_integration/gemini_prediction_script.py:231-237 | ingestion happens only after a non-empty fetch, with non-empty predictions none of which holds `"error"` |
| GeminiPrediction.GeminiErrorsNeverIngested | bin/gemini_integration/gemini_prediction_script.py:168-177 | a failed Gemini call or a reply without an array never reaches Splunk |

## Left out

- Floating point: latitude and longitude are integers in millionths of a degree, the precision `round(..., 6)` keeps. Every value in the box is reachable, but the uniform distribution is not modelled.
- Randomness and the clock are injected functions: the model says which values are possible, not how likely they are.
- The two clock reads per record (`time.time()` twice, `datetime.now()` twice) are collapsed into one `Instant` per round. A second boundary falling between two reads is not modelled.
- PyStrings.Upper: upper-cases the ASCII letters only. Python's Unicode case mapping (`ß` to `SS`, other scripts) is not modelled.
- PyStrings.ParseInt: accepts an optional sign and ASCII digits only. Python's `int()` also accepts `_` between digits and non-ASCII digits; those tokens are treated as failures.
- `json.dumps` serialisation of observations and envelopes is not modelled: the output holds the records themselves.
- JSON numbers keep their literal text; floats are not modelled.
- Logging (`log_message`, `logging`), `print` and `sys.stdout.flush` are not modelled. A failing write to standard output, which would make `run` also emit the test event after a partial batch, is not modelled.
- The Splunk SDK (`connect`, `jobs.export`, `JSONResultsReader`, `indexes`) and the Gemini SDK (`configure`, `GenerativeModel`, `generate_content`) are foreign calls. They appear only as the fetch result, the `SplunkService` and `GeminiClient` objects, and the reply.
- GeminiPrediction.IngestPredictions: a `submit` that raises part-way through the loop, leaving a prefix written, is not modelled; every submit succeeds once the index exists.
- The prompt text is a fixed template; only the data it embeds is recorded.
- `.env` loading, the missing-key `sys.exit`, and the Splunk connection settings are not modelled.
- The catch-all handler of the input handler's `main` is not modelled: nothing modelled in `main` can raise.
- The constructor's `ChronoBloomAPI` and `ChronoBloomSimulator` objects are not modelled: `fetch_data` never uses them.
