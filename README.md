# Encounter narrative generator: the deterministic layer

The script `generate_encounter_narrative.py` turns a Synthea EHR export into
synthetic clinical documents. It picks an encounter and builds validated
profiles of the patient and of every record category tied to the encounter
(observations, immunizations, medications, procedures, care plans,
conditions, devices, imaging studies). Language-model programs summarise
those profiles into narratives. A "documentation guru" lists the documents
that encounter would have produced. A writer agent drafts each document,
asking a head-physician oracle for facts. A refiner polishes each draft, and
every refined document is saved under a fresh numbered directory.

This project models everything in that chain that does not depend on what
a language model says:

- **Timestamps.** `parse_date` and `parse_datetime` read Synthea timestamps
  into integer components. Blank or NaN cells read as absent, and any other
  shape is an error. Formatting and parsing back is the identity.
- **Records.** Every `from_row` constructor is modelled: the first error
  raised while its arguments are evaluated, or pydantic's validation of the
  result. Optional columns mirror their cells. `zip` is `str(int(ZIP))` and
  `code` is `str(CODE)`. For each constructor, the rows it accepts are
  characterised exactly. A row that spells a profile reads back as that
  profile, and some row does convert.
- **Tables.** `get_encounter` picks the first row with the requested id or
  raises ValueError. `get_encounter_related_data` cuts every table with an
  `ENCOUNTER` column down to the encounter's rows, in order, and keeps the
  tables that still have rows.
- **Narratives.** `generate_narrative_for_table` skips an absent category.
  Otherwise it gives the narrator one profile per row, in row order. The
  head physician's context list is the encounter and patient narratives,
  followed by the truthy category narratives in a fixed order.
- **Storage.** `save_document` probes for the first free variant directory
  and the first free file in it. It never overwrites anything. Successive
  saves of a run for a new encounter land in variants 0, 1, 2, …, each as
  `0.txt`.
- **Pipeline.** The main routine runs from the chosen encounter to the saved
  files. A run that fails in encounter selection, row conversion or
  reading the documents list writes nothing. A successful one writes, refines and
  saves each listed document exactly once, in order. No category narrator
  ever receives a profile of another encounter.

Every language-model call is a field of `Pipeline.Engine`, an
uninterpreted function of what the code passes it. Cells are
`Missing | Str | Num`, and a row is a map from column names to cells. The
file system is a `Storage.FileSystem` object whose directories and files
are fields, updated by `mkdir` and `write`.

`utils.py`'s `parse_date`, `parse_datetime`, `PatientProfile.from_row` and
`EncounterProfile.from_row` are the same code as the main script's; only
comments differ. They are modelled once and cited twice below.

`save_document` is called once per document, and each call takes a new
variant directory. A run with k documents therefore fills variants
v … v+k-1, each with a single `0.txt`.

## Model

| member | source | states |
|---|---|---|
| Timestamps.ParseDate | generate_encounter_narrative.py:1010-1016 | absent exactly for NaN or ""; a numeric cell raises AttributeError (no `.split`); a string that does not split on "-" into exactly three parts raises ValueError; with three parts it succeeds exactly when each is a digit string (`int()`), else ValueError, and the date is `Date(int(y), int(m), int(d))` of the three parts; utils.py carries an identical copy at utils.py:190-196 |
| Timestamps.ParseDateRoundTrip | generate_encounter_narrative.py:1010-1016 | a date printed zero-padded as YYYY-MM-DD parses back to itself |
| Timestamps.ParseDateDigits | generate_encounter_narrative.py:1015-1016 | any three non-empty digit strings joined by "-", padded or not, parse to the date of their decimal values |
| Timestamps.ParseDateTime | generate_encounter_narrative.py:1019-1034 | absent exactly for NaN or ""; a numeric cell raises AttributeError; after stripping trailing "Z"s the text must split on "T" into exactly two halves, the date half on "-" and the time half on ":" into exactly three parts each, else ValueError; then it succeeds exactly when all six parts are digit strings, else ValueError, and the six fields are their `int()` values in order; utils.py carries an identical copy at utils.py:199-214 |
| Timestamps.ParseDateTimeRoundTrip | generate_encounter_narrative.py:1019-1034 | a date-time printed as YYYY-MM-DDTHH:MM:SSZ parses back to itself |
| Text.SplitJoin | generate_encounter_narrative.py:1015-1016 | `str.split` on one character undoes `join` of separator-free pieces |
| Text.RStrip | generate_encounter_narrative.py:1024 | `rstrip("Z")` removes exactly the trailing run of "Z"s, and the result no longer ends in "Z" |
| Text.ParseNat | generate_encounter_narrative.py:1016 | `int()` of a cell's text succeeds exactly on a non-empty string of decimal digits |
| Text.NatToDecimalRoundTrip | generate_encounter_narrative.py:224 | the decimal spelling of a number reads back as that number |
| Text.IntToDecimalRoundTrip | generate_encounter_narrative.py:300 | `str()` of any integer, negative ones included, reads back as that integer |
| Cells.Get | generate_encounter_narrative.py:204 | `row[column]` succeeds exactly when the column exists, and otherwise raises KeyError naming it |
| Cells.ToInt | generate_encounter_narrative.py:391 | `int()` of NaN raises ValueError, `int()` of text succeeds exactly on digit strings (giving their value), `int()` of an integer is that integer, and `int()` of a float is its truncation toward zero |
| Cells.ToStr | generate_encounter_narrative.py:352-354 | `str()` of NaN is "nan", of text the text itself, of an integer its decimal spelling (which reads back as the integer), and of a float the representation the cell carries |
| Records.ZipText | generate_encounter_narrative.py:224 | `None` exactly for a NaN cell; otherwise `str(int(ZIP))`, failing exactly when `int()` does, and that text reads back as `int()` of the cell |
| Records.ZipOfWholeFloat | generate_encounter_narrative.py:224 | a whole number in a float64 ZIP column is rendered as the decimal spelling of its integer, without the ".0" |
| Records.ZipOfFloatExample | generate_encounter_narrative.py:224 | the ZIP cell 2134.0 becomes "2134" |
| Records.DateAt | generate_encounter_narrative.py:205 | `parse_date(row[column])`: KeyError for a missing column, absent exactly for a blank cell |
| Records.DateTimeAt | generate_encounter_narrative.py:293 | `parse_datetime(row[column])`: KeyError for a missing column, absent exactly for a blank cell |
| Records.PatientFromRow | generate_encounter_narrative.py:201-229 | when it converts: id is the Id cell; birthdate is the parsed BIRTHDATE, and a blank one fails; deathdate is the parsed DEATHDATE (absent when blank); marital, drivers, passport, prefix, suffix and maiden mirror their cells; zip is None exactly for NaN and otherwise `str(int(ZIP))`; utils.py carries an identical copy at utils.py:81-109 |
| Records.PatientRowConversion | generate_encounter_narrative.py:201-229 | a patients row converts exactly when Id and the eleven other required text columns hold text, BIRTHDATE holds a date, DEATHDATE is blank or a date, the optional text columns hold text or NaN, ZIP is NaN or accepted by `int()`, and the four float columns exist |
| Records.PatientRowRoundTrip | generate_encounter_narrative.py:201-229 | a row whose cells spell a profile converts back to exactly that profile, for every profile whose zip is None or an integer's decimal spelling |
| Records.EncounterFromRow | generate_encounter_narrative.py:289-309 | when it converts: id and patient are their cells; START and STOP are parsed, and a blank one fails; code is `str(CODE)`; reasoncode is None exactly for NaN; reasondescription mirrors its cell; utils.py carries an identical copy at utils.py:167-187 |
| Records.EncounterRowConversion | generate_encounter_narrative.py:289-309 | an encounters row converts exactly when START and STOP hold date-times, Id, PATIENT, ORGANIZATION, PROVIDER, PAYER, ENCOUNTERCLASS and DESCRIPTION hold text, REASONDESCRIPTION holds text or NaN, and CODE, the three cost columns and REASONCODE exist |
| Records.EncounterRowRoundTrip | generate_encounter_narrative.py:289-309 | a row whose cells spell a profile converts back to exactly that profile, for every profile whose reasoncode is not NaN |
| Records.EncounterCodeReadsBack | generate_encounter_narrative.py:300 | an integer CODE is stored as text that reads back as that integer |
| Records.ObservationFromRow | generate_encounter_narrative.py:346-357 | converts exactly when DATE holds a date-time, PATIENT, DESCRIPTION and TYPE hold text, ENCOUNTER and UNITS hold text or NaN, and CODE and VALUE exist; then DATE is its parsed value, encounter and units mirror their cells, and code and value are `str()` of their cells |
| Records.ObservationRowRoundTrip | generate_encounter_narrative.py:346-357 | a row whose cells spell a profile converts back to exactly that profile, for every profile |
| Records.ImmunizationFromRow | generate_encounter_narrative.py:385-394 | converts exactly when DATE holds a date-time, PATIENT and DESCRIPTION hold text, ENCOUNTER holds text or NaN, `int()` accepts CODE, and BASE_COST exists; then DATE is its parsed value, encounter mirrors its cell, and code is `int(CODE)`; a NaN code fails |
| Records.ImmunizationRowRoundTrip | generate_encounter_narrative.py:385-394 | a row whose cells spell a profile converts back to exactly that profile, for every profile |
| Records.MedicationFromRow | generate_encounter_narrative.py:448-466 | converts exactly when START holds a date-time, STOP is blank or a date-time, PATIENT, PAYER and DESCRIPTION hold text, ENCOUNTER and REASONDESCRIPTION hold text or NaN, `int()` accepts CODE and DISPENSES, and the cost and reason-code columns exist; then START and STOP are their parsed values, encounter and reasondescription mirror their cells, code and dispenses are `int()` of their cells, and reasoncode is None exactly for NaN |
| Records.MedicationRowRoundTrip | generate_encounter_narrative.py:448-466 | a row whose cells spell a profile converts back to exactly that profile, for every profile whose reasoncode is not NaN |
| Records.ProcedureFromRow | generate_encounter_narrative.py:504-517 | converts exactly when DATE holds a date-time, PATIENT and DESCRIPTION hold text, ENCOUNTER and REASONDESCRIPTION hold text or NaN, `int()` accepts CODE, and BASE_COST and REASONCODE exist; then DATE is its parsed value, encounter and reasondescription mirror their cells, code is `int(CODE)`, and reasoncode is None exactly for NaN |
| Records.ProcedureRowRoundTrip | generate_encounter_narrative.py:504-517 | a row whose cells spell a profile converts back to exactly that profile, for every profile whose reasoncode is not NaN |
| Records.CarePlanFromRow | generate_encounter_narrative.py:555-569 | converts exactly when Id, PATIENT and DESCRIPTION hold text, START holds a date, STOP is blank or a date, ENCOUNTER and REASONDESCRIPTION hold text or NaN, `int()` accepts CODE, and REASONCODE exists; then START and STOP are their parsed dates, encounter and reasondescription mirror their cells, code is `int(CODE)`, and reasoncode is None exactly for NaN |
| Records.CarePlanRowRoundTrip | generate_encounter_narrative.py:555-569 | a row whose cells spell a profile converts back to exactly that profile, for every profile whose reasoncode is not NaN |
| Records.ConditionFromRow | generate_encounter_narrative.py:598-607 | converts exactly when START holds a date, STOP is blank or a date, PATIENT and DESCRIPTION hold text, ENCOUNTER holds text or NaN, and `int()` accepts CODE; then START and STOP are their parsed dates, encounter mirrors its cell, and code is `int(CODE)` |
| Records.ConditionRowRoundTrip | generate_encounter_narrative.py:598-607 | a row whose cells spell a profile converts back to exactly that profile, for every profile |
| Records.DeviceFromRow | generate_encounter_narrative.py:639-649 | converts exactly when START holds a date-time, STOP is blank or a date-time, PATIENT, DESCRIPTION and UDI hold text, ENCOUNTER holds text or NaN, and `int()` accepts CODE; then START and STOP are their parsed values, encounter mirrors its cell, code is `int(CODE)`, and udi is its cell |
| Records.DeviceRowRoundTrip | generate_encounter_narrative.py:639-649 | a row whose cells spell a profile converts back to exactly that profile, for every profile |
| Records.ImagingStudyFromRow | generate_encounter_narrative.py:689-702 | converts exactly when DATE holds a date-time, Id, PATIENT and the description and code columns hold text, ENCOUNTER holds text or NaN, and `int()` accepts BODYSITE_CODE; then DATE is its parsed value, encounter mirrors its cell, bodysite_code is `int()` of its cell, and the modality and SOP codes are their cells |
| Records.ImagingStudyRowRoundTrip | generate_encounter_narrative.py:689-702 | a row whose cells spell a profile converts back to exactly that profile, for every profile |
| RecordWitnesses.SomePatientRowConverts | generate_encounter_narrative.py:201-229 | some row converts, so the constructor's success case is not empty |
| RecordWitnesses.SomeEncounterRowConverts | generate_encounter_narrative.py:289-309 | some row converts, so the constructor's success case is not empty |
| RecordWitnesses.SomeObservationRowConverts | generate_encounter_narrative.py:346-357 | some row converts, so the constructor's success case is not empty |
| RecordWitnesses.SomeImmunizationRowConverts | generate_encounter_narrative.py:385-394 | some row converts, so the constructor's success case is not empty |
| RecordWitnesses.SomeMedicationRowConverts | generate_encounter_narrative.py:448-466 | some row converts, so the constructor's success case is not empty |
| RecordWitnesses.SomeProcedureRowConverts | generate_encounter_narrative.py:504-517 | some row converts, so the constructor's success case is not empty |
| RecordWitnesses.SomeCarePlanRowConverts | generate_encounter_narrative.py:555-569 | some row converts, so the constructor's success case is not empty |
| RecordWitnesses.SomeConditionRowConverts | generate_encounter_narrative.py:598-607 | some row converts, so the constructor's success case is not empty |
| RecordWitnesses.SomeDeviceRowConverts | generate_encounter_narrative.py:639-649 | some row converts, so the constructor's success case is not empty |
| RecordWitnesses.SomeImagingStudyRowConverts | generate_encounter_narrative.py:689-702 | some row converts, so the constructor's success case is not empty |
| Tables.Select | generate_encounter_narrative.py:1082 | a boolean-mask selection keeps only rows whose cell equals the value |
| Tables.SelectCounts | generate_encounter_narrative.py:1082 | the selection keeps every matching row as often as it occurs and drops every other row |
| Tables.SelectAppend | generate_encounter_narrative.py:1082 | the selection distributes over concatenation, so the rows keep their order |
| Tables.SelectEmpty | generate_encounter_narrative.py:1083 | the selection is empty exactly when no row matches |
| Tables.SelectHead | generate_encounter_narrative.py:1056 | `.iloc[0]` of a selection is the first matching row |
| Tables.FirstMatch | generate_encounter_narrative.py:1053-1056 | KeyError for a missing column; otherwise success exactly when some row matches, and then the first matching row |
| Tables.GetEncounter | generate_encounter_narrative.py:1045-1061 | KeyError without an encounters table; with a non-empty id, the first row with that Id, or ValueError when none has it; without one, some row of the table, or ValueError when it is empty |
| Tables.FindPatient | generate_encounter_narrative.py:1308-1311 | KeyError without a patients table or Id column; otherwise Ok exactly when some row has the encounter's patient as Id, then the first such row, and IndexError when none has |
| Tables.GetEncounterRelatedData | generate_encounter_narrative.py:1064-1086 | the keys are exactly the tables with an ENCOUNTER column and at least one row of the encounter; each value is that table cut down to exactly those rows, in order |
| Tables.RelatedDataWellFormed | generate_encounter_narrative.py:1080-1084 | filtering keeps every row carrying exactly its frame's columns, as pandas guarantees for the loaded tables |
| Narratives.ProfilesOfAllRows | generate_encounter_narrative.py:1217-1219 | when every row converts, there is one profile per row, in row order |
| Narratives.ProfilesOfOk | generate_encounter_narrative.py:1217-1219 | a successful conversion has one profile per row, each converted from its own row |
| Narratives.ProfilesOfFirstError | generate_encounter_narrative.py:1217-1219 | the first row that fails to convert decides the error |
| Narratives.TableProfilesRows | generate_encounter_narrative.py:1214-1219 | a category is skipped exactly when its table is absent; otherwise it converts exactly when every row does, with one profile per row in order |
| Narratives.GenerateNarrativeForTable | generate_encounter_narrative.py:1197-1223 | None when the table is absent; otherwise the narrator applied once to the table's profiles, or the conversion error |
| Narratives.ProfilesOfEncounter | generate_encounter_narrative.py:1080-1084 | when a constructor copies the ENCOUNTER cell, every profile built from an encounter's filtered table carries that encounter's id |
| Narratives.PresentMembers | generate_encounter_narrative.py:1413-1428 | a narrative is in the appended list exactly when it is non-empty and is one of the slots |
| Narratives.PresentCount | generate_encounter_narrative.py:1413-1428 | the appended list has one entry per truthy slot |
| Narratives.PresentInOrder | generate_encounter_narrative.py:1413-1428 | the entries come in the fixed category order |
| Narratives.OracleContext | generate_encounter_narrative.py:1408-1430 | the context is the encounter and patient narratives followed by the truthy category narratives in the fixed order; its length is 2 plus their number |
| Narratives.OnlyObservationsAndMedications | generate_encounter_narrative.py:1411-1430 | with only observations and medications present, the context is exactly those four narratives |
| Storage.AncestryMember | generate_encounter_narrative.py:1254 | `mkdir(parents=True)` creates exactly the path's prefixes |
| Storage.LeastFree | generate_encounter_narrative.py:1249-1253 | the probe stops at the least free index, and every index below it is taken |
| Storage.SaveNeverOverwrites | generate_encounter_narrative.py:1249-1262 | the file written did not exist before; every other file is unchanged, and directories are only added |
| Storage.SaveIndexZero | generate_encounter_narrative.py:1254-1260 | in a well-formed file system the chosen variant is new, so the document is its `0.txt` |
| Storage.SaveKeepsValid | generate_encounter_narrative.py:1254-1262 | a save keeps the file system well formed (parents are directories; nothing is both) |
| Storage.SaveStep | generate_encounter_narrative.py:1249-1262 | after n saves of a run the next one creates variant n and writes only its `0.txt` |
| Storage.SaveAllLayout | generate_encounter_narrative.py:1447-1458 | the saves of a run for a new encounter put document i into variant i as `0.txt`, keep every earlier file, and write nothing else |
| Storage.FileSystem.MakeDirs | generate_encounter_narrative.py:1254 | adds the path and all its parents as directories |
| Storage.FileSystem.WriteFile | generate_encounter_narrative.py:1261-1262 | replaces exactly one file's contents |
| Storage.SaveDocument | generate_encounter_narrative.py:1247-1263 | the two probing loops and the write leave exactly the state the save specification describes |
| Pipeline.RequestOf | generate_encounter_narrative.py:1406 | reads "type" then "description"; a missing one raises KeyError naming it |
| Pipeline.Requests | generate_encounter_narrative.py:1405-1406 | succeeds exactly when every listed entry has both keys, then one request per entry in order; otherwise the KeyError of the first incomplete entry |
| Pipeline.NarrateCategories | generate_encounter_narrative.py:1324-1372 | the eight category narratives, in the routine's order, each from its own table and constructor; the first failing category stops the rest |
| Pipeline.WriteDocuments | generate_encounter_narrative.py:1433-1444 | one document per request, in order, with the requested type and the writer's text for that type and description |
| Pipeline.RefineAndSave | generate_encounter_narrative.py:1447-1458 | each document, in order, is refined once and saved once |
| Pipeline.RunForSubject | generate_encounter_narrative.py:1319-1458 | from the selected encounter on: the computed run; nothing is written when row conversion or the documents list fails, and the refined documents are saved in order on success |
| Pipeline.RunEncounter | generate_encounter_narrative.py:1301-1458 | the whole run: nothing written when selection, row conversion or the documents list fails, and otherwise the refined documents saved one after another in list order |
| Pipeline.SubjectOfSuppliedId | generate_encounter_narrative.py:1051-1056 | with a supplied id, the run is about the first encounter row with that id; the patient is always the encounter's own patient |
| Pipeline.UnknownEncounterFails | generate_encounter_narrative.py:1051-1055 | an id no encounter row carries stops the run with ValueError, before any file is written |
| Pipeline.SkippedCategories | generate_encounter_narrative.py:1324-1372 | a category's narrative is absent exactly when the encounter has no rows of that category |
| Pipeline.NoCrossEncounterLeakage | generate_encounter_narrative.py:1319-1372 | every profile handed to any category narrator carries the selected encounter's id |
| Pipeline.RunSavesEachDocumentOnce | generate_encounter_narrative.py:1433-1458 | in a run for a new encounter, the i-th listed document is written, refined and saved as variant i's `0.txt`; no other file changes or appears |
| Utils.HelloWorld | utils.py:6-7 | returns exactly "Hello, world!" |

## Left out

- Language models: the DSPy signatures, `ChainOfThought` and `ReAct` are uninterpreted functions in `Engine`. How often the writer consults its tool, and what any model says, is not modelled.
- Failing language-model calls: every `Engine` field is a total function, so the model has no failure after the documents list is read. In the program, a refiner call or a save that raises on document k+1 leaves documents 0..k already on disk; the model does not capture that partial output.
- `ask_head_physician` rebuilds its context list on every tool call. The model builds it once per run. The list is the same on every call, because its inputs never change.
- `load_synthea_data`, `parse_args`, `load_dotenv`, `setup_dspy`, `setup_mlflow`, the data-directory existence check and every `print` are I/O or configuration. The model starts from the loaded tables and takes the output directory as a path.
- `random.seed` and `encounters_df.sample()`: the sampler's choice is the parameter `draw`. The seed is not what governs that sampler, so no reproducibility is claimed.
- Cells.ToFloat: `float()` results are opaque values, and `float()` failing on non-numeric text is not modelled.
- Cells.ToStr: `str()` of a float is the representation text the cell carries; Python's float formatting is not modelled.
- Text.ParseNat: `int()` is restricted to plain ASCII digit strings. Signs, surrounding whitespace and underscores, which Python also accepts, are read as ValueError.
- Tables.Table: the operations do not require `WellFormed` (every row carrying exactly its frame's columns). On a table that breaks it, a row lacking the ENCOUNTER column simply does not match. The loaded tables always have this shape, and filtering keeps it (`RelatedDataWellFormed`).
- Tables.GetEncounterRelatedData: dictionary order is not modelled (the result is a map). It only affects printing.
- Storage.FileSystem: `mkdir` failures, permissions, races with other processes, and encounter ids that contain a path separator are not modelled.
- Storage.SaveAllLayout: the closed-form layout is stated for an encounter with no earlier output only. After earlier runs, each save still follows `SaveSpec` (first free variant, never overwriting).
- The `start <= stop` ordering of encounter times is not checked by the code, and is not claimed.
