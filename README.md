# Staged employee-record pipeline: a verified model

This project models the core of a small ETL pipeline for employee records, and proves properties of that model.
The pipeline does the following:

1. It extracts one batch from each of three sources: `faker`, `api` and `csv`, asking each for 50 records.
2. It stores every batch untouched in the raw area of an object store.
3. It reads each raw file back and validates it against the `EmployeeModel` record schema.
4. It masks the sensitive columns of every batch that passes: tokens for `ssn`, `salary` and `street_address`, a tokenized local part for `email`, and a redacted `phone`. It then stores the masked batch in the processed area.
5. It loads each processed file into the warehouse table.
6. Throughout, it keeps run statistics: sources, raw and valid record counts, error count, uploaded file names, start, end, duration and error.

The model has three parts.

**Batch validator** (`DataValidator`)
- `validate_dataframe` returns whether a batch is valid and an ordered list of issues:
  - an empty batch gives one issue;
  - missing required columns give one issue, and no record is checked;
  - otherwise there is one issue per failing record, tagged `Linha n`, with every error of that record;
  - then one aggregate issue when `employee_id` values repeat.
- The validator also summarises its error log: the total, the counts per source, and the ten most common messages.

**Masker** (`DataMasker`)
- The tokenizer is salted and deterministic. SHA-256 is a parameter: any function that returns 64 lower-case hex digits.
- The e-mail, phone and whole-batch masking sit on top of it.

**Runner** (`PipelineRunner`)
- It is a class whose `stats` field is `pipeline_stats`.
- There is one method per stage. Each method is proved against a function that specifies the stage.
- The run as a whole is specified by `Pipeline.Run`.

**How the model is organised**
- Values are `Null | Str | Num | Bool | Time`. A record is a map from column to value, and a batch is a column list plus a sequence of records.
- Clock readings (`datetime.now()`, `pd.Timestamp.now()`) are integer parameters.
- The extractors, the object store and the warehouse are the functions of a `Services` value. Each call either returns a value or raises, and a raise is an `Err` with the text of the exception.
- The outcome of `settings.validate_settings()` is also a parameter of the run. `Settings` models that check itself.

Files:
- `wrappers.dfy`: `Option` and `Result`.
- `frames.dfy`: values, records, batches and decimal rendering.
- `email_pattern.dfy`: the e-mail regular expression as character-class predicates.
- `schema.dfy`: `EmployeeModel` fields and the errors pydantic reports for one record.
- `validation_log.dfy`: the error log and its summary.
- `validator.dfy`: `DataValidator`.
- `validator_cases.dfy`: the unit-test scenarios.
- `masking.dfy`: `DataMasker`.
- `settings.dfy`: `Settings.validate_settings`.
- `pipeline.dfy`: `PipelineRunner`.

## Model

| member | source | states |
|---|---|---|
| EmailPattern.IsValidEmail | src/data_processing/data_validator.py:36 | true exactly when the text matches `^[a-zA-Z0-9._%+-]+@[a-zA-Z0-9.-]+\.[a-zA-Z]{2,}$`, where `$` also accepts one final newline as in Python |
| EmailPattern.MatchesWhole | src/data_processing/data_validator.py:36 | the decision procedure agrees with the existential statement of the pattern (some `@` and some later `.` split the text into the three classes) |
| EmailPattern.SplitIsCanonical | src/data_processing/data_validator.py:36 | in a match, the `@` is the first `@` of the text and the dot is its last `.`, so a match has one split only |
| EmailPattern.MatchUsesCanonicalSplit | src/data_processing/data_validator.py:36 | a matching text splits at its first `@` and last `.` |
| EmailPattern.MatchHasNonEmptyLocalPart | src/data_processing/data_validator.py:36 | a matching text has an `@`, and it is not the first character |
| EmailPattern.FirstIndex | src/data_processing/data_validator.py:36 | the index found holds the character and no earlier position does; none is found only when the character is absent |
| EmailPattern.LastIndex | src/data_processing/data_validator.py:36 | the index found holds the character and no later position does; none is found only when the character is absent |
| Frames.Column | src/data_processing/data_validator.py:83 | the column of a batch has one value per record, each that record's cell (None when the key is absent) |
| Frames.NatToString | src/data_processing/data_validator.py:78 | the decimal text of a number is non-empty digits without a leading zero |
| Frames.NatToStringRoundTrip | src/data_processing/data_validator.py:78 | reading back the decimal text gives the number |
| Schema.RequiredFieldNamesAre | src/data_processing/data_validator.py:14-21 | `required_fields`, the declared fields without a default, is exactly `employee_id, first_name, last_name, email, department, position, hire_date, data_source`, in declaration order |
| Schema.AllRequired | src/data_processing/data_validator.py:50-53 | when every field is required, the comprehension keeps every name in order |
| Schema.NoneRequired | src/data_processing/data_validator.py:50-53 | when no field is required, the comprehension keeps nothing |
| Schema.RequiredNamesAppend | src/data_processing/data_validator.py:50-53 | the comprehension over two concatenated field lists is the concatenation of the two results |
| Schema.RowErrorsEmptyIff | src/data_processing/data_validator.py:12-46 | `model_validate` reports no error for a record exactly when it meets the field-by-field reference statement `RowOk`: required fields present, not None and typed, lengths 6–10, 2–50 and 1–50, e-mail matches, hire date not after now, salary absent, None or at least 0, optional texts absent, None or strings, and no key outside the model |
| Schema.SpecErrorsEmpty | src/data_processing/data_validator.py:14-30 | the declared fields give no error exactly when each one gives none |
| Schema.ExtraErrorsEmpty | src/data_processing/data_validator.py:12 | `extra='forbid'` reports nothing exactly when every key is a declared field |
| Schema.DeclaredFieldsOkIff | src/data_processing/data_validator.py:14-46 | all seventeen declared fields pass exactly when the length fields with the e-mail and the other fields pass their reference statements |
| Schema.ForallEmployeeFields | src/data_processing/data_validator.py:14-30 | a property holds of every declared field exactly when it holds of each of the seventeen |
| Schema.NamesOkIff | src/data_processing/data_validator.py:14-17 | the id, first name, last name and e-mail fields pass exactly when the three names are strings of their allowed lengths and the e-mail is a string that matches the pattern |
| Schema.OthersOkIff | src/data_processing/data_validator.py:18-30 | the remaining fields pass exactly when department, position and data source are strings, the hire date is a date not after now, the salary is absent, None or non-negative, and each optional text is absent, None or a string |
| Schema.LengthFieldOk | src/data_processing/data_validator.py:14-16 | a required text field with `min_length`/`max_length` passes exactly when it is present, a string, and of a length within the bounds |
| Schema.RequiredTextOk | src/data_processing/data_validator.py:17-21 | an unconstrained required text field passes exactly when it is present and a string (None fails) |
| Schema.OptionalTextOk | src/data_processing/data_validator.py:22-30 | an optional text field passes exactly when it is absent, None or a string |
| Schema.SpecErrorsContains | src/data_processing/data_validator.py:14-30 | every error of one declared field is among the record's errors: no field's check is skipped |
| Schema.NullRequiredFieldReported | src/data_processing/data_validator.py:14-21 | a None in a required field present as a column is reported as a type error for that field |
| ValidationLog.SourceCountsCorrect | src/data_processing/data_validator.py:104-110 | `errors_by_source` has a key exactly for each source occurring in the log, mapped to that source's number of entries |
| ValidationLog.SourceCountsTotal | src/data_processing/data_validator.py:104-110 | the per-source counts add up to the number of logged entries |
| ValidationLog.MapTotalIncrement | src/data_processing/data_validator.py:109 | `d[k] = d.get(k, 0) + 1` adds exactly one to the sum of the counts |
| ValidationLog.MapTotalRemove | src/data_processing/data_validator.py:109 | the sum of the counts may be taken starting from any key |
| ValidationLog.TallyCounts | src/data_processing/data_validator.py:114-118 | the tally has one pair per distinct message, each counting that message's occurrences (`Unknown error` for a detail without `msg`) |
| ValidationLog.BumpCounts | src/data_processing/data_validator.py:118 | one `get(msg, 0) + 1` turns the tally of a message list into the tally of the list with one more message |
| ValidationLog.BumpValues | src/data_processing/data_validator.py:118 | after one update every pair carries its message's count in the extended list |
| ValidationLog.BumpCovers | src/data_processing/data_validator.py:118 | after one update every message of the extended list has a pair |
| ValidationLog.BumpShape | src/data_processing/data_validator.py:118 | the update keeps the keys distinct, raises a present message's count where it stands, and appends a new message with count 1 |
| ValidationLog.BumpPresent | src/data_processing/data_validator.py:118 | a message already counted is bumped in place and nothing else changes |
| ValidationLog.BumpAbsent | src/data_processing/data_validator.py:118 | a new message is appended with the count one, preserving insertion order |
| ValidationLog.InsertByCountPerm | src/data_processing/data_validator.py:121 | inserting one pair into a sorted list adds exactly that pair |
| ValidationLog.InsertByCountSorted | src/data_processing/data_validator.py:121 | inserting into a non-increasing list keeps it non-increasing |
| ValidationLog.SortByCountCorrect | src/data_processing/data_validator.py:121 | `sorted(..., key=count, reverse=True)` yields a non-increasing permutation of the pairs |
| ValidationLog.SortedTallyReports | src/data_processing/data_validator.py:114-121 | the sorted tally is non-increasing and still reports every message with its true count |
| ValidationLog.TopTenOfSorted | src/data_processing/data_validator.py:122 | the first ten pairs of a sorted report are at most ten, non-increasing, true counts, and a message is left out only when ten others occur at least as often |
| ValidationLog.CommonErrorsTopTen | src/data_processing/data_validator.py:112-122 | `common_errors` holds at most ten entries in non-increasing count order, each a logged message with its true count, and omits a message only when ten reported ones occur at least as often |
| ValidationLog.EmptyLogSummary | src/data_processing/data_validator.py:54 | the summary of the empty log (the initial `validation_errors`) reports 0 errors, no source and no message |
| Validator.MissingFrom | src/data_processing/data_validator.py:66 | a name is reported missing exactly when it is required and not a column, and the missing names keep the order of `required_fields` |
| Validator.RowErrorListsAt | src/data_processing/data_validator.py:74-76 | each record is validated alone: the errors at position p are those of record p |
| Validator.RenderAll | src/data_processing/data_validator.py:56-94 | the returned texts are one rendering per issue, in order |
| Validator.RowIssuesSound | src/data_processing/data_validator.py:74-80 | every record issue is `Linha p+1` for a record p that failed, carrying exactly that record's errors |
| Validator.RowIssuesComplete | src/data_processing/data_validator.py:74-80 | every failing record gets its issue: the loop does not stop at the first failure |
| Validator.RowIssuesOrdered | src/data_processing/data_validator.py:74-80 | record issues appear in strictly increasing line order |
| Validator.RowIssuesEmpty | src/data_processing/data_validator.py:74-80 | the loop adds no issue exactly when no record fails |
| Validator.DuplicateCountZero | src/data_processing/data_validator.py:83 | `duplicated().sum()` is zero exactly when no id repeats |
| Validator.DuplicateCountDistinct | src/data_processing/data_validator.py:84 | the duplicate count plus the number of distinct ids is the number of records |
| Validator.DuplicateIssueIff | src/data_processing/data_validator.py:83-87 | once the columns are present, a duplicate issue is reported exactly when some `employee_id` repeats, and it is the last issue and carries rows minus distinct ids |
| Validator.AppendDuplicateIssue | src/data_processing/data_validator.py:83-87 | appending the optional duplicate issue after the record issues yields a duplicate issue exactly when one was appended, and it comes last |
| Validator.NoDuplicateIssueIff | src/data_processing/data_validator.py:83 | no duplicate issue exactly when the id column has no repeat |
| Validator.RowsPassIff | src/data_processing/data_validator.py:74-80 | the loop reports nothing exactly when every record meets `RowOk` |
| Validator.RecordIssuesIff | src/data_processing/data_validator.py:74-94 | past the first two checks, the issue list is empty exactly when every record meets `RowOk` and no id repeats |
| Validator.ValidIffSchemaValid | src/data_processing/data_validator.py:56-94 | the validator raises no issue exactly when the batch is schema-valid: non-empty, with every required column, every record accepted and no repeated id |
| Validator.MissingColumnsShortCircuit | src/data_processing/data_validator.py:66-71 | with a required column missing, the result is the one missing-columns issue, whatever the records hold, and its text starts `Missing required columns: ` |
| Validator.ContainsInRight | src/data_processing/data_validator.py:78 | a text occurring in a suffix occurs in the whole |
| Validator.ContainsInLeft | src/data_processing/data_validator.py:78 | a text occurring in a prefix occurs in the whole |
| Validator.BadEmailLine | src/data_processing/data_validator.py:37 | the rendered e-mail error carries `Formato de e-mail inválido` |
| Validator.ErrorLinesContain | src/data_processing/data_validator.py:78 | the rendering of an error list containing the e-mail error carries its message |
| Validator.BadEmailIsRendered | src/data_processing/data_validator.py:78 | a record issue with the e-mail error renders to a text containing `Formato de e-mail inválido` |
| Validator.DataValidator.constructor | src/data_processing/data_validator.py:49-54 | `required_fields` are the model's required names and the error log starts empty |
| Validator.DataValidator.ValidateFrame | src/data_processing/data_validator.py:56-94 | the loop returns the issue list `Issues`, `isValid` holds exactly when that list is empty, and an empty batch gives `(False, ["Empty DataFrame"])` |
| Validator.DataValidator.GroupErrorsBySource | src/data_processing/data_validator.py:104-110 | the dictionary has a key exactly for each logged source, holding that source's entry count |
| Validator.DataValidator.GetCommonErrors | src/data_processing/data_validator.py:112-122 | the nested loops and the sort give `CommonErrors` of the log: at most ten pairs in non-increasing count order |
| Validator.DataValidator.GetValidationSummary | src/data_processing/data_validator.py:96-102 | `total_errors` is the log's length and the per-source counts add up to it |
| ValidatorCases.FixtureEmailValid | tests/test_data_validator.py:18 | `john.doe@example.com` matches the pattern |
| ValidatorCases.NoAtIsInvalid | src/data_processing/data_validator.py:36 | a text without `@` never matches the pattern |
| ValidatorCases.FixtureRowOk | tests/test_data_validator.py:13-23 | the fixture record, hired no later than now, is one `EmployeeModel` accepts |
| ValidatorCases.FixtureColumnsAreRequired | tests/test_data_validator.py:13-23 | the fixture's columns are exactly the required fields, in order |
| ValidatorCases.OneRecordSchemaValid | tests/test_data_validator.py:26-27 | a one-record batch with exactly the required columns and an accepted record is schema-valid |
| ValidatorCases.FixtureFrameValid | tests/test_data_validator.py:34-39 | the fixture batch raises no issue, so it is valid with an empty issue list |
| ValidatorCases.MissingRequiredColumnReported | src/data_processing/data_validator.py:66-71 | a non-empty batch lacking a required column gets exactly one issue, which names the column and starts with the missing-columns header |
| ValidatorCases.FixtureWithoutEmailRejected | tests/test_data_validator.py:41-47 | the fixture without its `email` column gets one missing-columns issue naming `email` |
| ValidatorCases.BadEmailInRowErrors | src/data_processing/data_validator.py:32-37 | a present e-mail string that fails the pattern puts the e-mail error among the record's errors |
| ValidatorCases.FirstRowIssue | src/data_processing/data_validator.py:74-80 | when the first record fails, the first issue is its `Linha 1` issue |
| ValidatorCases.BadEmailReportedFirst | src/data_processing/data_validator.py:74-80 | with the columns complete and the first record's e-mail malformed, the first issue is that record's, and its text contains `Formato de e-mail inválido` |
| ValidatorCases.FixtureInvalidEmailRejected | tests/test_data_validator.py:49-56 | the fixture with e-mail `invalid-email` is rejected, and its first issue carries the e-mail message |
| ValidatorCases.FixtureNullFirstNameRejected | tests/test_data_validator.py:58-64 | the fixture with `first_name` None is rejected; its first issue is `Linha 1`, and it carries a string-type error for `first_name` |
| ValidatorCases.MissingFromCovered | src/data_processing/data_validator.py:66 | no name is missing when every required name is a column |
| Masking.Upper | src/data_processing/data_masking.py:22 | `upper()` keeps the length and turns lower-case hex digits into upper-case hex digits, the shape a token's eight digits need |
| Masking.DataMasker.Token | src/data_processing/data_masking.py:18-22 | every token is `TOKEN_` followed by eight upper-case hex digits, 14 characters in all |
| Masking.DataMasker.TokenizeField | src/data_processing/data_masking.py:12-22 | None and `''` are returned unchanged, and every other value becomes a token |
| Masking.TokenCollision | src/2-data_processing/data_masking.py:18-22 | two tokens are equal exactly when the first eight digits of their salted hashes are, so equal (salt, field, value) give equal tokens |
| Masking.TokenIsLocalText | src/data_processing/data_masking.py:22 | a token is a non-empty text of local-part characters without `@` |
| Masking.SplitAtFirst | src/data_processing/data_masking.py:29 | `split('@', 1)` gives a local part without `@` and the rest, joined back by `@` |
| Masking.SplitAtFirstUnique | src/data_processing/data_masking.py:29 | any split of the text into an `@`-free part, `@`, and a rest is the one `split('@', 1)` gives |
| Masking.DataMasker.MaskLocal | src/data_processing/data_masking.py:30 | an empty local part stays empty, and any other becomes `Token("email", local)`, a token |
| Masking.DataMasker.MaskEmail | src/data_processing/data_masking.py:24-31 | None and strings without `@` pass unchanged, a string with `@` stays a string with `@`, and exactly the values that are neither None nor strings raise |
| Masking.EmailKeepsDomain | src/2-data_processing/data_masking.py:26-31 | the part after the first `@` is kept verbatim, and a non-empty local part becomes exactly `Token("email", local)` (an empty one stays empty) |
| Masking.MaskedEmailStaysValid | src/data_processing/data_masking.py:29-31 | a well-formed address is still well-formed after masking |
| Masking.MaskedWholeMatch | src/data_processing/data_masking.py:29-31 | replacing the local part by its token keeps a whole match |
| Masking.MaskedNewlineMatch | src/data_processing/data_masking.py:29-31 | an address matching only through a final newline still matches after masking |
| Masking.NewlineSplit | src/data_processing/data_masking.py:29 | a trailing newline stays with the domain part of the split |
| Masking.NewlineExtends | src/data_processing/data_masking.py:29 | a whole match followed by a newline matches the pattern |
| Masking.ReplaceLocalPart | src/data_processing/data_masking.py:31 | any non-empty `@`-free local-part text in front of the kept domain gives a whole match |
| Masking.SplitAtFirstOfMatch | src/data_processing/data_masking.py:29 | the domain kept from a matching address is its domain and its top-level part |
| Masking.Digits | src/data_processing/data_masking.py:39 | `re.sub(r'\D', '', s)` yields only digits and is no longer than its input |
| Masking.DigitsAppend | src/data_processing/data_masking.py:39 | removing non-digits distributes over concatenation |
| Masking.DigitsOfDigits | src/data_processing/data_masking.py:39 | a text of digits is kept whole |
| Masking.NoDigits | src/data_processing/data_masking.py:39 | a text without digits is removed entirely |
| Masking.MaskedDigits | src/data_processing/data_masking.py:43 | the only digits of `***-***-DDDD` are DDDD |
| Masking.DataMasker.MaskPhone | src/data_processing/data_masking.py:35-36 | None and `''` are returned unchanged |
| Masking.PhoneKeepsLastFour | src/data_processing/data_masking.py:39-43 | a phone with at least ten digits becomes the 12-character `***-***-DDDD`, whose digits are exactly the last four of the input |
| Masking.ShortPhoneTokenized | src/2-data_processing/data_masking.py:44-45 | a phone with fewer than ten digits is tokenized whole, unstripped, under field name `phone` |
| Masking.DataMasker.MaskValue | src/data_processing/data_masking.py:58-64 | the `sensitive_fields` dispatch: `ssn` and `salary` are tokenized under their own names, `street_address` under `address`, `email` goes through the e-mail masking and `phone` through the phone masking; only the e-mail one can raise |
| Masking.PlainFieldsTokenized | src/2-data_processing/data_masking.py:58-64 | a non-None, non-empty `ssn`, `salary` or `street_address` value becomes the token of its text under `ssn`, `salary` or `address` |
| Masking.DataMasker.MaskColumn | src/data_processing/data_masking.py:70 | `apply` raises exactly when some value's masking raises, and otherwise replaces the column's value in every record and nothing else |
| Masking.DataMasker.MaskFieldsErrorSticks | src/data_processing/data_masking.py:67-70 | once a field raises, no later field changes the outcome |
| Masking.MaskFieldsFail | src/data_processing/data_masking.py:67-70 | the field loop raises exactly when `email` is among the fields the batch has and some e-mail cannot be masked |
| Masking.MaskFieldsCells | src/data_processing/data_masking.py:67-70 | after the loop, each listed field the batch has holds its masked values, and every other cell is the input's |
| Masking.MaskFrameFails | src/2-data_processing/data_masking.py:51-70 | masking a batch raises exactly when it is non-empty, has an `email` column and some e-mail is neither None nor a string |
| Masking.WithMetadata | src/data_processing/data_masking.py:73-74 | the columns after stamping are the input's plus `masked_at` and `is_masked` |
| Masking.AddColumn | src/data_processing/data_masking.py:73 | adding a column keeps the existing ones in place and adds the label once |
| Masking.Stamp | src/data_processing/data_masking.py:73-74 | stamping keeps the number of records |
| Masking.DataMasker.MaskSensitiveData | src/data_processing/data_masking.py:47-77 | the loop over the sensitive fields computes `MaskFrame`, and an empty batch comes back as it is, without metadata columns |
| Masking.MaskFrameShape | src/2-data_processing/data_masking.py:55-74 | a masked non-empty batch keeps its records and columns, adds the two metadata columns, gives every record the same `masked_at` and `is_masked = True`, masks each sensitive column present, and leaves every other cell as it was |
| Masking.ValidBatchMasks | src/orchestration/pipeline_runner.py:165-168 | a batch the validator accepts always masks, keeping its number of records |
| Settings.Attribute | src/config/settings.py:29 | `getattr` raises exactly for a name the class does not define; an environment attribute gives the variable's value, and None exactly when it is unset; `CHUNK_SIZE` gives 10000, `MAX_RETRIES` 3, and `validate_settings` the method |
| Settings.MissingSettingsFailsSecond | src/config/settings.py:29 | a defined name followed by an undefined one makes the comprehension raise on the second |
| Settings.MissingSettingsErrorSticks | src/config/settings.py:29 | once a lookup raises, the comprehension raises with that error |
| Settings.ClassAttributesNeverMissing | src/config/settings.py:15-19 | the class's constants and its method are truthy, so the comprehension never lists them as missing |
| Settings.AsWrittenAlwaysFails | src/config/settings.py:20-29 | whatever the environment, the check as written raises `AttributeError` on `GCS_BUCKET_RAW` |
| Settings.MissingSettingsCorrect | src/config/settings.py:29 | over the five environment attributes, the comprehension never raises and lists exactly the names whose variable is unset or empty |
| Settings.ValidateSettingsOkIff | src/config/settings.py:29-31 | the corrected check passes exactly when every required variable is set and non-empty, and otherwise raises a `ValueError` listing exactly those that are not |
| Pipeline.ExtractInOrder | src/orchestration/pipeline_runner.py:91-118 | extraction asks faker, api and csv for 50 records each, in that order; it succeeds exactly when all three do, yielding their batches under their names, and otherwise fails with the first error |
| Pipeline.TotalRowsOfThree | src/orchestration/pipeline_runner.py:112 | `total_raw_records` of three batches is the sum of their lengths |
| Pipeline.SourceOutcomes | src/orchestration/pipeline_runner.py:147-179 | there is one processing outcome per raw file |
| Pipeline.SourceOutcomesAt | src/orchestration/pipeline_runner.py:147-179 | the outcome at position k is the processing of the k-th raw file alone |
| Pipeline.CollectStep | src/orchestration/pipeline_runner.py:147 | the loop over the first i+1 sources is one more turn of the loop over the first i |
| Pipeline.UploadRawErrorSticks | src/orchestration/pipeline_runner.py:126-138 | once an upload raises, the raw stage ends with that error |
| Pipeline.CollectErrorSticks | src/orchestration/pipeline_runner.py:146-191 | once a turn raises, the processing stage ends with that error |
| Pipeline.LoadAllErrorSticks | src/orchestration/pipeline_runner.py:197-207 | once a load raises, no later load is attempted |
| Pipeline.UploadRawShape | src/orchestration/pipeline_runner.py:127-138 | the raw upload visits the batches in order, records source to file name for each, appends one `raw/` + file name entry per file, and stops at the first upload that raises, with its error |
| Pipeline.ProcessSourceCases | src/orchestration/pipeline_runner.py:147-179 | a failed download ends the loop; a rejected batch is skipped; an accepted batch always masks and is stored as processed, counting its raw record count, unless the upload raises |
| Pipeline.SkippedIffRejected | src/orchestration/pipeline_runner.py:154-165 | a source is skipped exactly when its raw file reads back and the validator rejects it |
| Pipeline.CollectShape | src/orchestration/pipeline_runner.py:147-179 | one `processed/` entry per stored file; a completed loop met no error, stored one file per accepted batch and counted exactly their records; a failed loop stopped at the first turn that raised |
| Pipeline.CollectSources | src/orchestration/pipeline_runner.py:147-175 | every processed file comes from an accepted turn of the same source, and a completed loop stores the file of every accepted turn |
| Pipeline.CollectSkips | src/orchestration/pipeline_runner.py:157-175 | with distinct sources, a skipped source gets no processed file |
| Pipeline.LoadAllShape | src/orchestration/pipeline_runner.py:198-207 | loads run in the order of the processed files, one job per file, and stop at the first that raises, with its error |
| Pipeline.RunFailure | src/orchestration/pipeline_runner.py:79-83 | a failed run has recorded start, end and `error`, and leaves `duration` as it was (None from fresh statistics) |
| Pipeline.RunAccumulates | src/orchestration/pipeline_runner.py:47-83 | `files_uploaded` only grows, `total_valid_records` never drops, and `sources_processed` is assigned, not added to |
| Pipeline.FreshRunSucceeded | src/orchestration/pipeline_runner.py:47-77 | a successful run from fresh statistics records start, end and duration, 3 sources, the sum of the three raw lengths, the three raw entries first, one more entry per accepted batch, the accepted records as valid records, and 0 errors |
| Pipeline.RunAsWrittenAlwaysFails | src/orchestration/pipeline_runner.py:54 | with the settings check as written, every run fails before extraction and records only start, end and the `AttributeError` |
| Pipeline.RunChecksSettingsFirst | src/orchestration/pipeline_runner.py:54 | with the corrected check, a run with an unset required variable fails before extraction, and a complete environment lets the run proceed as if the check passed |
| Pipeline.PipelineRunner.constructor | src/orchestration/pipeline_runner.py:24-45 | the masker uses the default salt, the validator is fresh, and the statistics are all zero and None, with no file uploaded |
| Pipeline.PipelineRunner.ExtractData | src/orchestration/pipeline_runner.py:85-118 | returns `Extract`, and on success assigns `sources_processed` and `total_raw_records` |
| Pipeline.PipelineRunner.UploadRawData | src/orchestration/pipeline_runner.py:120-138 | the loop returns the raw files or the first error, and appends exactly the stage's entries to `files_uploaded`, even when it fails part-way |
| Pipeline.PipelineRunner.ProcessData | src/orchestration/pipeline_runner.py:140-191 | returns the processed files or the error, accumulates entries and valid records, and after a completed loop takes `total_errors` and `validation_summary` from the validator |
| Pipeline.PipelineRunner.ProcessSources | src/orchestration/pipeline_runner.py:147-179 | the loop over raw files adds exactly the processed entries and accepted records of `Process` |
| Pipeline.PipelineRunner.ProcessSourceData | src/orchestration/pipeline_runner.py:148-179 | one turn downloads, validates with the validator, and stores an accepted batch, giving the outcome of that source |
| Pipeline.PipelineRunner.StoreValidatedData | src/orchestration/pipeline_runner.py:165-176 | an empty validated batch is skipped; otherwise it is masked and uploaded under `processed` |
| Pipeline.PipelineRunner.LoadToBigQuery | src/orchestration/pipeline_runner.py:193-207 | it starts the jobs of `LoadAll` in order, and raises exactly when a load raises, with that error |
| Pipeline.PipelineRunner.GetPipelineSummary | src/orchestration/pipeline_runner.py:209-222 | the summary holds the statistics, the validator's summary, and the table info, or None when the lookup raises |
| Pipeline.PipelineRunner.RecordFailure | src/orchestration/pipeline_runner.py:79-83 | records `end_time` and `error`, and re-raises |
| Pipeline.PipelineRunner.RunFullPipeline | src/orchestration/pipeline_runner.py:47-83 | the statistics and the error are those of `Run`, the validator's log stays empty, and a successful run returns the pipeline summary |

## Where the code differs from its tests and stated design

In each of these cases the repository's tests or its stated design describe something the code does not do. The model follows the code.

- **Empty batch.** An empty batch yields the issue `Empty DataFrame`, not `empty batch`.
- **None in a required field.** It is reported as pydantic's type error (`Input should be a valid string`). There is no separate null-field violation and no null count. Accordingly, the repository's test `test_null_values_in_required_fields` expects `valores nulos` in the issue, a text the code never produces. `ValidatorCases.FixtureNullFirstNameRejected` states what the code gives.
- **Warehouse loads.** A failing load is not collected so that later loads can go on: the first load that raises ends `_load_to_bigquery`, and the run fails with it.
- **Extra columns.** The validator reports an `extra='forbid'` error for every column outside the model. The masked batch adds `masked_at` and `is_masked`, but it is never re-validated, so this does not matter in the pipeline.

## Left out

- **NaN and None.** Python's NaN and None are both `Null`. A key missing from a record also reads as `Null`.
- **Pydantic coercion.** Strings are not parsed into numbers or dates. Each value has exactly one model type, and a `float` salary is an integer.
- **Pydantic's error text.** Only the count header and, per error, the field and message lines are rendered. The bracketed `type=… input_value=…` details and the documentation URL are not. The `TypeError` text of a non-string e-mail is a fixed string.
- **Text handling.** Digits and upper-casing are ASCII only. Python's `str()` of a non-string value is `Frames.Show`, a stand-in rendering.
- **Clock values.** `datetime.now()` and `pd.Timestamp.now()` are integer parameters. One `now` serves both validation and masking within a run, and `duration` is `end - start` in the clock's unit.
- **SHA-256.** The hash is a parameter that returns 64 lower-case hex digits. Its internals and its preimage resistance are not modelled.
- **Masking.DataMasker.MaskPhone:** the token of the leading digits that `_mask_phone` computes and then discards is not computed, because it affects nothing.
- **Masking.Stamp:** its own contract states only the record count. `Masking.MaskFrameShape` states the stamped cells.
- **Object store and warehouse.** The GCS and BigQuery clients, parquet serialisation, and the uploader's rewriting of `zip_code` are left out. `download` is any function, so nothing relates a file read back to the batch that was stored. Only the file-name shape of the uploader (src/storage/gcs_uploader.py:26) is kept.
- **Extractors.** The Faker, HTTP and CSV extractors are the `extract` function of `Services`.
- **The validator's log.** Nothing appends to `validation_errors`, so `PipelineRunner.Valid()` keeps it empty. It is still modelled in full, and the summary lemmas hold for any log.
- **Aliasing.** `pipeline_stats` is a value, so the aliasing between the returned summary's `pipeline_stats` and the runner's dictionary is not modelled.
- **Dictionary keys.** The dictionaries keyed by source name are lists of pairs. The three source names are distinct, so no key is overwritten.
- **Pipeline.Process:** acceptance is stated through `Validator.SchemaValid`. `Validator.ValidIffSchemaValid` proves it equal to `validate_dataframe` returning no issue, and `PipelineRunner.ProcessSourceData` calls the validator's method itself.
- **Row index.** Batches carry no pandas index: the issue of a failing record is numbered by its position plus one. That equals `idx + 1` only for the default RangeIndex, which is what the pipeline's batches have, because they are read back from parquet files written with `index=False`. Another integer index would change the number, and a non-numeric one would make `idx + 1` raise out of `validate_dataframe`. Neither case is modelled.
- **Logging, `print`, and the `__main__` block** are left out.
- **Settings' other attributes.** `CHUNK_SIZE` and `MAX_RETRIES` are modelled only as the constants `getattr` returns; nothing in the modelled core reads them.
- **Concurrency.** None is modelled: the code is sequential.

## Findings

| source | as written | input that shows it | evidently intended | confidence | as-written member | corrected member |
|---|---|---|---|---|---|---|
| src/config/settings.py:20-29 | `validate_settings` calls `getattr(cls, 'GCS_BUCKET_RAW')`, but the only bucket attribute `Settings` defines is `GCS_BUCKET`, so the lookup raises `AttributeError`, and so does every `run_full_pipeline` (src/orchestration/pipeline_runner.py:54) | any environment, including one where every variable is set | check the attributes the class defines, so that the check fails only with `Missing required settings: …` for variables that are unset or empty | not executed | Settings.AsWrittenAlwaysFails | Settings.ValidateSettingsOkIff |
