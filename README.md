# Otus-Python course exercises: a verified model of their sequential core

This project models, in Dafny, the parts of the Otus-Python exercises that
are plain sequential logic. It also proves what that logic promises.

- **Installed-apps loaders.** There are two: `memc_load.py` (Python) and
  `memc_load_parallel.go` (Go). The model covers:
  - the tab-separated line parser;
  - the memcache key `dev_type:dev_id`;
  - the insert with its bounded connection retry;
  - the per-file processed/error counters and the 1% error-rate gate;
  - the "dot rename" target name.
- **Request validation of the scoring API.** There are two revisions,
  `api_handler/api.py` and the earlier `api.py`. The model covers:
  - the field validators;
  - the request classes and the labels they write onto shared field objects;
  - the "at least one pair" rule;
  - `check_auth`;
  - the status-code decision of `method_handler`.
- **Score cache of `sample/store.py`.** `cache_set`/`cache_get` work on a
  dictionary with expiry times. `connect` is a bounded retry loop.
- **Log analyzer.** The model covers:
  - choosing the newest `nginx-access-ui.log-YYYYMMDD` file;
  - extracting (url, time) from each line;
  - overlaying the config file on the defaults;
  - the "report already exists" decision of `main`.
- **Hasker Q&A site.** The model covers:
  - the vote state machine and its counting invariant;
  - `total_points` on save;
  - the tag list;
  - question listing and search;
  - the form checks;
  - user creation and permissions.
- **HTTP servers.** The model covers:
  - `parse_path` and the 200/403/404/405 reply of `httpd.py`;
  - `translate_path`, `guess_type` and the echo line buffer of `async_chat.py`, with the `%` formatting of its debug messages.

The modules follow the source files:
- most files have one module each: `MemcLoad` (memc_load.py),
  `MemcLoadGo` (memc_load_parallel.go), `ApiHandler`
  (api_handler/api.py), `ApiLegacy` (the earlier api.py), `ScoreStore`
  (sample/store.py), `LogAnalyzer`, `HaskerForms` (forms.py),
  `HaskerAccounts` (accounts/models.py), `Httpd` and `AsyncChat`;
- Hasker's core `views.py` and `models.py` are split by concern:
  `HaskerVotes` holds the vote views and the vote counters and `save` of
  both files, `HaskerQuestions` the listing, the search and the tag list;
- the two API revisions share `ApiFields` (the field validators) and
  `ApiRequest` (request-level checks), which both files define alike. `Text`, `Paths` and
`Wrappers` hold the Python and Go library semantics the modules rely on:
- `str.split` and `strip`;
- `posixpath.join`/`normpath`/`splitext`;
- Go's `filepath.Split`/`Join`/`Clean` and `strconv.Atoi`;
- decimal conversion;
- `Option`.

Code that mutates state is modelled with classes and methods:
- the loaders' per-file loops and insert retry;
- the label-writing request classes;
- the cache;
- `find_last_log`, `parse_log` and `parse_config`;
- the vote views and `save`;
- the stream writer;
- the echo buffer.

Each such method is proved against a specification function, and the
properties are proved about those functions.

I/O, time, hashing, float parsing, `unquote`, the file system and the
memcache/MySQL clients become parameters of the operations that use them.

## Model

| member | source | states |
|---|---|---|
| MemcLoad.Fields | W12_Concurrency/memc_load.py:75 | `line.strip().split("\t")` always yields at least one part |
| MemcLoad.ParseAppsInstalled | W12_Concurrency/memc_load.py:74-90 | `parse_appsinstalled` as written: `None` for fewer than five fields or an empty device type or id; a raise for more than five fields or for a non-integer app token (the misspelt `isidigit`); otherwise the record, coordinates unconverted when `float` fails; stated by the lemmas below |
| MemcLoad.ParseRejections | W12_Concurrency/memc_load.py:75-80 | the parser returns `None` exactly when there are fewer than 5 parts, or 5 parts with an empty `dev_type` or `dev_id`; more than 5 parts makes the tuple unpacking raise |
| MemcLoad.ParseWellFormed | W12_Concurrency/memc_load.py:78-90 | when every app token is an integer: `dev_type`/`dev_id` are the first two fields, `apps` are the token values in input order, and lat/lon are converted iff both parse as floats, otherwise kept unconverted (the record is still returned) |
| MemcLoad.ParseNonIntegerAppRaises | W12_Concurrency/memc_load.py:81-85 | one non-integer app token makes the parser raise: the fallback calls the non-existent `str.isidigit` |
| MemcLoad.ParseFallbackCounterexample | W12_Concurrency/memc_load.py:83-85 | the line `idfa\tid\t1\t2\t7,x` makes `parse_appsinstalled` raise instead of returning apps `[7]` |
| MemcLoad.DigitTokens | W12_Concurrency/memc_load.py:84 | the intended fallback list keeps at most one non-negative integer per token |
| MemcLoad.DigitTokensAppend | W12_Concurrency/memc_load.py:84 | the intended fallback list grows by a token's value exactly when the token is all digits, keeping input order |
| MemcLoad.ParseAppsInstalledFixed | W12_Concurrency/memc_load.py:74-90 | with the fallback spelled `isdigit`, a 5-field line never raises |
| MemcLoad.FixedAgreesWhenNoRaise | W12_Concurrency/memc_load.py:74-90 | the corrected parser agrees with the written one on every line where the latter does not raise |
| MemcLoad.AppsText | W12_Concurrency/memc_load.py:189-202 | printing apps gives one token per app |
| MemcLoad.IntTokensOfAppsText | W12_Concurrency/memc_load.py:82 | `int(a.strip())` reads back every printed app |
| MemcLoad.FieldsOfJoin | W12_Concurrency/memc_load.py:75 | stripping and splitting a tab-joined line gives back its fields |
| MemcLoad.AppsLine | W12_Concurrency/memc_load.py:82 | the comma-joined printed apps split back into the printed tokens, with no tab and no trailing space |
| MemcLoad.ParseFormatRoundTrip | W12_Concurrency/memc_load.py:74-90 | parsing a formatted record (non-empty ids, no tabs, at least one app) gives back exactly that record |
| MemcLoad.StoreKey | W12_Concurrency/memc_load.py:45 | the key is `dev_type`, a colon and `dev_id`, so its length is their sum plus one |
| MemcLoad.StoreKeySplits | W12_Concurrency/memc_load.py:45 | a key splits back at its first colon into `dev_type` and `dev_id` |
| MemcLoad.StoreKeyInjective | W12_Concurrency/memc_load.py:45 | two records with colon-free device types share a key only when they share `dev_type` and `dev_id` |
| MemcLoad.FirstClient | W12_Concurrency/memc_load.py:54-62 | the first attempt that obtains a client, with every earlier attempt failed; none when all attempts fail |
| MemcLoad.Serialisable | W12_Concurrency/memc_load.py:42-46 | the `UserApps` assignments accept a record only when both coordinates were converted to floats and every app lies in [0, 2^32); otherwise they raise |
| MemcLoad.InsertResult | W12_Concurrency/memc_load.py:51-71 | a serialisable insert returns True in a dry run, otherwise exactly when a client is obtained within the retries and `set` does not raise; `InsertAppsInstalled` states it |
| MemcLoad.InsertAppsInstalled | W12_Concurrency/memc_load.py:41-71 | the protobuf assignments raise exactly when the record is not serialisable, before the dry-run test and before any client; otherwise the key is `dev_type:dev_id`, a dry run returns True without any client, and at most `CONNECTION_RETRIES + 1` constructions are made, stopping at the first client; False when no client is obtained or `set` raises |
| MemcLoad.ClassifyBlank | W12_Concurrency/memc_load.py:131-133 | a line is skipped exactly when it strips to nothing |
| MemcLoad.ClassifyQueued | W12_Concurrency/memc_load.py:134-144 | a queued record parsed from its line, and its device type has a non-empty address |
| MemcLoad.Outcomes | W12_Concurrency/memc_load.py:130-147 | one outcome per line |
| MemcLoad.Tally | W12_Concurrency/memc_load.py:93-153 | the counters over the first n lines: blank adds nothing, a parse or routing failure adds an error, a queued record adds one processed or one error by its insert result; a line that raises crashes the file; an insert that raises kills its worker thread before `task_done`, so the file hangs in `join()` unless a later line raises first |
| MemcLoad.TallyNext | W12_Concurrency/memc_load.py:130-153 | one step of counting: blank adds nothing; a parse failure or unknown type adds 1 error; a queued record hangs the file if it is not serialisable, else adds 1 processed or 1 error by its insert result; a raising line crashes the run |
| MemcLoad.TallyConservation | W12_Concurrency/memc_load.py:130-153 | after any prefix that did not crash, processed + errors equals the number of non-blank lines |
| MemcLoad.TallyDryRun | W12_Concurrency/memc_load.py:93-153 | a dry run that finishes had only serialisable queued records, and every one of them counts as processed |
| MemcLoad.FinishedSerialisable | W12_Concurrency/memc_load.py:93-153 | a file that finishes, dry run or not, had only serialisable queued records |
| MemcLoad.UnserialisableHangs | W12_Concurrency/memc_load.py:93-153 | a queued record with unconverted coordinates or an app outside uint32 hangs the file, dry run or not, unless a later line raises in the reading loop |
| MemcLoad.CrashPersists | W12_Concurrency/memc_load.py:130-147 | once a line raises, the file's result is that exception whatever follows |
| MemcLoad.Gate | W12_Concurrency/memc_load.py:151-163 | no rate when nothing was processed, acceptable below the 1% error rate, high otherwise; `GateIsRate` proves the rate comparison |
| MemcLoad.GateIsRate | W12_Concurrency/memc_load.py:155-163 | with `processed > 0` the integer gate says "acceptable" exactly when `errors / processed < 0.01` |
| MemcLoad.Classify | W12_Concurrency/memc_load.py:131-142 | blank, a parse error, a raise, an unknown or empty address, or queued; stated by `ClassifyBlank` and `ClassifyQueued` |
| MemcLoad.ClassifyAt | W12_Concurrency/memc_load.py:131-142 | the branch taken for line i is that line's outcome |
| MemcLoad.ProcessLine | W12_Concurrency/memc_load.py:132-153 | one loop step moves the counters from the tally of the first i lines to the tally of the first i + 1 |
| MemcLoad.ProcessFile | W12_Concurrency/memc_load.py:104-165 | the result is the tally over all lines (counters, crash or hang); a finished run returns the file name and the gate verdict of its counters |
| MemcLoad.DotRenameTarget | W12_Concurrency/memc_load.py:34-38 | the target `os.path.join(head, "." + fn)` of `dot_rename`; its shape is stated by `DotRenameInsertsDot` |
| MemcLoad.DotRenameInsertsDot | W12_Concurrency/memc_load.py:34-38 | the rename target is the path with a dot inserted before its base name, for every path whose directory part does not end in two or more slashes after other text (`split` collapses such a run) |
| MemcLoadGo.LineParts | W15_Go_MemcLoad_v2/memc_load_parallel.go:77 | `strings.Split(strings.TrimSpace(line), "\t")` always yields at least one part |
| MemcLoadGo.AppOf | W15_Go_MemcLoad_v2/memc_load_parallel.go:103-107 | a token contributes at most one app |
| MemcLoadGo.ParseAppsInstalled | W15_Go_MemcLoad_v2/memc_load_parallel.go:76-119 | the loop that appends apps yields the specified parse result |
| MemcLoadGo.ParseLine | W15_Go_MemcLoad_v2/memc_load_parallel.go:76-119 | the Go parser: the field-count, missing-id and float checks in source order, then the record; stated by `ParseLineErrors` and `ParseLineOk` |
| MemcLoadGo.ParseLineErrors | W15_Go_MemcLoad_v2/memc_load_parallel.go:77-99 | the field-count error exactly when there are not exactly 5 parts; the missing-id error exactly for 5 parts with an empty id; a float error exactly when lat or lon fails to parse |
| MemcLoadGo.ParseLineOk | W15_Go_MemcLoad_v2/memc_load_parallel.go:76-119 | a record exactly for 5 parts with both ids and both floats, carrying those values and the apps of the comma-split last field |
| MemcLoadGo.AppsOfConcat | W15_Go_MemcLoad_v2/memc_load_parallel.go:101-108 | the apps of concatenated token lists are the concatenated apps, so order is kept |
| MemcLoadGo.AppsOfDropsBadToken | W15_Go_MemcLoad_v2/memc_load_parallel.go:103-107 | a token `Atoi` rejects is dropped without rejecting the record |
| MemcLoadGo.AppsOfBounded | W15_Go_MemcLoad_v2/memc_load_parallel.go:104 | every app is a `uint32` value |
| MemcLoadGo.AppsOfAllIntegers | W15_Go_MemcLoad_v2/memc_load_parallel.go:101-108 | when every token is an integer, the apps are their `uint32` conversions in order |
| MemcLoadGo.NegativeAppWraps | W15_Go_MemcLoad_v2/memc_load_parallel.go:104 | the token `-1` becomes app 4294967295 |
| MemcLoadGo.AtoiOfDecimal | W15_Go_MemcLoad_v2/memc_load_parallel.go:103 | `Atoi` reads back a printed natural number |
| MemcLoadGo.AppsOfPrinted | W15_Go_MemcLoad_v2/memc_load_parallel.go:101-108 | printed `uint32` apps read back as themselves |
| MemcLoadGo.AppOfPrinted | W15_Go_MemcLoad_v2/memc_load_parallel.go:103-104 | one printed `uint32` app reads back as itself |
| MemcLoadGo.PrintedApps | W15_Go_MemcLoad_v2/memc_load_parallel.go:102 | comma-joined printed apps split back into the printed tokens |
| MemcLoadGo.ParseFormatRoundTrip | W15_Go_MemcLoad_v2/memc_load_parallel.go:76-119 | parsing a formatted record with parseable coordinates gives back that record |
| MemcLoadGo.PartsOfJoin | W15_Go_MemcLoad_v2/memc_load_parallel.go:77 | trimming and splitting a tab-joined line gives back its fields |
| MemcLoadGo.Key | W15_Go_MemcLoad_v2/memc_load_parallel.go:61 | the key is `dev_type:dev_id` |
| MemcLoadGo.KeySplits | W15_Go_MemcLoad_v2/memc_load_parallel.go:61 | a key splits back at its first colon into `dev_type` and `dev_id` |
| MemcLoadGo.KeyInjective | W15_Go_MemcLoad_v2/memc_load_parallel.go:61 | records with colon-free device types share a key only when they share both ids |
| MemcLoadGo.Insert | W15_Go_MemcLoad_v2/memc_load_parallel.go:56-74 | true in a dry run, a panic for a nil client, otherwise whether `Set` returned no error; stated by `InsertCases` |
| MemcLoadGo.InsertCases | W15_Go_MemcLoad_v2/memc_load_parallel.go:56-74 | a dry run returns true without `Set`; false exactly when `Set` fails on a client; a nil client panics outside a dry run |
| MemcLoadGo.Outcomes | W15_Go_MemcLoad_v2/memc_load_parallel.go:144-172 | one outcome per scanned line |
| MemcLoadGo.UnknownTypeTestNeverFires | W15_Go_MemcLoad_v2/memc_load_parallel.go:157-159 | `memc_addr == 0` compares an interface holding a string (or nil) with int 0, so it is never true |
| MemcLoadGo.Tally | W15_Go_MemcLoad_v2/memc_load_parallel.go:144-172 | the counters as written: `ln_errors += ln_errors` for a malformed line, the never-true `memc_addr == 0` test, and the insert through `memc_servers[dev_type]`; stated by the lemmas below |
| MemcLoadGo.TallyIgnoresMalformed | W15_Go_MemcLoad_v2/memc_load_parallel.go:152-155 | with no failed insert the error counter stays 0, however many lines fail to parse |
| MemcLoadGo.UnknownTypeSlipsThrough | W15_Go_MemcLoad_v2/memc_load_parallel.go:157-171 | a record of an unconfigured device type counts as processed in a dry run and panics otherwise |
| MemcLoadGo.PanicPersists | W15_Go_MemcLoad_v2/memc_load_parallel.go:144-172 | after a panic the file's result stays a panic |
| MemcLoadGo.TallyFixed | W15_Go_MemcLoad_v2/memc_load_parallel.go:144-172 | the corrected counting: a malformed line and a record with no configured address each add 1 error; stated by `TallyFixedConservation` |
| MemcLoadGo.TallyFixedConservation | W15_Go_MemcLoad_v2/memc_load_parallel.go:144-172 | with `ln_errors += 1` and a real unknown-type test, processed + errors equals the number of non-blank lines |
| MemcLoadGo.MalformedLineCounterexample | W15_Go_MemcLoad_v2/memc_load_parallel.go:152-180 | one good and one malformed line: as written 1 processed, 0 errors and "acceptable"; corrected 1 and 1 and "high error rate" |
| MemcLoadGo.UnknownTypeCounterexample | W15_Go_MemcLoad_v2/memc_load_parallel.go:157-165 | one record of an unknown device type panics as written; corrected it is one error |
| MemcLoadGo.Gate | W15_Go_MemcLoad_v2/memc_load_parallel.go:174-180 | the float gate: a high error rate when nothing was processed (NaN or +Inf), otherwise the 1% test; stated by `GateIsRate` |
| MemcLoadGo.GateIsRate | W15_Go_MemcLoad_v2/memc_load_parallel.go:174-180 | "acceptable" exactly when processed > 0 and `errors / processed < 0.01` (zero processed gives NaN or +Inf, never below the limit) |
| MemcLoadGo.CountLine | W15_Go_MemcLoad_v2/memc_load_parallel.go:145-171 | one loop step moves the counters from the tally of i lines to that of i + 1 |
| MemcLoadGo.Classify | W15_Go_MemcLoad_v2/memc_load_parallel.go:145-155 | a line trimmed to empty is blank, else malformed or a record by the parser; `ClassifyAt` ties it to the loop |
| MemcLoadGo.ClassifyAt | W15_Go_MemcLoad_v2/memc_load_parallel.go:145-155 | the branch taken for line i is that line's outcome |
| MemcLoadGo.ProcessOneFile | W15_Go_MemcLoad_v2/memc_load_parallel.go:121-182 | the counters are the tally over all lines, and a finished run logs the gate verdict |
| MemcLoadGo.DotRenameTarget | W15_Go_MemcLoad_v2/memc_load_parallel.go:49-54 | the target `filepath.Join(head, "." + old_fn)`; stated by the two lemmas below |
| MemcLoadGo.DotRenameTargetOfClean | W15_Go_MemcLoad_v2/memc_load_parallel.go:49-54 | for a clean path `dir/name` the target is `dir/.name` |
| MemcLoadGo.DotRenameBareName | W15_Go_MemcLoad_v2/memc_load_parallel.go:49-54 | a bare file name is renamed to `.name` |
| MemcLoadGo.ProcessFileAndRename | W15_Go_MemcLoad_v2/memc_load_parallel.go:184-189 | a finished file is renamed to its dot target; a panic renames nothing |
| ApiFields.Check | W3_OOP/api_handler/api.py:66-160 | every validator accepts every empty value |
| ApiFields.TypeChecks | W3_OOP/api_handler/api.py:71-160 | CharField, ArgumentsField and ClientIDsField accept exactly empty values and strings, dicts and lists respectively; GenderField accepts exactly empty values and 0, 1, 2 |
| ApiFields.EmailMatches | W3_OOP/api_handler/api.py:96 | `re.match` of the e-mail pattern, where `$` also matches before a final newline; stated by `EmailNoDot`, `EmailNoAt` and `EmailExamples` |
| ApiFields.EmailCheck | W3_OOP/api_handler/api.py:93-98 | an e-mail passes exactly when empty or a string matching the regex; a non-string is refused with CharField's message first |
| ApiFields.EmailExamples | W3_OOP/tests/test_field_types.py:20-31 | `hello@world.ru` matches the e-mail regex; `haha@hoho` and `text` do not |
| ApiFields.EmailNoDot | W3_OOP/api_handler/api.py:96 | an address without a dot after the `@` does not match |
| ApiFields.EmailNoAt | W3_OOP/api_handler/api.py:96 | an address without `@` does not match |
| ApiFields.BirthDayCheck | W3_OOP/api_handler/api.py:117-138 | a birthday passes exactly when empty, or parseable as a date and at most 70 years back; an unparseable one gets the date message |
| ApiFields.PhoneOk | W3_OOP/api_handler/api.py:106-109 | `str(label)` has the phone shape; only a string or an int can print as digits; stated by `PhoneStringCheck` and `PhoneNumberCheck` |
| ApiFields.IsGenderCode | W3_OOP/api_handler/api.py:146-148 | `label in [0, 1, 2]` with Python numeric equality, so `False`, `True` and `1.0` are codes; used by `TypeChecks` |
| ApiFields.PhoneStringCheck | W3_OOP/api_handler/api.py:106-109 | a string phone passes exactly when empty or 11 digits starting with 7 |
| ApiFields.PhoneNumberCheck | W3_OOP/api_handler/api.py:106-109 | an integer phone passes exactly when it lies in [70000000000, 80000000000) |
| ApiFields.PhoneShapedRange | W3_OOP/api_handler/api.py:108 | a printed natural number has the phone shape exactly when it lies in that range |
| ApiRequest.GetSpec | W3_OOP/api_handler/api.py:189-190 | looking up a key finds an entry with that key, or none exists |
| ApiRequest.Spread | W3_OOP/api_handler/api.py:317-327 | `**x` succeeds exactly for a dict without a "self" key, passing its entries |
| ApiRequest.LabelErrors | W3_OOP/api_handler/api.py:198-207 | the entries for one field: "This field cannot be empty" for an empty non-nullable label, then the validator message; stated by `LabelErrorsEmpty` and `EmptyNonNullable` |
| ApiRequest.LabelErrorsEmpty | W3_OOP/api_handler/api.py:198-207 | a field contributes no error exactly when its label is non-empty or nullable and its validator accepts it; otherwise at most two entries, all under its name |
| ApiRequest.EmptyNonNullable | W3_OOP/api_handler/api.py:199-200 | an empty label of a non-nullable field gives exactly "This field cannot be empty" |
| ApiRequest.FieldErrors | W3_OOP/api_handler/api.py:196-209 | the error list of a request class, field by field in declaration order; stated by the three lemmas below |
| ApiRequest.FieldErrorsEmpty | W3_OOP/api_handler/api.py:196-209 | the error list is empty exactly when no field contributes an error |
| ApiRequest.FieldErrorsNames | W3_OOP/api_handler/api.py:196-209 | every error names a declared field |
| ApiRequest.FieldErrorsStep | W3_OOP/api_handler/api.py:198-207 | the errors of the first k + 1 fields are those of the first k followed by field k's |
| ApiRequest.Rebound | W3_OOP/api_handler/api.py:188-190 | `__init__` keeps one label per declared field |
| ApiRequest.NonEmptyDeclaredSpec | W3_OOP/api_handler/api.py:185-193 | a name is recorded non-empty exactly when a field declares it and the passed value is non-empty |
| ApiRequest.NameList | W3_OOP/api_handler/api.py:277 | `ctx["has"]` is the list of the non-empty field names, in order |
| ApiRequest.ScoreValidate | W3_OOP/api_handler/api.py:260-271 | `OnlineScoreRequest.validate` as written: the basic errors plus the pair error without a pair, `None` with one |
| ApiRequest.ScoreValidateAccepts | W3_OOP/api_handler/api.py:260-271 | as written, validation reports no error exactly when a pair is fully non-empty; without a pair the "multiple fields" error is added |
| ApiRequest.PairHidesFieldErrors | W3_OOP/api_handler/api.py:260-271 | a request with the pair email/phone and a bad e-mail has a field error, yet validation reports none |
| ApiRequest.ScoreValidateFixed | W3_OOP/api_handler/api.py:260-271 | corrected: the field errors are kept and the pair entry is added only without a pair; stated by `ScoreValidateFixedAccepts` |
| ApiRequest.ScoreValidateFixedAccepts | W3_OOP/api_handler/api.py:260-271 | corrected: no error exactly when a pair exists and no field error exists; field errors are always kept |
| ApiHandler.RequestClass.constructor | W3_OOP/api_handler/api.py:163-175 | the declared fields, each with the label `None` |
| ApiHandler.RequestClass.Bind | W3_OOP/api_handler/api.py:185-194 | the passed value becomes the label of each declared field it names, other labels persist, and `non_empty_fields` are the declared non-empty names in declaration order |
| ApiHandler.RequestClass.Validate | W3_OOP/api_handler/api.py:196-209 | the loop builds exactly the specified error list |
| ApiHandler.Fresh | W3_OOP/api_handler/api.py:56-59 | one label `None` per field, as `Field.__init__` sets it |
| ApiHandler.CheckAuth | W3_OOP/api_handler/api.py:301-312 | `check_auth`: the admin digest of the hour, or the digest of account + login + salt; KeyError for a missing key, TypeError for a non-string part; stated by `AdminAuth`, `UserAuth` and `NonStringTokenRefused` |
| ApiHandler.AdminAuth | W3_OOP/api_handler/api.py:301-312 | the admin is accepted with the admin digest of the hour |
| ApiHandler.UserAuth | W3_OOP/api_handler/api.py:306-312 | a user is accepted exactly when the token equals the digest of account + login + salt |
| ApiHandler.NonStringTokenRefused | W3_OOP/api_handler/api.py:310-312 | a non-string token is never accepted |
| ApiHandler.ScoreResult | W3_OOP/api_handler/api.py:273-279 | bind, then TypeError for an argument named like a parameter of `get_result`; 422 on errors; otherwise the non-empty fields are recorded in the context and the score is 43 for the admin, `get_score` otherwise |
| ApiHandler.InterestsResult | W3_OOP/api_handler/api.py:235-244 | 422 on errors, and the fixed message with 422 when `client_ids` is missing or `get_interests` or `len` raises; otherwise `ctx["nclients"]` is set and the interests are answered |
| ApiHandler.GetScoreResult | W3_OOP/api_handler/api.py:273-279 | `get_result` of online_score yields the specified outcome, context and labels |
| ApiHandler.GetInterestsResult | W3_OOP/api_handler/api.py:235-244 | `get_result` of clients_interests yields the specified outcome, context and labels |
| ApiHandler.Handle | W3_OOP/api_handler/api.py:315-343 | `method_handler`: spread, validate, authenticate, dispatch on the method name; stated by the lemmas below |
| ApiHandler.MethodHandler | W3_OOP/api_handler/api.py:315-343 | `method_handler` yields the specified outcome, context and field labels |
| ApiHandler.HandleCodes | W3_OOP/api_handler/api.py:315-343 | every answer has code 200, 403 or 422 |
| ApiHandler.ValidationBeforeAuth | W3_OOP/api_handler/api.py:317-320 | a request with field errors gets 422 with those errors, whatever authentication would answer |
| ApiHandler.ForbiddenExactly | W3_OOP/api_handler/api.py:317-323 | 403 exactly when the body spreads, has no field errors and fails authentication |
| ApiHandler.ScoreNotForbidden | W3_OOP/api_handler/api.py:273-279 | online_score never answers 403 |
| ApiHandler.InterestsNotForbidden | W3_OOP/api_handler/api.py:235-244 | clients_interests never answers 403 |
| ApiHandler.UnknownMethodRejected | W3_OOP/api_handler/api.py:337-339 | an authenticated, valid request with another method name gets 422 "Unknown method" |
| ApiHandler.IsAdmin | W3_OOP/api_handler/api.py:294-298 | the login label equals `"admin"`; `LoginLabel` says that label is the passed login |
| ApiHandler.LoginLabel | W3_OOP/api_handler/api.py:294-298 | the login label `is_admin` reads is the passed login |
| ApiHandler.AdminScoresFortyThree | W3_OOP/api_handler/api.py:273-329 | a valid admin online_score request with a pair answers 200 with score 43 and sets `ctx["has"]` to the non-empty names |
| ApiHandler.ScoredHasPair | W3_OOP/api_handler/api.py:260-279 | a 200 online_score answer implies a pair was given, and `ctx["has"]` is set |
| ApiHandler.InterestsCounted | W3_OOP/api_handler/api.py:235-244 | a 200 clients_interests answer implies a non-empty list of client ids, and `ctx["nclients"]` is its length |
| ApiHandler.LabelsPersist | W3_OOP/api_handler/api.py:188-190 | a field the body does not name keeps the label of the previous request |
| ApiHandler.HandleKeepsMain | W3_OOP/api_handler/api.py:317 | after a request the method fields hold the labels that request bound |
| ApiHandler.FreshMissingMethod | W3_OOP/api_handler/api.py:196-209 | on a first request without "method" the answer is 422 and lists "method" as empty |
| ApiHandler.StaleMethodRaises | W3_OOP/api_handler/api.py:326 | a later request without "method" passes validation on the stale label, then `request['body']['method']` raises KeyError |
| ApiLegacy.Assigned | W3_OOP/api.py:196-199 | a field's label after binding: the last argument passed for it, else its earlier label; stated by `AssignedKeeps` and `AssignedSets` |
| ApiLegacy.AssignedKeeps | W3_OOP/api.py:196-199 | a field no passed key names keeps its label |
| ApiLegacy.AssignedSets | W3_OOP/api.py:196-199 | a field named by a passed key takes that value |
| ApiLegacy.Assign | W3_OOP/api.py:194-199 | one label per declared field |
| ApiLegacy.NonEmptyPassed | W3_OOP/api.py:194-202 | every passed key with a non-empty value, declared or not, in argument order |
| ApiLegacy.NonEmptyPassedSpec | W3_OOP/api.py:194-202 | a name is recorded non-empty exactly when some passed key has it with a non-empty value, declared or not |
| ApiLegacy.Validation | W3_OOP/api.py:204-217 | AttributeError on the first unset label, otherwise the later revision's error list |
| ApiLegacy.Values | W3_OOP/api.py:207-213 | one value per set label |
| ApiLegacy.RequestClass.constructor | W3_OOP/api.py:49-52 | a request class whose fields have no `label` attribute at all |
| ApiLegacy.RequestClass.Bind | W3_OOP/api.py:194-202 | every passed value is written onto the field it names, other labels persist, and `non_empty_fields` lists the non-empty passed keys in argument order |
| ApiLegacy.RequestClass.Validate | W3_OOP/api.py:204-217 | the loop builds exactly the specified error list, or raises AttributeError on a field that never got a label |
| ApiLegacy.Fresh | W3_OOP/api.py:49-52 | fresh field objects have one (absent) label per field |
| ApiLegacy.CheckAuth | W3_OOP/api.py:290-301 | `check_auth` as written compares the token with itself; only KeyError or TypeError stop it |
| ApiLegacy.AuthNeverRefuses | W3_OOP/api.py:290-301 | `check_auth` never returns False; the admin is accepted with any token |
| ApiLegacy.KeyOf | W3_OOP/api.py:238 | `hash(client)`: `None`, numbers and strings are hashable and `True`, `1` and `1.0` are one key; a list or a dict is unhashable |
| ApiLegacy.DictSet | W3_OOP/api.py:238 | `response_dict[client] = v`: an equal stored key keeps its entry and takes the new value; a new key goes last |
| ApiLegacy.DictSetSpec | W3_OOP/api.py:238 | after the assignment the dict still has no two equal keys, `client` looks up `v`, every other key looks up what it did, and the stored keys are the old ones plus `client` when it was new |
| ApiLegacy.InterestsOf | W3_OOP/api.py:235-239 | `get_interests`: each call runs first and raises OracleError when it fails; an unhashable id then raises TypeError; otherwise the dict is updated |
| ApiLegacy.InterestsOfSpec | W3_OOP/api.py:235-239 | the answer is a dict whose keys are listed ids, no two equal under Python's `==`; every key looks up the interests of the last listed id equal to it, and no other key is stored |
| ApiLegacy.InterestsOfAnswers | W3_OOP/api.py:235-239 | an answer is given exactly when every id is hashable and every call answers |
| ApiLegacy.EqualIdsMerge | W3_OOP/api.py:238 | `client_ids = [1, True]` gives one entry, key `1` with the interests of `True` |
| ApiLegacy.UnhashableIdRaises | W3_OOP/api.py:238 | `client_ids = [[1]]` raises TypeError |
| ApiLegacy.GetInterests | W3_OOP/api.py:235-239 | the loop equals `InterestsOf`: the same dict, or the same exception |
| ApiLegacy.RaisesSticks | W3_OOP/api.py:237-238 | once an id raises, the whole call raises that exception |
| ApiLegacy.Handle | W3_OOP/api.py:304-336 | `method_handler` of this revision: spread, validate, authenticate, dispatch, `None` for an unknown method; stated by the lemmas below |
| ApiLegacy.MethodHandler | W3_OOP/api.py:304-336 | `method_handler` yields the specified outcome, context and field labels |
| ApiLegacy.ScoreBranch | W3_OOP/api.py:317-325 | bind and validate; with no errors record the non-empty arguments and score 43 for the admin, `get_score` otherwise; `OnlineScore` states it |
| ApiLegacy.OnlineScore | W3_OOP/api.py:317-325 | the online_score branch yields the specified outcome, context and labels |
| ApiLegacy.InterestsBranch | W3_OOP/api.py:328-336 | bind and validate; with no errors record `len(client_ids)` and answer `get_interests` or its exception; stated by `InterestsAnswered` |
| ApiLegacy.ClientsInterests | W3_OOP/api.py:328-336 | the method equals `InterestsBranch`: 422 on errors; otherwise `ctx["nclients"]` is set and the reply is the dict of `get_interests`, or its exception (TypeError for an unhashable id) |
| ApiLegacy.NeverForbidden | W3_OOP/api.py:304-336 | every answer has code 200 or 422; 403 never happens |
| ApiLegacy.BranchCodes | W3_OOP/api.py:317-336 | both method branches answer 200 or 422 |
| ApiLegacy.FreshRequestRaises | W3_OOP/api.py:204-217 | a first request that omits a method field raises AttributeError |
| ApiLegacy.UnknownMethodReturnsNone | W3_OOP/api.py:317-336 | a valid request with another method name falls off the end and returns `None` |
| ApiLegacy.IsAdmin | W3_OOP/api.py:284-287 | the login label equals `"admin"`; `LoginLabel` says that label is the passed login |
| ApiLegacy.LoginLabel | W3_OOP/api.py:284-287 | the login label `is_admin` reads is the passed login |
| ApiLegacy.AnyTokenScoresAdmin | W3_OOP/api.py:290-323 | a valid admin online_score request with a pair scores 43 whatever its token, and `ctx["has"]` lists the non-empty names |
| ApiLegacy.InterestsAnswered | W3_OOP/api.py:328-334 | a 200 answer recorded `len(client_ids)`, every id was hashable, and the reply has listed ids as keys, no two equal, each looking up the interests of the last id equal to it |
| ApiLegacy.LabelsPersist | W3_OOP/api.py:196-199 | a field the body does not name keeps the label of the previous request |
| ApiLegacy.HandleKeepsMain | W3_OOP/api.py:307 | after a request the method fields hold the labels that request bound |
| ScoreStore.Cache.constructor | W3_OOP/sample/store.py:16 | the class-level cache starts empty |
| ScoreStore.Stored | W3_OOP/sample/store.py:73-74 | `cache_set` stores `[score, now + timeout]` under the key, overwriting; every other key keeps its presence and its entry |
| ScoreStore.CachedScore | W3_OOP/sample/store.py:62-71 | what `cache_get` returns: nothing for an absent or expired key, the score for a live one |
| ScoreStore.AfterGet | W3_OOP/sample/store.py:62-71 | the dict after `cache_get`: only an expired entry for the key is deleted |
| ScoreStore.CacheGetSpec | W3_OOP/sample/store.py:62-71 | a score comes back exactly when the key is present and not expired; an absent key changes nothing; an expired entry is deleted; other entries stay |
| ScoreStore.SetThenGet | W3_OOP/sample/store.py:62-74 | after `cache_set(k, s, t)`, a get at any time up to set time + t returns s and changes nothing; later it returns None and deletes k |
| ScoreStore.SetKeepsOthers | W3_OOP/sample/store.py:73-74 | setting one key does not change what another key returns |
| ScoreStore.GetIdempotent | W3_OOP/sample/store.py:62-71 | a second get at the same time returns the same and changes nothing more |
| ScoreStore.FirstConnection | W3_OOP/sample/store.py:27-38 | the first connection within the attempts left, or none |
| ScoreStore.FirstConnectionSpec | W3_OOP/sample/store.py:27-38 | no connection exactly when every attempt fails; otherwise the first successful attempt's connection |
| ScoreStore.AttemptsMade | W3_OOP/sample/store.py:27-38 | at most `reconnect` attempts, stopping at the first success |
| ScoreStore.Store.constructor | W3_OOP/sample/store.py:18-25 | `__init__` stores every argument as given |
| ScoreStore.Store.Default | W3_OOP/sample/store.py:7-25 | default arguments give the module constants, the class-level cache and no connection |
| ScoreStore.Store.CacheSet | W3_OOP/sample/store.py:73-74 | the cache becomes the stored map |
| ScoreStore.Store.CacheGet | W3_OOP/sample/store.py:62-71 | returns the cached score and leaves the cache as specified |
| ScoreStore.Store.Connect | W3_OOP/sample/store.py:27-38 | returns the first successful connection within `reconnect` attempts and stores it |
| ScoreStore.DefaultStoresShareCache | W3_OOP/sample/store.py:16-24 | a score set through one default store is seen by another default store |
| LogAnalyzer.SearchFrom | W1_Log_Analyzer/log_analyzer.py:70 | the first position matching the mask and 8 digits |
| LogAnalyzer.LogDate | W1_Log_Analyzer/log_analyzer.py:63-71 | the date a name carries after the log mask, or none |
| LogAnalyzer.LogDateOfStandardName | W1_Log_Analyzer/log_analyzer.py:63-71 | `nginx-access-ui.log-YYYYMMDD...` has the date YYYYMMDD |
| LogAnalyzer.LogDateShape | W1_Log_Analyzer/log_analyzer.py:69-71 | only names starting with the mask have a date, and it has at most 8 digits |
| LogAnalyzer.NoDateExample | W1_Log_Analyzer/log_analyzer.py:70 | a name with a 4-digit date has none |
| LogAnalyzer.LastLog | W1_Log_Analyzer/log_analyzer.py:65-76 | `(last_log, last_log_date)` as the loop leaves them; stated by `LastLogSpec` and `NoCandidate` |
| LogAnalyzer.LastLogSpec | W1_Log_Analyzer/log_analyzer.py:65-76 | the chosen date is at least every file's date; none exactly when the date is 0; the chosen file is the first with the greatest date |
| LogAnalyzer.NoCandidate | W1_Log_Analyzer/log_analyzer.py:65-76 | with no dated file the result is `(None, 0)` |
| LogAnalyzer.FindLastLog | W1_Log_Analyzer/log_analyzer.py:50-76 | the loop computes the specified choice |
| LogAnalyzer.ParseLine | W1_Log_Analyzer/log_analyzer.py:100-103 | a line fails exactly when it has fewer than 7 fields |
| LogAnalyzer.TimeLog | W1_Log_Analyzer/log_analyzer.py:98-104 | the per-url times after reading the lines, or none once a line fails |
| LogAnalyzer.TimeLogFails | W1_Log_Analyzer/log_analyzer.py:99-104 | parsing fails exactly when some line is short |
| LogAnalyzer.TimeLogTimes | W1_Log_Analyzer/log_analyzer.py:98-104 | each url maps to the times of its lines in file order |
| LogAnalyzer.ParseLog | W1_Log_Analyzer/log_analyzer.py:79-107 | the loop builds exactly the specified dictionary |
| LogAnalyzer.Config.constructor | W1_Log_Analyzer/log_analyzer.py:21-27 | a config dictionary with the given entries |
| LogAnalyzer.Overlay | W1_Log_Analyzer/log_analyzer.py:34-36 | the dict after the loop: each `MAIN` option, upper-cased, set to its text; stated by the four lemmas below |
| LogAnalyzer.OverlayKeys | W1_Log_Analyzer/log_analyzer.py:34-36 | the keys after the overlay are the old keys plus the upper-cased file keys |
| LogAnalyzer.OverlayUntouched | W1_Log_Analyzer/log_analyzer.py:34-36 | a key the file does not set keeps its value |
| LogAnalyzer.OverlayLast | W1_Log_Analyzer/log_analyzer.py:35-36 | a key set in the file takes the file's last value for it |
| LogAnalyzer.OverlayKeepsDirs | W1_Log_Analyzer/log_analyzer.py:34-44 | the directory settings stay strings |
| LogAnalyzer.Settle | W1_Log_Analyzer/log_analyzer.py:38-47 | the settings tuple read back from the dict in evaluation order, or the error it raises |
| LogAnalyzer.DefaultsLoad | W1_Log_Analyzer/log_analyzer.py:21-45 | an empty MAIN section gives the defaults |
| LogAnalyzer.ReportSizeFromFile | W1_Log_Analyzer/log_analyzer.py:36-45 | a numeric `report_size` in the file becomes REPORT_SIZE as an int |
| LogAnalyzer.ReportSizeNotANumber | W1_Log_Analyzer/log_analyzer.py:40-47 | a non-numeric `report_size` raises ValueError |
| LogAnalyzer.ConfigResult | W1_Log_Analyzer/log_analyzer.py:30-47 | KeyError without a `MAIN` section, else the overlay settled into the settings; `ParseConfig` states it |
| LogAnalyzer.ParseConfig | W1_Log_Analyzer/log_analyzer.py:30-47 | the passed dictionary is overlaid in place and the settings are the specified ones |
| LogAnalyzer.ConfigFilesAsWritten | W1_Log_Analyzer/log_analyzer.py:246-256 | the names `read` tries: from the command line, the default file when `--config` is absent or empty, else the keys of the config dict; called directly, the argument |
| LogAnalyzer.CommandLineConfigIgnored | W1_Log_Analyzer/log_analyzer.py:246-249 | as written, `--config path` makes `main` read the config dictionary's keys as file names, never the path |
| LogAnalyzer.ConfigFiles | W1_Log_Analyzer/log_analyzer.py:246-256 | corrected: a non-empty `--config` names the file read, otherwise the default; stated by `ConfigFilesNamed` |
| LogAnalyzer.ConfigFilesNamed | W1_Log_Analyzer/log_analyzer.py:246-256 | corrected: the file read is the given path, or `log_analyzer.conf` without one |
| LogAnalyzer.ReportName | W1_Log_Analyzer/log_analyzer.py:276 | `report_<date>.html` |
| LogAnalyzer.ReportNameInjective | W1_Log_Analyzer/log_analyzer.py:276 | different dates give different report names |
| LogAnalyzer.Decide | W1_Log_Analyzer/log_analyzer.py:270-281 | no log, an existing report, or a report to build; stated by `DecideSpec` |
| LogAnalyzer.DecideSpec | W1_Log_Analyzer/log_analyzer.py:270-281 | a report is built exactly when a dated log exists and `report_<date>.html` is not already in the report directory |
| LogAnalyzer.AnalyzerMain | W1_Log_Analyzer/log_analyzer.py:238-281 | the defaults are overlaid in place, then the run is the decision on the loaded settings or the config error |
| HaskerVotes.Up | W7_Hasker/hasker/core_hasker/views.py:108-109 | a stored up-vote counts 1 |
| HaskerVotes.Down | W7_Hasker/hasker/core_hasker/views.py:110-111 | a stored down-vote counts 1 |
| HaskerVotes.CastVote | W7_Hasker/hasker/core_hasker/views.py:104-132 | a first vote is stored, the same vote removes it, the opposite vote replaces it; each counter moves by the change in its stored votes |
| HaskerVotes.RepeatRestores | W7_Hasker/hasker/core_hasker/views.py:107-121 | the same vote twice restores the record and both counters |
| HaskerVotes.FlipThenRepeatRemoves | W7_Hasker/hasker/core_hasker/views.py:114-132 | flipping a vote and repeating it removes the vote and its counts |
| HaskerVotes.VoteTable.constructor | W7_Hasker/hasker/core_hasker/models.py:44-50 | the vote table starts empty |
| HaskerVotes.FreshTargetCounted | W7_Hasker/hasker/core_hasker/models.py:16-17 | a target without votes has counters 0 and 0 |
| HaskerVotes.CountedNonNegative | W7_Hasker/hasker/core_hasker/models.py:16-17 | counters that match stored votes are never negative |
| HaskerVotes.CastKeepsCount | W7_Hasker/hasker/core_hasker/views.py:104-134 | a vote keeps the counters equal to the numbers of stored up- and down-votes |
| HaskerVotes.RecordKeepsOthers | W7_Hasker/hasker/core_hasker/models.py:49-50 | a vote on one target changes no other target's votes |
| HaskerVotes.Question.constructor | W7_Hasker/hasker/core_hasker/models.py:9-18 | a new question has zero counters and zero points |
| HaskerVotes.Question.Save | W7_Hasker/hasker/core_hasker/models.py:34-38 | `save` sets `total_points = positive_votes - negative_votes` and changes nothing else modelled |
| HaskerVotes.Answer.constructor | W7_Hasker/hasker/core_hasker/models.py:53-61 | a new answer is not correct and has zero counters and points |
| HaskerVotes.Answer.Save | W7_Hasker/hasker/core_hasker/models.py:63-65 | `save` sets `total_points = positive_votes - negative_votes` |
| HaskerVotes.IsUpvote | W7_Hasker/hasker/core_hasker/views.py:104 | an up-vote exactly when the form carries an `upvote` field |
| HaskerVotes.NextUrl | W7_Hasker/hasker/core_hasker/views.py:136 | the posted `next`, `''` when absent; `AfterVote` states the redirect |
| HaskerVotes.AfterVote | W7_Hasker/hasker/core_hasker/views.py:136-142 | redirect to `next` exactly when it is non-empty, otherwise to the question page |
| HaskerVotes.QuestionVotePost | W7_Hasker/hasker/core_hasker/views.py:96-142 | one's own question is refused with nothing changed; otherwise the vote machine moves the record and counters, saves the points and keeps the counting invariant |
| HaskerVotes.AnswerVotePost | W7_Hasker/hasker/core_hasker/views.py:150-192 | the same for answers, redirecting to the answer's question |
| HaskerQuestions.TagList | W7_Hasker/hasker/core_hasker/models.py:31-32 | `re.split(" ", tags)` gives at least one part and no part holds a space |
| HaskerQuestions.TagListRoundTrip | W7_Hasker/hasker/core_hasker/models.py:31-32 | joining the tag list with spaces gives back the tag string |
| HaskerQuestions.Insert | W7_Hasker/hasker/core_hasker/views.py:25 | inserting into an ordered listing keeps it ordered and adds exactly that row |
| HaskerQuestions.OrderBy | W7_Hasker/hasker/core_hasker/views.py:25-56 | `order_by` gives an ordered permutation of the rows |
| HaskerQuestions.Listing | W7_Hasker/hasker/core_hasker/views.py:24-25 | the question list, newest first, then most points; stated by `ListingSpec` |
| HaskerQuestions.ListingSpec | W7_Hasker/hasker/core_hasker/views.py:24-25 | the listing holds every question, newest first, ties by most points |
| HaskerQuestions.Matches | W7_Hasker/hasker/core_hasker/views.py:44-54 | a `tag:` query asks the tags for every token less its first four characters, any other the title or else the text for every token, ignoring case |
| HaskerQuestions.Filter | W7_Hasker/hasker/core_hasker/views.py:44-54 | a row is kept exactly when it is in the input and matches the query |
| HaskerQuestions.SearchAsWritten | W7_Hasker/hasker/core_hasker/views.py:37-56 | the search as written, reaching `reduce` with no tokens on a blank query |
| HaskerQuestions.BlankQueryRaises | W7_Hasker/hasker/core_hasker/views.py:41-53 | as written, a blank query makes `reduce` of an empty sequence raise TypeError |
| HaskerQuestions.SearchAgrees | W7_Hasker/hasker/core_hasker/views.py:37-56 | wherever the written search answers, the corrected one answers the same |
| HaskerQuestions.Search | W7_Hasker/hasker/core_hasker/views.py:37-56 | the corrected search; stated by `SearchSpec` and `SearchAgrees` |
| HaskerQuestions.SearchSpec | W7_Hasker/hasker/core_hasker/views.py:37-56 | results are newest first; an empty query keeps every question; `tag:` queries match all tokens less 4 characters in the tags, others all tokens in the title or all in the text |
| HaskerForms.CleanQuestionAsWritten | W7_Hasker/hasker/core_hasker/forms.py:18-22 | `clean` as written, reading the tags unconditionally |
| HaskerForms.EmptyTagsRaise | W7_Hasker/hasker/core_hasker/forms.py:18-19 | as written, a question whose tags field failed makes `clean` raise KeyError |
| HaskerForms.CleanQuestion | W7_Hasker/hasker/core_hasker/forms.py:18-22 | corrected `clean` never raises KeyError |
| HaskerForms.CleanQuestionSpec | W7_Hasker/hasker/core_hasker/forms.py:18-22 | refused exactly with more than 3 whitespace-separated tags, with that message; otherwise the data come back unchanged; it agrees with the written check whenever tags are present |
| HaskerForms.OneTagAccepted | W7_Hasker/hasker/core_hasker/forms.py:20 | one tag is within the limit |
| HaskerForms.CleanAnswer | W7_Hasker/hasker/core_hasker/forms.py:41-44 | refused exactly when the author already answered the question; otherwise the data come back unchanged |
| HaskerForms.OneAnswerPerAuthor | W7_Hasker/hasker/core_hasker/forms.py:41-44 | after an author's answer a second one is refused, while other authors are judged as before |
| HaskerAccounts.MyUser.constructor | W7_Hasker/hasker/accounts/models.py:47-56 | a new user is active and not an admin |
| HaskerAccounts.MyUser.IsStaff | W7_Hasker/hasker/accounts/models.py:79-83 | staff are exactly the admins |
| HaskerAccounts.MyUser.HasPerm | W7_Hasker/hasker/accounts/models.py:66-69 | True for every permission; stated by `PermissionsAlwaysGranted` |
| HaskerAccounts.MyUser.HasModulePerms | W7_Hasker/hasker/accounts/models.py:71-74 | True for every application; stated by `PermissionsAlwaysGranted` |
| HaskerAccounts.MyUser.Str | W7_Hasker/hasker/accounts/models.py:63-64 | the login; `CreateUser` states it for a new user |
| HaskerAccounts.CreateUserError | W7_Hasker/hasker/accounts/models.py:15-19 | ValueError exactly for an empty e-mail or login, the e-mail checked first |
| HaskerAccounts.CreateUser | W7_Hasker/hasker/accounts/models.py:10-29 | refuses as above; otherwise an active non-staff user with the normalised e-mail, hashed password and `__str__` equal to the login |
| HaskerAccounts.CreateSuperuser | W7_Hasker/hasker/accounts/models.py:31-44 | the same checks; the new user is an admin and so staff |
| HaskerAccounts.PermissionsAlwaysGranted | W7_Hasker/hasker/accounts/models.py:66-74 | every user holds every permission and sees every application |
| Httpd.ParsePath | W5_HTTP_Server/httpd.py:14-20 | `parse_path`: the root joined with every component of the request file, `index.html` for a directory |
| Httpd.ParsePathUnderRoot | W5_HTTP_Server/httpd.py:14-20 | an absolute request file with non-empty components lands at the document root followed by that file, nothing dropped |
| Httpd.DirectoryNameEndsInIndex | W5_HTTP_Server/httpd.py:16-18 | a path ending in `/` before `?` resolves to a name ending in `index.html` |
| Httpd.TraversalEscapesRoot | W5_HTTP_Server/httpd.py:19-20 | `/../name` resolves to `root/../name`, outside the document root |
| Httpd.ParsePathConfined | W5_HTTP_Server/httpd.py:14-20 | corrected: only plain components are joined onto the root; stated by `ConfinedUnderRoot` and `ConfinedAgrees` |
| Httpd.ConfinedUnderRoot | W5_HTTP_Server/httpd.py:14-20 | corrected: only plain components are joined, so the result never leaves the document root |
| Httpd.ConfinedAgrees | W5_HTTP_Server/httpd.py:14-20 | for an ordinary absolute request the corrected name is the written one |
| Httpd.RequestMethod | W5_HTTP_Server/httpd.py:68-76 | the first space-separated token of the request line |
| Httpd.RequestPath | W5_HTTP_Server/httpd.py:68-76 | the second token, `''` when there is none; both stated by the two lemmas below |
| Httpd.RequestLineParts | W5_HTTP_Server/httpd.py:68-76 | `METHOD PATH VERSION` gives back its method and path |
| Httpd.RequestLineWithoutSpace | W5_HTTP_Server/httpd.py:68-76 | a line without a space is all method, with path `''` |
| Httpd.Decide | W5_HTTP_Server/httpd.py:83-100 | GET and HEAD: 200 for a file, 403 for a missing `index.html`, 404 otherwise; 405 for every other method |
| Httpd.HeaderLines | W5_HTTP_Server/httpd.py:42-54 | the header chunks; the long version adds the length and the type |
| Httpd.Reply | W5_HTTP_Server/httpd.py:66-101 | every chunk written for a request; stated by the reply-shape lemmas below |
| Httpd.ErrorReplyShape | W5_HTTP_Server/httpd.py:42-100 | a refusal is its status line, Server, Date, `Connection: <value>` and a blank line |
| Httpd.OkReplyShape | W5_HTTP_Server/httpd.py:42-89 | a found file gets 200, Content-Length and Content-Type; GET adds the bytes, whose count is the announced length |
| Httpd.HeadOmitsBody | W5_HTTP_Server/httpd.py:83-89 | HEAD gets exactly what GET gets, less the body |
| Httpd.OtherMethodsNotAllowed | W5_HTTP_Server/httpd.py:98-100 | any method but GET and HEAD is answered 405 |
| Httpd.MissingIndexForbidden | W5_HTTP_Server/httpd.py:90-93 | GET or HEAD on a directory without `index.html` is answered 403 |
| Httpd.Writer.constructor | W5_HTTP_Server/httpd.py:57 | a writer starts empty and open |
| Httpd.Writer.Write | W5_HTTP_Server/httpd.py:85 | `write` appends one chunk |
| Httpd.Writer.Close | W5_HTTP_Server/httpd.py:101 | `close` closes and keeps what was written |
| Httpd.CreateHeaders | W5_HTTP_Server/httpd.py:41-54 | `create_headers` appends exactly the header chunks |
| Httpd.Response | W5_HTTP_Server/httpd.py:66-101 | the reply for the method and path of a request line; `HandleConnection` writes exactly it |
| Httpd.HandleConnection | W5_HTTP_Server/httpd.py:66-101 | the writer receives exactly the reply for the request line and is closed |
| AsyncChat.FormatFrom | W5_HTTP_Server/async_chat.py:34-45 | `fmt % arg` for one str argument: `%%` is a percent sign, one `%s` takes the argument, anything else raises, and so does an argument left over |
| AsyncChat.Format | W5_HTTP_Server/async_chat.py:34-45 | the formatting of a debug message; stated by the lemmas below |
| AsyncChat.NoDirectiveRaises | W5_HTTP_Server/async_chat.py:34 | `fmt % data` with a format without any `%` raises TypeError for every str, the empty one included |
| AsyncChat.OneDirectiveFormats | W5_HTTP_Server/async_chat.py:34 | a format with one `%s` after plain text puts the data after that text |
| AsyncChat.AsWrittenLogsRaise | W5_HTTP_Server/async_chat.py:33-46 | both debug messages as written raise for every data |
| AsyncChat.IntendedLogsFormat | W5_HTTP_Server/async_chat.py:33-46 | with `%s` added, both debug messages format |
| AsyncChat.EchoHandler.constructor | W5_HTTP_Server/async_chat.py:25-30 | the buffer starts empty; the two debug formats are fixed |
| AsyncChat.EchoHandler.CollectIncomingData | W5_HTTP_Server/async_chat.py:33-35 | formatting the debug message comes first; if it raises, nothing changes; otherwise the chunk is appended to the buffer and nothing is lost |
| AsyncChat.EchoHandler.FoundTerminator | W5_HTTP_Server/async_chat.py:38-40 | raises exactly when `send_data`'s debug message raises on the joined buffer, and then nothing is pushed and the buffer stays; otherwise the line and the terminator are pushed, the buffer empties, and nothing is lost |
| AsyncChat.EchoHandler.SendData | W5_HTTP_Server/async_chat.py:43-47 | formats the debug message on the joined buffer; if it raises, nothing is pushed and the buffer stays; otherwise the line and the terminator are pushed and the buffer empties |
| AsyncChat.EchoLine | W5_HTTP_Server/async_chat.py:33-46 | one line of str data on a fresh connection comes back with the terminator exactly when both debug messages format; otherwise nothing is pushed |
| AsyncChat.EchoLineAsWritten | W5_HTTP_Server/async_chat.py:33-46 | as written, no line of str data is ever echoed, because both debug messages raise |
| AsyncChat.EchoLineIntended | W5_HTTP_Server/async_chat.py:33-46 | with `%s` in the messages, every line of str data is echoed with the terminator; this holds only under the str-data simplification (the bytes/str line under Left out) |
| AsyncChat.Unqueried | W5_HTTP_Server/async_chat.py:251-252 | the path is cut at its first `?`, then its first `#` |
| AsyncChat.Kept | W5_HTTP_Server/async_chat.py:263-266 | only components that are not `.`, `..` or holding a directory part are kept |
| AsyncChat.Words | W5_HTTP_Server/async_chat.py:259-261 | the normalised path's components are non-empty and slash-free |
| AsyncChat.TranslatePath | W5_HTTP_Server/async_chat.py:242-270 | the loop computes the specified translated name |
| AsyncChat.Translated | W5_HTTP_Server/async_chat.py:242-270 | the file name for a request path; stated by `TranslatedUnderCwd` and `TrailingSlashKept` |
| AsyncChat.TranslatedUnderCwd | W5_HTTP_Server/async_chat.py:259-269 | the result is the cwd followed by plain components only, plus the trailing slash |
| AsyncChat.TrailingSlashKept | W5_HTTP_Server/async_chat.py:254-269 | the result ends in `/` exactly when the query-stripped path does |
| AsyncChat.ExtensionsMap | W5_HTTP_Server/async_chat.py:312-320 | the map holds the system types plus `''`, `.py`, `.c`, `.h`, with `''` the octet-stream default |
| AsyncChat.SplitExt | W5_HTTP_Server/async_chat.py:303 | `splitext` splits the path into base and an extension that is empty or a dot with no further dot or slash |
| AsyncChat.SplitExtOfName | W5_HTTP_Server/async_chat.py:303 | `dir/stem.ext` splits into `dir/stem` and `.ext` |
| AsyncChat.HiddenFileHasNoExtension | W5_HTTP_Server/async_chat.py:303 | `dir/.name` has no extension |
| AsyncChat.GuessType | W5_HTTP_Server/async_chat.py:288-310 | the exact extension, then its lower-case form, then the default; stated by the lemmas below |
| AsyncChat.SourcesArePlainText | W5_HTTP_Server/async_chat.py:304-319 | `.py`, `.c` and `.h` are `text/plain` |
| AsyncChat.UnknownIsOctetStream | W5_HTTP_Server/async_chat.py:306-310 | an unknown extension gets `application/octet-stream` |
| AsyncChat.UpperCaseFallsBack | W5_HTTP_Server/async_chat.py:306-308 | an extension unknown as written but known in lower case gets the lower-case type |
| AsyncChat.PythonFileIsText | W5_HTTP_Server/async_chat.py:303-317 | `dir/stem.py` is `text/plain` |

## Left out

- Threads, queues and the multiprocessing pool of `memc_load.py` (`do_work`, `main_multiprocessing`) are left out. So are the goroutines and channels of the Go loader (`digester`, `main_func`). Each file is counted sequentially in line order, and insert results come from a parameter. A worker thread that dies on a raising insert is modelled only by its effect: the file hangs in `join()`.
- The memcache client, protobuf serialisation, gzip, glob and `os.rename` are left out. Only the key, the connection attempts and the renamed path are modelled, plus the field-type checks of the `UserApps` assignments.
- `appsinstalled.proto` is not part of this model. Its field types (double coordinates, uint32 apps) are taken from the Go loader's generated type.
- MemcLoadGo: `bufio.Scanner` stops the scan at a line longer than its 64 KiB token limit. The model reads every line in full.
- Float parsing of lat/lon is a parameter. The Python record keeps the coordinate strings and marks whether they were converted.
- The error rate is integer arithmetic. `GateIsRate` proves it equal to the real-number comparison.
- `filepath.Abs` on the Go file name is left out, because it needs the process's working directory.
- The e-mail regex is a hand-written predicate over ASCII letters, digits and the listed punctuation.
- `str.isdigit`, `int()` (Text.PyInt), the `\d` of the log mask (LogAnalyzer.PatternChar) and `str.upper` in the config overlay are modelled for ASCII only. Python also accepts other Unicode decimal digits and upper-cases non-ASCII letters.
- Date parsing (`strptime`) and the current year are parameters of `DateField`/`BirthDayField`.
- `hashlib.sha512` and the hour-stamped admin code are parameters of `check_auth`. So are `get_score`/`get_interests`, whose scoring module is not part of this model.
- Python dict lookups on the request body take the first entry with the key, because the body is a list of pairs. `json.loads` keeps the last value of a duplicated key, so for a body with duplicate keys this lookup (`ApiRequest.Get`) disagrees with the source. It also disagrees with the binding of arguments (`ApiLegacy.Assigned`), where the last entry wins.
- ApiRequest.PairHidesFieldErrors: shows the hidden errors on one concrete request rather than for every request.
- The "Unknown error is in request" branch of `method_handler` is unreachable and has no lemma.
- `MainHTTPHandler.do_POST` (HTTP I/O) is left out. So is `W3_OOP/api_handler/store.py`.
- `Store.get` (MySQL queries) is left out. `reconnect` is a natural number, because a negative value would make `connect` retry until it succeeds.
- Time in the score cache is an integer parameter, not `time.time()`.
- `create_report`, `generate_html_report` and `generate_ts_file` of the log analyzer are left out: float statistics, templating and timestamps.
- Opening the log (gzip or plain), UTF-8 decoding and logging are left out. So are `os.listdir` errors. `listdir` and `isfile` are parameters.
- In Hasker, the Django ORM, redirects, `get_object_or_404`, pagination and URL routing are left out.
- `unique_slugify` is left out, so the slug is a constant of the question.
- The database's order among fully tied rows is modelled as a stable sort.
- `next_url is not ''` is read as a value comparison.
- `normalize_email` and password hashing are parameters.
- `user.save`, database uniqueness errors and `IntegrityError` are left out.
- The vote model's default value is not used, because the views always pass the value.
- The asyncio server, its read loop and the splitting of the request head are left out in `httpd.py`.
- E-mail header parsing is left out. The `Connection` header is a parameter, and when it is absent it prints as `None`.
- The date header text is a parameter.
- `pathname2url`, `mimetypes.guess_type`, `os.path.isfile`, `getsize` and file reading form one file-system parameter.
- `os.path.abspath` of the document root is left out. The root is taken as already absolute.
- `urllib.parse.unquote` is a parameter.
- The asynchat terminator splitting and the socket side of `push` are left out. Pushed data is recorded as a sequence, and one chunk per line is delivered.
- The bytes/str distinction of Python 3 is not modelled: the echo handler's data are str. Under Python 3 the socket delivers bytes while the terminator set at async_chat.py:23-30 stays the str `"\r\n"`, so asynchat's `handle_read` raises TypeError on `bytes.find(str)` before `collect_incoming_data` is ever called. No line is echoed then either, and adding `%s` to the debug messages alone would not change that. That asynchat step is not part of this model, so `AsyncChat.EchoLineIntended` holds for str data only.
- `str.lower` is ASCII only.
- The system MIME table is a parameter.
- `os.getcwd` is a parameter.
- The asyncore server classes and the dead `do_GET`/`send_head`/`list_directory` code are left out.

## Findings

| source | as written | input that shows it | evidently intended | confidence | as-written member | corrected member |
|---|---|---|---|---|---|---|
| W12_Concurrency/memc_load.py:83-85 | the fallback calls `a.isidigit()`, which does not exist | the line `idfa\tid\t1\t2\t7,x` raises AttributeError | keep the all-digit tokens | not executed | MemcLoad.ParseFallbackCounterexample | MemcLoad.ParseAppsInstalledFixed |
| W15_Go_MemcLoad_v2/memc_load_parallel.go:152-153 | `ln_errors += ln_errors` leaves a zero counter at zero | one good line and one malformed line give 0 errors | `ln_errors += 1` | not executed | MemcLoadGo.MalformedLineCounterexample | MemcLoadGo.TallyFixedConservation |
| W15_Go_MemcLoad_v2/memc_load_parallel.go:157-160 | `memc_addr == 0` compares an interface with int 0 and is never true | a record of an unknown device type reaches the insert with a nil client and panics | count it as an error | not executed | MemcLoadGo.UnknownTypeCounterexample | MemcLoadGo.TallyFixedConservation |
| W3_OOP/api_handler/api.py:260-271 | `validate` returns `None` when a pair is given | email `bad` with phone `7123` passes as valid | return the field errors | not executed | ApiRequest.PairHidesFieldErrors | ApiRequest.ScoreValidateFixedAccepts |
| W1_Log_Analyzer/log_analyzer.py:248-249 | `config_path = config` passes the config dictionary | `--config my.conf` never reads `my.conf` | `config_path = args.config` | not executed | LogAnalyzer.CommandLineConfigIgnored | LogAnalyzer.ConfigFilesNamed |
| W7_Hasker/hasker/core_hasker/views.py:41-53 | a blank query splits into no tokens and `reduce` gets an empty sequence | the query `" "` raises TypeError | keep every question | not executed | HaskerQuestions.BlankQueryRaises | HaskerQuestions.SearchSpec |
| W7_Hasker/hasker/core_hasker/forms.py:18-19 | `clean` reads `question_tags` unconditionally | an empty tags field raises KeyError | leave the field's own error | not executed | HaskerForms.EmptyTagsRaise | HaskerForms.CleanQuestionSpec |
| W5_HTTP_Server/httpd.py:19-20 | `..` components are joined onto the root | `GET /../secret.txt` serves a file above the document root | drop empty, `.` and `..` components | not executed | Httpd.TraversalEscapesRoot | Httpd.ConfinedUnderRoot |
| W5_HTTP_Server/async_chat.py:34-45 | the debug formats `"collect_incoming_data]"` and `"sending]"` have no directive, so on str data `% data` raises TypeError before the append and before the push | with str data, the line `hi` followed by `\r\n` is never echoed | the formats carry `%s`, and with str data the line comes back; under Python 3 the bytes/str terminator mismatch in asynchat stops the echo earlier, which this model leaves out | not executed; holds for str data only | AsyncChat.EchoLineAsWritten | AsyncChat.EchoLineIntended |
