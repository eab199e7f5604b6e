# masscan-web scan lifecycle, in Dafny

A model of the core of masscan-web, a web front end for the `masscan`
port scanner. It covers what happens to a scan request from submission to
its final record. The request is validated: the IP-range spec, the port
spec and the packet rate. An accepted scan is stored in the `scans` table
and handed to a background job. The job runs masscan and records the
outcome. The HTTP routes answer with the scan's id, its status, or the
most recent scans.

Two front ends are modelled. The first is the package `masscan_web`
(Flask blueprint, `Scan` model over SQLite, dramatiq job). The second is
the older single-file `app.py` (in-line SQLite helpers, a thread per scan,
Socket.IO progress events).

Modules, one per part of the program:

- `Wrappers`: `Option` and `Result`.
- `Text`: the Python string built-ins the code relies on. These are
  `str.strip`, `str.split`, `int()` on text, `str()` of an integer, and
  text ordering as SQLite's `ORDER BY` uses it.
- `Clock`: a `datetime.now()` reading, its `isoformat()` and its
  `strftime('%Y%m%d_%H%M%S')`. The reading is always a parameter.
- `Validators`: `masscan_web/utils/validators.py`. Its regular expression
  is modelled as an explicit matcher and proved equal to a piece-wise
  description.
- `Exceptions`: `masscan_web/utils/exceptions.py`, plus the built-in
  exceptions a handler can meet.
- `ScanModel`: `masscan_web/models/scan.py`.
  - The `scans` table is the class `ScanTable`, whose field is a map from
    `scan_id` to rows.
  - The `Scan` object is the class `Scan`, whose methods update its fields
    and save it.
  - Pure functions on records state what a save, a load and an
    `update_status` do.
- `ScanTasks`: `masscan_web/tasks/scan_tasks.py`. Its inputs are the
  masscan process's outcome, the clock reading and whether a file removal
  fails. It returns its side effects as an ordered list.
- `Web`: the JSON request body, how the handlers read it, and the JSON
  responses.
- `ScanRoutes`: `masscan_web/routes/scan_routes.py`. The dramatiq queue is
  the class `TaskQueue`.
- `Monolith`: `app.py`. Its `validate_ip_range` and `validate_ports` have
  the same bodies as the package's (without the docstrings and type
  hints), so `Validators` serves both front ends.

## Model

| member | source | states |
|---|---|---|
| Text.Strip | masscan_web/utils/validators.py:13 | `str.strip()`: the result neither starts nor ends with whitespace and is never longer than the input (with `LStrip`/`RStrip`: only whitespace is removed, from the two ends) |
| Text.LStrip | masscan_web/utils/validators.py:23 | the removed prefix is all whitespace and the result is the rest of the text, starting with a non-space |
| Text.RStrip | masscan_web/utils/validators.py:23 | the removed suffix is all whitespace and the result is the start of the text, ending with a non-space |
| Text.StripNoop | masscan_web/utils/validators.py:23 | stripping text that neither starts nor ends with whitespace changes nothing |
| Text.StripAllSpace | masscan_web/utils/validators.py:23 | text made only of whitespace strips to the empty string |
| Text.Split | masscan_web/utils/validators.py:12 | `str.split(sep)`: at least one piece, no piece contains the separator, and there is exactly one piece iff the separator does not occur |
| Text.JoinSplit | masscan_web/utils/validators.py:22 | joining the pieces of a split with the separator gives back the original text |
| Text.SplitJoin | masscan_web/utils/validators.py:22 | splitting a join of separator-free pieces gives back the pieces |
| Text.SplitNoSep | masscan_web/utils/validators.py:12 | text without the separator splits into itself alone |
| Text.SplitPrefix | masscan_web/utils/validators.py:25 | a first separator-free piece followed by the separator splits off as the first piece |
| Text.SplitTrailingSep | masscan_web/utils/validators.py:22 | a trailing separator adds exactly one empty last piece |
| Text.NatToString | masscan_web/tasks/scan_tasks.py:31 | `str(n)` of a natural number is a non-empty run of digits, of at most 1, 2 or 3 digits below 10, 100, 1000 |
| Text.NatToStringValue | masscan_web/tasks/scan_tasks.py:31 | the digits `str(n)` prints have the value `n` |
| Text.IntToString | masscan_web/tasks/scan_tasks.py:31 | `str(n)` of any integer starts with a minus sign iff `n` is negative, and the rest is digits |
| Text.ParseInt | masscan_web/utils/validators.py:25-29 | the definition of `int(s)` on text: optional surrounding whitespace, an optional sign and ASCII digits, else `None` for `ValueError`. Its properties are `ParseIntToString`, `ParseNegativeDigits` and `ParseIntRejectsNoDigits` |
| Text.ParseIntToString | masscan_web/tasks/scan_tasks.py:31 | `int(str(n)) == n` for every integer, negative ones included |
| Text.ParseNegativeDigits | masscan_web/utils/validators.py:29 | `int('-' + digits)` is minus the value of the digits |
| Text.ParseIntRejectsNoDigits | masscan_web/utils/validators.py:29 | `int()` of text without any digit raises (`None`), so `''`, `'-'` and `'http'` are never ports |
| Text.LexLeRefl | masscan_web/models/scan.py:104 | the text order that `ORDER BY start_time` uses is reflexive |
| Text.LexLeTotal | masscan_web/models/scan.py:104 | any two texts are comparable |
| Text.LexLeTrans | masscan_web/models/scan.py:104 | the order is transitive |
| Clock.IsoFormat | masscan_web/models/scan.py:22 | `isoformat()` is 19 characters when the microseconds are zero and 26 otherwise, so never empty |
| Clock.ScanIdOf | masscan_web/routes/scan_routes.py:40 | `strftime('%Y%m%d_%H%M%S')` is always 15 characters |
| Clock.PadValue | masscan_web/routes/scan_routes.py:40 | a zero-padded field reads back as the number it pads |
| Clock.ScanIdSameIffSameSecond | masscan_web/routes/scan_routes.py:40 | two readings give the same scan id exactly when they fall in the same second |
| Validators.DigitRun | masscan_web/utils/validators.py:10 | the length of the leading run of `\d`: all digits up to it, a non-digit right after |
| Validators.MatchesIpPattern | masscan_web/utils/validators.py:10-14 | the definition of the anchored `re.match(ip_pattern, ·)`, scanning left to right with the `\d{1,3}` backtracking of `DigitRun`. Its properties are `MatchesIpPatternIffShape`, `MatchedHasNoComma` and `MatchedIsStripped` |
| Validators.ValidateIpRange | masscan_web/utils/validators.py:5-14 | the definition of `validate_ip_range`: with a comma, every stripped piece matches; without one, the text itself matches. Its properties are the `IpListAcceptedIff`, `DottedQuadAccepted`, `IpRangeTrailingCommaRejected` and `IpRangeUnstrippedRejected` lemmas |
| Validators.MatchesIpPatternIffShape | masscan_web/utils/validators.py:10 | the anchored match of `^(\d{1,3}\.){3}\d{1,3}(/\d{1,2})?$` accepts exactly four dot-separated groups of 1-3 digits, with an optional `/` and 1-2 digits after the last |
| Validators.DottedQuadAccepted | masscan_web/utils/validators.py:10 | every dotted quad with at most three digits per number and a prefix of at most two is accepted, so octets above 255 and prefixes above 32 pass |
| Validators.MatchedHasNoComma | masscan_web/utils/validators.py:11 | a matching element contains no comma |
| Validators.MatchedIsStripped | masscan_web/utils/validators.py:13 | a matching element has no surrounding whitespace |
| Validators.IpListAcceptedIff | masscan_web/utils/validators.py:11-13 | a comma-joined list of two or more elements is accepted iff every stripped element matches |
| Validators.IpRangeTrailingCommaRejected | masscan_web/utils/validators.py:11-13 | a trailing comma leaves an empty element, which never matches, so the whole spec is rejected |
| Validators.IpRangeUnstrippedRejected | masscan_web/utils/validators.py:14 | without a comma the spec is matched unstripped, so a leading or trailing space rejects it |
| Validators.ValidatePorts | masscan_web/utils/validators.py:16-34 | `validate_ports`: the text splits into at least one piece, and the result is the conjunction over the stripped pieces |
| Validators.PortPieceOk | masscan_web/utils/validators.py:23-34 | the definition of one loop iteration: a piece with a dash unpacks into exactly two integers `a <= b` in 0..65535; otherwise it is one integer in that range; a `ValueError` rejects it. Its properties are `SinglePortIff`, `PortRangeIff`, `NegativePortRejected`, `TwoDashesRejected` and `EmptyPieceRejected` |
| Validators.SinglePortIff | masscan_web/utils/validators.py:29-31 | a single decimal port is accepted iff it is at most 65535, so `70000` is rejected |
| Validators.PortRangeIff | masscan_web/utils/validators.py:24-27 | `a-b` is accepted iff `a <= b <= 65535`, so `80-70` is rejected |
| Validators.NegativePortRejected | masscan_web/utils/validators.py:24-34 | `-5` splits at the dash into an empty start, `int('')` raises, and the piece is rejected without raising |
| Validators.TwoDashesRejected | masscan_web/utils/validators.py:25-34 | `1-2-3` does not unpack into two values and is rejected without raising |
| Validators.EmptyPieceRejected | masscan_web/utils/validators.py:29-34 | an empty piece is never a port |
| Validators.PortListAcceptedIff | masscan_web/utils/validators.py:22-32 | a comma-joined list is accepted iff every stripped piece is a valid port or range |
| Validators.PortsTrailingCommaRejected | masscan_web/utils/validators.py:22-34 | `80,` leaves an empty last piece and is rejected |
| Validators.EmptyPortsRejected | masscan_web/utils/validators.py:22-34 | the empty port spec is rejected |
| Validators.RateTextAgreesWithInt | masscan_web/utils/validators.py:36-45 | a rate given as the text of an integer is judged like that integer |
| Validators.ValidateScanRate | masscan_web/utils/validators.py:36-45 | the definition of `validate_scan_rate`: `int(rate)` lies in 100..100000, and a failing `int()` is False. Its property is `RateTextAgreesWithInt` |
| Validators.ValidateScanInput | masscan_web/utils/validators.py:47-62 | the guard chain returns normally iff all four checks pass; otherwise the message names the first failing check, in the order required fields, IP range, ports, rate in 100..100000 |
| Validators.InvertedRangeReported | masscan_web/utils/validators.py:58-59 | once the IP range has passed, an inverted port range is reported as a port error whatever the rate |
| Validators.SinglePieceList | masscan_web/utils/validators.py:22-32 | a comma-free, stripped port spec is judged as one piece |
| Exceptions.MasscanWebException | masscan_web/utils/exceptions.py:1-5 | the base exception keeps its message and the given status code, and a call that leaves the code out gets 500 |
| Exceptions.ScanError | masscan_web/utils/exceptions.py:7-9 | `ScanError` calls the base constructor without a code and so inherits status 500 |
| Exceptions.ValidationError | masscan_web/utils/exceptions.py:11-14 | `ValidationError` always has status 400 |
| Exceptions.ResourceNotFoundError | masscan_web/utils/exceptions.py:16-19 | `ResourceNotFoundError` always has status 404 |
| Exceptions.RateLimitExceededError | masscan_web/utils/exceptions.py:21-24 | status 429, with the message "Rate limit exceeded" unless one is given |
| Exceptions.StatusCodeOf | masscan_web/routes/scan_routes.py:15 | `getattr(e, 'status_code', 500)`: the application's own status code, else 500 |
| ScanModel.StatusTextInjective | masscan_web/models/scan.py:6-10 | the four status constants are stored as four different texts |
| ScanModel.EncodeRow | masscan_web/models/scan.py:63-79 | the row `save` writes has the scan's key and start time |
| ScanModel.DecodeRow | masscan_web/models/scan.py:85-96 | the scan `get_by_id` builds has the row's key and start time |
| ScanModel.UpsertRow | masscan_web/models/scan.py:65-79 | the definition of `INSERT OR REPLACE` on the table contents. Its properties are `SaveIsUpsert` and `LastSaveWins` |
| ScanModel.Load | masscan_web/models/scan.py:81-97 | the definition of `get_by_id` on the table contents. Its properties are `SaveLoadRoundTrip` and `LoadUnknown` |
| ScanModel.SaveLoadRoundTrip | masscan_web/models/scan.py:63-97 | `save` then `get_by_id` gives the saved fields back, except that empty results come back as `None`; nothing else is changed |
| ScanModel.SaveIsUpsert | masscan_web/models/scan.py:66 | a save adds its own key and leaves every other scan as it was |
| ScanModel.LastSaveWins | masscan_web/models/scan.py:66 | of two saves under one key, the later replaces the earlier outright |
| ScanModel.LoadUnknown | masscan_web/models/scan.py:82-97 | `get_by_id` of an id never saved is `None` |
| ScanModel.StartTimeOr | masscan_web/models/scan.py:22 | `start_time or now`: never empty, and a given non-empty start time is kept |
| ScanModel.NewRecord | masscan_web/routes/scan_routes.py:41-46 | the definition of the record `Scan(scan_id, ip_range, ports, rate)` holds, its other arguments at the defaults of masscan_web/models/scan.py:13-22. Its property is `NewScanDefaults` |
| ScanModel.NewScanDefaults | masscan_web/models/scan.py:13-25 | a new scan is `starting`, started now, with no end time, results or error |
| ScanModel.Updated | masscan_web/models/scan.py:119-128 | the definition of `update_status` on a record. Its properties are `UpdateStampsEndTime`, `UpdateOverwritesOnlyTruthy`, `UpdateKeepsIdentity`, `NonTerminalKeepsEndTime` and `EndTimeOfLastTerminal` |
| ScanModel.UpdateStampsEndTime | masscan_web/models/scan.py:121-127 | the status is set, and `end_time` is stamped iff the new status is `completed` or `error` |
| ScanModel.UpdateOverwritesOnlyTruthy | masscan_web/models/scan.py:122-125 | `error` and `results` change only for a truthy argument; `None`, `""` and `[]` keep the previous value |
| ScanModel.UpdateKeepsIdentity | masscan_web/models/scan.py:119-128 | an update never changes the id, the parameters or the start time |
| ScanModel.NonTerminalKeepsEndTime | masscan_web/models/scan.py:126-127 | a run of updates that are all non-terminal keeps the end time |
| ScanModel.EndTimeOfLastTerminal | masscan_web/models/scan.py:126-127 | after any run of updates, the end time is the clock reading of the last terminal update |
| ScanModel.LatestExists | masscan_web/models/scan.py:104 | every non-empty set of stored scans has one that started no earlier than the others |
| ScanModel.ScanTable.constructor | masscan_web/models/scan.py:34-48 | `init_db` on a new database gives an empty table with nothing written yet |
| ScanModel.ScanTable.Upsert | masscan_web/models/scan.py:65-79 | `INSERT OR REPLACE`: the table maps the row's key to the row, every other key as before, and the row is appended to the log of writes |
| ScanModel.ScanTable.GetById | masscan_web/models/scan.py:81-97 | `None` iff the id is not stored; otherwise a new `Scan` whose `to_dict()` is the stored record |
| ScanModel.ScanTable.GetRecent | masscan_web/models/scan.py:99-117 | `min(limit, count)` records (all of them for a negative limit), each stored, each id once, newest `start_time` first, and no record left out is newer than one listed |
| ScanModel.ListingStep | masscan_web/models/scan.py:102-106 | appending the newest unlisted record keeps the listing newest-first |
| ScanModel.Scan.ToDict | masscan_web/models/scan.py:50-61 | `to_dict()` carries the object's id, status and start time |
| ScanModel.Scan.constructor | masscan_web/models/scan.py:13-25 | the new object holds its arguments, with `start_time or now` |
| ScanModel.Scan.Save | masscan_web/models/scan.py:63-79 | the table gets the object's row, encoded as `save` binds it, as exactly one more write |
| ScanModel.Scan.UpdateStatus | masscan_web/models/scan.py:119-128 | the object's fields become `Updated(...)` of the old ones, and the table holds them after exactly one more write |
| ScanModel.UpdateIsPersisted | masscan_web/models/scan.py:119-128 | after `update_status`, `get_by_id` reads back the updated record (empty results as `None`) |
| ScanTasks.TempPathInjective | masscan_web/tasks/scan_tasks.py:26 | different scans never share an output file |
| ScanTasks.TempPath | masscan_web/tasks/scan_tasks.py:26 | `f'/tmp/masscan_{scan_id}.json'` is exactly the prefix, the id and the suffix long; `TempPathInjective` states that it is one-to-one |
| ScanTasks.Command | masscan_web/tasks/scan_tasks.py:27-34 | the argument vector has 11 entries with the targets, ports, rate text and output path in place |
| ScanTasks.CommandCarriesScan | masscan_web/tasks/scan_tasks.py:27-34 | masscan gets the stored scan's targets and ports, a rate that reads back as the stored integer, and the scan's own output file |
| ScanTasks.FinalRecord | masscan_web/tasks/scan_tasks.py:36-61 | the definition of the record a run of a loaded scan ends with. Its properties are `FinalIsTerminal`, `CompletedIff`, `ErrorTexts` and `CompletedResults` |
| ScanTasks.Failure | masscan_web/tasks/scan_tasks.py:46-58 | `str(e)` of the exception the job catches; there is none exactly when masscan exits 0 and its output parses. `ErrorTexts` gives each text |
| ScanTasks.Finished | masscan_web/tasks/scan_tasks.py:46-61 | the terminal `update_status` call: the status is `completed` or `error`, and the end time is stamped with the reading taken |
| ScanTasks.FinalIsTerminal | masscan_web/tasks/scan_tasks.py:19-61 | every run of a loaded scan ends in a terminal status, with the end time stamped and the parameters unchanged |
| ScanTasks.CompletedIff | masscan_web/tasks/scan_tasks.py:46-55 | the scan completes iff masscan exits 0 and its output parses; otherwise it ends in `error` |
| ScanTasks.ErrorTexts | masscan_web/tasks/scan_tasks.py:52-61 | the error is "Masscan error: " + stderr, "Error reading scan results: " + the read error, or the launch failure's text, which is kept only when non-empty |
| ScanTasks.CompletedResults | masscan_web/tasks/scan_tasks.py:50 | a completed scan has masscan's results; an empty list keeps the previous results |
| ScanTasks.Writes | masscan_web/tasks/scan_tasks.py:19-63 | the writes among a job's effects: never more than the effects, and every write is one of them |
| ScanTasks.WritesAppend | masscan_web/tasks/scan_tasks.py:19-63 | the writes of two stretches of effects are those of the first, then those of the second, so `Writes` keeps the order of the saves |
| ScanTasks.TempDir.Create | masscan_web/tasks/scan_tasks.py:33 | masscan writing its output adds that file |
| ScanTasks.CleanupTempFiles | masscan_web/tasks/scan_tasks.py:65-72 | the scan's file is gone afterwards unless its removal fails, and a failing removal raises nothing |
| ScanTasks.RunMasscan | masscan_web/tasks/scan_tasks.py:13-63 | the table and the effect list after the job are `RunStore` and `RunEffects` of the table before (no spawn when `Popen` raises); the rows the job actually writes, in order, are the `Wrote` effects of that list; the output file is removed unless removal fails |
| ScanTasks.RecordOutcome | masscan_web/tasks/scan_tasks.py:46-61 | the scan becomes `Finished(...)` of the running scan, and the table holds it after exactly one more write |
| ScanTasks.RunEffects | masscan_web/tasks/scan_tasks.py:19-63 | the definition of the effects of `run_masscan`. Its properties are `UnknownScanUntouched` and `StoredScanLifecycle` |
| ScanTasks.RunStore | masscan_web/tasks/scan_tasks.py:19-61 | the definition of the table after `run_masscan`: unchanged for an unknown scan, else the final record upserted. Its properties are `UnknownScanUntouched` and `StoredScanLifecycle` |
| ScanTasks.RunWritesOf | masscan_web/tasks/scan_tasks.py:36-61 | a run of a stored scan writes the `running` record, then the terminal record, and nothing else |
| ScanTasks.UnknownScanUntouched | masscan_web/tasks/scan_tasks.py:20-63 | a scan that was never stored is neither written nor run; only the cleanup happens |
| ScanTasks.StoredScanLifecycle | masscan_web/tasks/scan_tasks.py:36-63 | a stored scan is written exactly twice: the `running` record before masscan starts, then the terminal record. masscan is spawned, with the stored parameters, iff `Popen` does not raise. Cleanup comes last, and `get_by_id` then reads the terminal record |
| Web.GetStripped | masscan_web/routes/scan_routes.py:34-35 | `data.get(key, '').strip()`: `""` when absent, the stripped text for a string, `AttributeError` otherwise |
| Web.GetRate | masscan_web/routes/scan_routes.py:36 | `int(data.get('rate', 1000))`: 1000 when absent, the integer as given, `int()` of a text or a `ValueError` |
| Web.NoData | masscan_web/routes/scan_routes.py:30-32 | the definition of `not data` for what `request.get_json()` returned: no body, or a falsy one. Its property is `ObjectWithKeyTruthy` |
| Web.ReadRequest | masscan_web/routes/scan_routes.py:34-36 | the definition of the three reads, `ip_range`, then `ports`, then `rate`, the first failing one raising; a body that is not an object has no `get`. Its properties are `ReadWellTypedBody`, `ReadTextRateBody` and `ReadStringFields` |
| Web.ReadWellTypedBody | masscan_web/routes/scan_routes.py:34-36 | a body with string fields and an integer rate reads as the stripped texts and the rate |
| Web.ReadTextRateBody | masscan_web/routes/scan_routes.py:36 | a rate sent as text is read through `int()`, and unreadable text raises `ValueError` |
| Web.ObjectWithKeyTruthy | masscan_web/routes/scan_routes.py:31 | a body object with a key passes the `not data` check |
| ScanRoutes.HandleError | masscan_web/routes/scan_routes.py:13-16 | the response is `{'error': str(e)}` with the exception's status code, 500 if it has none |
| ScanRoutes.Admit | masscan_web/routes/scan_routes.py:29-38 | the definition of the admission part of `start_scan`. Its properties are `AdmitIff`, `InvalidInputIs400`, `NonIntegerRateIs500` and `MissingRateDefaults` |
| ScanRoutes.AdmitIff | masscan_web/routes/scan_routes.py:29-38 | a request is admitted iff its body is truthy, its fields read cleanly and `validate_scan_input` passes; the admitted parameters are the ones read |
| ScanRoutes.RejectionStatus | masscan_web/routes/scan_routes.py:13-16 | a rejection is answered 400 iff a `ValidationError` was raised, and 500 otherwise |
| ScanRoutes.InvalidInputIs400 | masscan_web/routes/scan_routes.py:38-58 | a well-typed body failing validation is answered 400 with the validation message |
| ScanRoutes.NonIntegerRateIs500 | masscan_web/routes/scan_routes.py:36-58 | a rate `int()` cannot read raises `ValueError`, which has no status code, so the answer is 500 |
| ScanRoutes.MissingRateDefaults | masscan_web/routes/scan_routes.py:36 | a body without `rate` is read with rate 1000 |
| ScanRoutes.TaskQueue.Send | masscan_web/routes/scan_routes.py:50 | `run_masscan.send(scan_id)` appends one message |
| ScanRoutes.StartScan | masscan_web/routes/scan_routes.py:23-58 | on rejection nothing is written or enqueued. On admission exactly one write stores a `starting` record under the second-resolution id, the id is enqueued once, and the answer is 202 |
| ScanRoutes.SameSecondSubmissionsCollide | masscan_web/routes/scan_routes.py:40-47 | two submissions in the same second share an id and the later record replaces the earlier; in different seconds both are kept |
| ScanRoutes.ScanStatus | masscan_web/routes/scan_routes.py:60-69 | an unknown id is answered 404 "Scan {id} not found"; a known one with its stored record |
| ScanRoutes.RecentScans | masscan_web/routes/scan_routes.py:71-78 | at most 10 stored records, each id once, newest first, none left out newer than one listed |
| Monolith.AppEncodeRow | app.py:75-95 | `save_scan_to_db` always writes the results through `json.dumps` |
| Monolith.AppSaveLoadRoundTrip | app.py:75-117 | `save_scan_to_db` then `get_scan_from_db` gives back exactly what was saved, `None` and `[]` results included, and other scans are unchanged |
| Monolith.EmptyResultsSurviveOnlyHere | app.py:90-111 | an empty result list is read back as `[]` after this front end saves it, and as `None` after the package's `save` |
| Monolith.RunningRecord | app.py:152-159 | the first record the job builds is already `running`, never `starting`, with a non-empty start time and no end time, results or error |
| Monolith.AppFinished | app.py:192-213 | `scan_data` after the `try`/`except`: the same id and start time, and the status `completed` or `error` |
| Monolith.AppFinalRecord | app.py:150-213 | the definition of the record the monolith's job ends with. Its property is `AppOutcomeIff` |
| Monolith.AppOutcomeIff | app.py:192-213 | the job ends `completed` iff masscan exits 0 and the output parses, then with exactly masscan's results and no error. Otherwise it ends `error` with the caught exception's text and no results. The end time is always stamped |
| Monolith.MonitorProgress | app.py:181-188 | the polling loop adds one `running` announcement per poll that finds masscan still running |
| Monolith.AppRunEffects | app.py:150-221 | the definition of the effects of the monolith's job: running record saved and announced, masscan started unless `Popen` raises, then polls, final save, outcome announcement and cleanup. Its property is `AppRunAnnouncements` |
| Monolith.AppRunMasscan | app.py:150-221 | the table holds the final record, the effects are `AppRunEffects` (running record saved and announced, masscan started unless that fails, polls, final save, outcome announcement, cleanup), the rows actually written are the `Wrote` effects in order, and the output file is removed unless removal fails |
| Monolith.AppRunAnnouncements | app.py:172-221 | every run announces its outcome exactly once, after the final save and before the cleanup, and announces `running` once plus once per poll |
| Monolith.AppRunWrites | app.py:152-215 | the monolith's job writes exactly two records: first `running`, then the terminal one. It never stores `starting` |
| Monolith.RunWrites | app.py:171-215 | when nothing between the first and the last save writes, those two saves are all the writes |
| Monolith.LaunchWritesNothing | app.py:174-188 | starting masscan and polling it write nothing |
| Monolith.AppStatusAfterRun | app.py:214-274 | after the job, `scan_status` reads back the terminal final record exactly |
| Monolith.Threads.Start | app.py:253 | starting a thread appends one job |
| Monolith.AppAdmit | app.py:229-249 | the definition of the admission part of the monolith's `start_scan`, raising `ValueError` where the package raises `ValidationError`. Its property is `AdmissionAgrees` |
| Monolith.AppRejection | app.py:261-266 | a `ValueError` is answered 400 with its text; anything else 500 "Internal server error" |
| Monolith.AdmissionAgrees | app.py:229-266 | both front ends admit the same requests with the same parameters. Validation failures are answered alike. An unreadable rate is 400 here but 500 in the package. Other faults are 500 in both, with the text hidden here |
| Monolith.AppStartScan | app.py:227-266 | on rejection nothing is started. On admission one thread is started for the second-resolution id with the request's parameters, nothing is written, and the answer is 200 |
| Monolith.AppScanStatus | app.py:268-277 | an unknown id is answered 404 "Scan not found"; a known one with its stored record |
| Monolith.SummaryOf | app.py:284-294 | the definition of the four columns `recent_scans` selects and returns per row. Its property is `AppRecentScans` |
| Monolith.AppRecentScans | app.py:279-298 | at most 10 summaries of stored scans, each id once, newest first, and no stored scan left out is newer than one listed: the ten newest |

## Left out

- Flask, CORS, the request limiter, logging and the security headers are
  not modelled. Neither is `static/js/script.js`. The log lines carry no
  state.
- The masscan process, the output file and `json.load` are parameters: a
  launch failure, or an exit code with stderr text and an output file
  that is missing, unreadable or parsed. `stdout` is never used.
  `stderr.decode()` failing on non-UTF-8 bytes is not modelled; stderr is
  taken as text.
- `datetime.now()` is a parameter. `start_scan` reads the clock twice,
  once for the id and once for the start time, and both readings are
  parameters.
- Threads and the dramatiq/Redis broker: a queued job and a started thread
  are entries in a list. Concurrent jobs and how they interleave are not
  modelled, and neither is at-most-once execution.
- Socket.IO: the package's event handlers in
  `masscan_web/socket_handlers/scan_events.py` are not part of this model.
  The monolith's `scan_update` events are entries in its effect list. The
  one-second `time.sleep` between polls is not modelled; the number of
  polls that found masscan still running is a parameter.
- `cleanup_old_scans`: the `?` sits inside the quoted literal `'-? days'`,
  so sqlite3 rejects the call and the swallowed error means nothing is
  ever deleted. It is not modelled as a retention rule.
- Python parsing corners: the regular expression's `$` also matches
  before a final newline. `\d` and `int()` also accept non-ASCII digits,
  and `int()` accepts underscores between digits. Digits are ASCII here,
  and `int()` is optional whitespace, an optional sign and ASCII digits.
- Store failures are not modelled: a failing save, a failing `get_by_id`,
  and the `UnboundLocalError` the package job raises when `get_by_id`
  itself fails.
- JSON numbers are integers: a float `rate` and float values inside the
  results are not modelled.
- Web.GetRate: the text of the `ValueError` for an unreadable rate prints
  the text as given, not with `repr` escaping.
- Errors from `request.get_json()` itself are not modelled. For a
  malformed body, werkzeug raises an exception with `code`, not
  `status_code`.
- ScanModel.Load: it does not apply `start_time or now` to a row with an
  empty start time, as `get_by_id` does through the constructor, because it
  has no clock. No writer stores such a row, and `ScanTable.GetById`
  applies it. So `SaveLoadRoundTrip` states a record with an empty start
  time coming back empty, where the source would stamp the current time.
- SQLite's order among rows with equal `start_time` is not fixed: the
  model allows any order.
- Status is a datatype of the four `ScanStatus` constants, the only values
  the code ever passes. Status texts outside these four are not modelled.
- `app.py`'s `validate_ip_range` and `validate_ports` (app.py:119-140) have
  the same bodies as the package's, so they are modelled once, by
  `Validators.ValidateIpRange` and `Validators.ValidatePorts`. The
  agreement is by construction rather than a separate lemma.
