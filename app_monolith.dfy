/**
 * The single-file Flask application `app.py`, which predates the package
 * and keeps its own copies of the validators, the database helpers and
 * the scan job. Its validators have the same bodies as the package's, so
 * they are reused from `Validators`; everything else differs and is
 * modelled here: the job runs in a thread on the request's own parameters,
 * `results` is always written through `json.dumps`, progress is pushed over
 * Socket.IO while masscan runs, and errors are answered differently.
 */
module Monolith {
  import opened Wrappers
  import opened Text
  import opened Clock
  import opened Validators
  import opened Exceptions
  import opened ScanModel
  import opened ScanTasks
  import opened Web
  import opened ScanRoutes

  // ---------------------------------------------------------------------
  // save_scan_to_db / get_scan_from_db

  /**
   * The values `save_scan_to_db` binds: `json.dumps(scan_data.get('results'))`
   * always writes a JSON text, `"null"` when there are no results.
   */
  function AppEncodeRow(rec: ScanRecord): (row: Row)
    ensures row.scanId == rec.scanId && row.startTime == rec.startTime && row.status == rec.status
    ensures row.results.JsonText?
  {
    Row(rec.scanId, rec.status, rec.ipRange, rec.ports, rec.rate, rec.startTime, rec.endTime,
        JsonText(rec.results), rec.error)
  }

  /**
   * `get_scan_from_db` after `save_scan_to_db` gives back exactly what was
   * saved, an empty result list included, and leaves every other scan alone.
   */
  lemma AppSaveLoadRoundTrip(rows: map<string, Row>, rec: ScanRecord, other: string)
    ensures Load(UpsertRow(rows, AppEncodeRow(rec)), rec.scanId) == Some(rec)
    ensures other != rec.scanId ==> Load(UpsertRow(rows, AppEncodeRow(rec)), other) == Load(rows, other)
  {
  }

  /**
   * Where the two front ends part: a record whose result list is empty is
   * read back as `[]` after the monolith saved it, but as `None` after the
   * package's `Scan.save`, which skips falsy results.
   */
  lemma EmptyResultsSurviveOnlyHere(rows: map<string, Row>, rec: ScanRecord)
    requires rec.results == Some([])
    ensures Load(UpsertRow(rows, AppEncodeRow(rec)), rec.scanId).value.results == Some([])
    ensures Load(UpsertRow(rows, EncodeRow(rec)), rec.scanId).value.results == None
  {
    AppSaveLoadRoundTrip(rows, rec, rec.scanId);
    SaveLoadRoundTrip(rows, rec);
  }

  // ---------------------------------------------------------------------
  // run_masscan in its thread

  /**
   * `scan_data` as `run_masscan` first builds it, `startNow` being the clock
   * reading it takes: already `running`, never `starting`, with no end
   * time, results or error yet.
   */
  function RunningRecord(scanId: string, ipRange: string, ports: string, rate: int, startNow: DateTime): (rec: ScanRecord)
    requires startNow.Valid()
    ensures rec.status == Running && rec.startTime != ""
    ensures rec.endTime.None? && rec.results.None? && rec.error.None?
  {
    ScanRecord(scanId, Running, ipRange, ports, rate, IsoFormat(startNow), None, None, None)
  }

  /**
   * `scan_data` after the `try`/`except` of `run_masscan`: `completed` with
   * masscan's results, or `error` with `str(e)`; `endNow` is the reading
   * taken for `end_time`.
   */
  function AppFinished(running: ScanRecord, outcome: ProcessOutcome, path: string, endNow: DateTime): (r: ScanRecord)
    requires endNow.Valid()
    ensures r.scanId == running.scanId && r.startTime == running.startTime
    ensures r.status == Completed || r.status == Error
  {
    match Failure(outcome, path)
    case None => running.(status := Completed, results := Some(outcome.output.results), endTime := Some(IsoFormat(endNow)))
    case Some(message) => running.(status := Error, error := Some(message), endTime := Some(IsoFormat(endNow)))
  }

  /** The record the monolith's job leaves for the scan it was given. */
  function AppFinalRecord(scanId: string, ipRange: string, ports: string, rate: int, outcome: ProcessOutcome,
                          startNow: DateTime, endNow: DateTime): ScanRecord
    requires startNow.Valid() && endNow.Valid()
  {
    AppFinished(RunningRecord(scanId, ipRange, ports, rate, startNow), outcome, TempPath(scanId), endNow)
  }

  /**
   * The job ends `completed` exactly when masscan exits with 0 and its
   * output parses, and then carries exactly masscan's results, an empty
   * list included, and no error. Otherwise it ends `error` with the text of
   * the exception caught, even an empty one, and no results. Either way the
   * end time is stamped and the parameters are the request's.
   */
  lemma AppOutcomeIff(scanId: string, ipRange: string, ports: string, rate: int, outcome: ProcessOutcome,
                      startNow: DateTime, endNow: DateTime)
    requires startNow.Valid() && endNow.Valid()
    ensures var r := AppFinalRecord(scanId, ipRange, ports, rate, outcome, startNow, endNow);
      (r.status == Completed <==> outcome.Exited? && outcome.returnCode == 0 && outcome.output.Parsed?)
      && (r.status == Error <==> !(outcome.Exited? && outcome.returnCode == 0 && outcome.output.Parsed?))
      && (r.status == Completed ==> r.results == Some(outcome.output.results) && r.error == None)
      && (r.status == Error ==> r.error == Failure(outcome, TempPath(scanId)) && r.results == None)
      && r.endTime == Some(IsoFormat(endNow)) && r.startTime == IsoFormat(startNow)
      && r.scanId == scanId && r.ipRange == ipRange && r.ports == ports && r.rate == rate
  {
  }

  /** `n` copies of the same effect. */
  function Repeat(effect: Effect, n: nat): (effects: seq<Effect>)
    ensures |effects| == n && forall i :: 0 <= i < n ==> effects[i] == effect
  {
    if n == 0 then [] else Repeat(effect, n - 1) + [effect]
  }

  /** The save and the announcement of the running record, before masscan is started. */
  function StartEffects(running: ScanRecord): seq<Effect> {
    [Wrote(AppEncodeRow(running)), Emitted(Progress(running.scanId, Running))]
  }

  /**
   * masscan being started, unless that fails, and one more announcement
   * for each of the `ticks` polls that find it still running.
   */
  function LaunchEffects(scanId: string, ipRange: string, ports: string, rate: int, outcome: ProcessOutcome,
                         ticks: nat): seq<Effect> {
    if outcome.LaunchFailed? then []
    else [Spawned(Command(ipRange, ports, rate, scanId))] + Repeat(Emitted(Progress(scanId, Running)), ticks)
  }

  /** The `finally` block: save the final record, announce its status and error, remove the output file. */
  function FinishEffects(final: ScanRecord): seq<Effect> {
    [Wrote(AppEncodeRow(final)), Emitted(Outcome(final.scanId, final.status, final.error)), CleanedUp(TempPath(final.scanId))]
  }

  /** The effects of `run_masscan(scan_id, ip_range, ports, rate)`, in order. */
  function AppRunEffects(scanId: string, ipRange: string, ports: string, rate: int, outcome: ProcessOutcome,
                         ticks: nat, startNow: DateTime, endNow: DateTime): seq<Effect>
    requires startNow.Valid() && endNow.Valid()
  {
    StartEffects(RunningRecord(scanId, ipRange, ports, rate, startNow))
    + LaunchEffects(scanId, ipRange, ports, rate, outcome, ticks)
    + FinishEffects(AppFinalRecord(scanId, ipRange, ports, rate, outcome, startNow, endNow))
  }

  /**
   * The `while True` loop of `run_masscan`: each poll that finds masscan
   * still running sleeps a second and announces `running` again; `ticks`
   * is how many polls that happens on.
   */
  method MonitorProgress(before: seq<Effect>, scanId: string, ticks: nat) returns (effects: seq<Effect>)
    ensures effects == before + Repeat(Emitted(Progress(scanId, Running)), ticks)
  {
    effects := before;
    var polls := 0;
    while polls < ticks
      invariant 0 <= polls <= ticks
      invariant effects == before + Repeat(Emitted(Progress(scanId, Running)), polls)
    {
      effects := effects + [Emitted(Progress(scanId, Running))];
      polls := polls + 1;
    }
  }

  /** `run_masscan(scan_id, ip_range, ports, rate)` as the thread runs it. */
  method AppRunMasscan(db: ScanTable, tmp: TempDir, scanId: string, ipRange: string, ports: string, rate: int,
                       outcome: ProcessOutcome, ticks: nat, startNow: DateTime, endNow: DateTime, removeFails: bool)
    returns (effects: seq<Effect>)
    requires db.Valid() && startNow.Valid() && endNow.Valid()
    modifies db, tmp
    ensures db.Valid()
    ensures db.rows == UpsertRow(old(db.rows), AppEncodeRow(AppFinalRecord(scanId, ipRange, ports, rate, outcome, startNow, endNow)))
    ensures effects == AppRunEffects(scanId, ipRange, ports, rate, outcome, ticks, startNow, endNow)
    ensures db.log == old(db.log) + Writes(effects)
    ensures tmp.files == (old(tmp.files) + (if outcome.Exited? && !outcome.output.Missing? then {TempPath(scanId)} else {}))
                         - (if removeFails then {} else {TempPath(scanId)})
  {
    var path := TempPath(scanId);
    var running := RunningRecord(scanId, ipRange, ports, rate, startNow);
    ghost var rows := db.rows;
    ghost var log := db.log;
    db.Upsert(AppEncodeRow(running));
    var launched: seq<Effect> := [];
    if !outcome.LaunchFailed? {
      var argv := Command(ipRange, ports, rate, scanId);
      launched := MonitorProgress([Spawned(argv)], scanId, ticks);
      if !outcome.output.Missing? {
        tmp.Create(path);
      }
    }
    var final := AppFinished(running, outcome, path, endNow);
    db.Upsert(AppEncodeRow(final));
    LastSaveWins(rows, AppEncodeRow(running), AppEncodeRow(final));
    assert db.log == log + [AppEncodeRow(running), AppEncodeRow(final)];
    effects := StartEffects(running) + launched + FinishEffects(final);
    assert launched == LaunchEffects(scanId, ipRange, ports, rate, outcome, ticks);
    LaunchWritesNothing(scanId, ipRange, ports, rate, outcome, ticks);
    RunWrites(running, launched, final);
    CleanupTempFiles(tmp, scanId, removeFails);
  }

  /** The number of `Outcome` announcements among some effects. */
  function OutcomeCount(effects: seq<Effect>): nat {
    if effects == [] then 0
    else (if effects[0].Emitted? && effects[0].event.Outcome? then 1 else 0) + OutcomeCount(effects[1..])
  }

  /** The number of `Progress` announcements among some effects. */
  function ProgressCount(effects: seq<Effect>): nat {
    if effects == [] then 0
    else (if effects[0].Emitted? && effects[0].event.Progress? then 1 else 0) + ProgressCount(effects[1..])
  }

  lemma {:induction false} CountsAppend(a: seq<Effect>, b: seq<Effect>)
    ensures OutcomeCount(a + b) == OutcomeCount(a) + OutcomeCount(b)
    ensures ProgressCount(a + b) == ProgressCount(a) + ProgressCount(b)
    decreases |a|
  {
    if a == [] {
      assert a + b == b;
    } else {
      assert (a + b)[0] == a[0];
      assert (a + b)[1..] == a[1..] + b;
      CountsAppend(a[1..], b);
    }
  }

  lemma {:induction false} RepeatedProgress(scanId: string, n: nat)
    ensures OutcomeCount(Repeat(Emitted(Progress(scanId, Running)), n)) == 0
    ensures ProgressCount(Repeat(Emitted(Progress(scanId, Running)), n)) == n
  {
    if n > 0 {
      var e := Emitted(Progress(scanId, Running));
      RepeatedProgress(scanId, n - 1);
      CountsAppend(Repeat(e, n - 1), [e]);
      assert [e][1..] == [];
    }
  }

  /**
   * Every run announces its outcome exactly once, after its last write and
   * before the cleanup, and announces `running` once before masscan starts
   * plus once per poll that found masscan still running.
   */
  lemma AppRunAnnouncements(scanId: string, ipRange: string, ports: string, rate: int, outcome: ProcessOutcome,
                            ticks: nat, startNow: DateTime, endNow: DateTime)
    requires startNow.Valid() && endNow.Valid()
    ensures var effects := AppRunEffects(scanId, ipRange, ports, rate, outcome, ticks, startNow, endNow);
      var final := AppFinalRecord(scanId, ipRange, ports, rate, outcome, startNow, endNow);
      OutcomeCount(effects) == 1
      && ProgressCount(effects) == (if outcome.LaunchFailed? then 1 else 1 + ticks)
      && |effects| >= 5
      && effects[|effects| - 3] == Wrote(AppEncodeRow(final))
      && effects[|effects| - 2] == Emitted(Outcome(scanId, final.status, final.error))
      && effects[|effects| - 1] == CleanedUp(TempPath(scanId))
  {
    var running := RunningRecord(scanId, ipRange, ports, rate, startNow);
    var final := AppFinalRecord(scanId, ipRange, ports, rate, outcome, startNow, endNow);
    var head := StartEffects(running);
    var middle := LaunchEffects(scanId, ipRange, ports, rate, outcome, ticks);
    var tail := FinishEffects(final);
    CountsAppend(head + middle, tail);
    CountsAppend(head, middle);
    StartCounts(running);
    FinishCounts(final);
    LaunchCounts(scanId, ipRange, ports, rate, outcome, ticks);
  }

  /**
   * The monolith's job stores exactly two records: the `running` one first,
   * then the terminal one. It never stores `starting`.
   */
  lemma AppRunWrites(scanId: string, ipRange: string, ports: string, rate: int, outcome: ProcessOutcome,
                     ticks: nat, startNow: DateTime, endNow: DateTime)
    requires startNow.Valid() && endNow.Valid()
    ensures var writes := Writes(AppRunEffects(scanId, ipRange, ports, rate, outcome, ticks, startNow, endNow));
      var running := RunningRecord(scanId, ipRange, ports, rate, startNow);
      var final := AppFinalRecord(scanId, ipRange, ports, rate, outcome, startNow, endNow);
      writes == [AppEncodeRow(running), AppEncodeRow(final)]
      && writes[0].status == Running && IsTerminal(writes[1].status)
      && forall r :: r in writes ==> r.status != Starting
  {
    LaunchWritesNothing(scanId, ipRange, ports, rate, outcome, ticks);
    RunWrites(RunningRecord(scanId, ipRange, ports, rate, startNow),
              LaunchEffects(scanId, ipRange, ports, rate, outcome, ticks),
              AppFinalRecord(scanId, ipRange, ports, rate, outcome, startNow, endNow));
  }

  /** Between the first and the last save nothing else is stored, so those two are all the writes. */
  lemma RunWrites(running: ScanRecord, middle: seq<Effect>, final: ScanRecord)
    requires Writes(middle) == []
    ensures Writes(StartEffects(running) + middle + FinishEffects(final))
            == [AppEncodeRow(running), AppEncodeRow(final)]
  {
    var head := StartEffects(running);
    var tail := FinishEffects(final);
    WritesAppend(head + middle, tail);
    WritesAppend(head, middle);
    assert Writes(head) == [AppEncodeRow(running)] by {
      assert head[1..][1..] == [];
    }
    assert Writes(tail) == [AppEncodeRow(final)] by {
      var rest := tail[1..];
      assert rest[1..] == [CleanedUp(TempPath(final.scanId))];
      assert rest[1..][1..] == [];
      assert Writes(rest[1..]) == [];
      assert Writes(rest) == [];
    }
  }

  /** Starting masscan and polling it store nothing. */
  lemma LaunchWritesNothing(scanId: string, ipRange: string, ports: string, rate: int, outcome: ProcessOutcome,
                            ticks: nat)
    ensures Writes(LaunchEffects(scanId, ipRange, ports, rate, outcome, ticks)) == []
  {
    if !outcome.LaunchFailed? {
      var spawn := [Spawned(Command(ipRange, ports, rate, scanId))];
      WritesAppend(spawn, Repeat(Emitted(Progress(scanId, Running)), ticks));
      RepeatedWritesNothing(Emitted(Progress(scanId, Running)), ticks);
      assert spawn[1..] == [];
    }
  }

  /** Repeating an effect that is not a write stores nothing. */
  lemma {:induction false} RepeatedWritesNothing(effect: Effect, n: nat)
    requires !effect.Wrote?
    ensures Writes(Repeat(effect, n)) == []
  {
    if n > 0 {
      RepeatedWritesNothing(effect, n - 1);
      WritesAppend(Repeat(effect, n - 1), [effect]);
      assert [effect][1..] == [];
    }
  }

  lemma StartCounts(running: ScanRecord)
    ensures OutcomeCount(StartEffects(running)) == 0 && ProgressCount(StartEffects(running)) == 1
  {
    var head := StartEffects(running);
    var rest := head[1..];
    assert rest == [Emitted(Progress(running.scanId, Running))];
    assert rest[1..] == [];
    assert OutcomeCount(rest) == 0 && ProgressCount(rest) == 1;
  }

  lemma FinishCounts(final: ScanRecord)
    ensures OutcomeCount(FinishEffects(final)) == 1 && ProgressCount(FinishEffects(final)) == 0
  {
    var tail := FinishEffects(final);
    var last := [CleanedUp(TempPath(final.scanId))];
    assert tail[1..] == [Emitted(Outcome(final.scanId, final.status, final.error))] + last;
    assert last[1..] == [];
    assert OutcomeCount(last) == 0 && ProgressCount(last) == 0;
    assert (tail[1..])[1..] == last;
  }

  lemma LaunchCounts(scanId: string, ipRange: string, ports: string, rate: int, outcome: ProcessOutcome, ticks: nat)
    ensures OutcomeCount(LaunchEffects(scanId, ipRange, ports, rate, outcome, ticks)) == 0
    ensures ProgressCount(LaunchEffects(scanId, ipRange, ports, rate, outcome, ticks))
      == (if outcome.LaunchFailed? then 0 else ticks)
  {
    if !outcome.LaunchFailed? {
      var spawn := [Spawned(Command(ipRange, ports, rate, scanId))];
      CountsAppend(spawn, Repeat(Emitted(Progress(scanId, Running)), ticks));
      RepeatedProgress(scanId, ticks);
      assert spawn[1..] == [];
    }
  }

  /**
   * After the job, the monolith's `scan_status` reads back the final
   * record exactly, whatever masscan did.
   */
  lemma AppStatusAfterRun(rows: map<string, Row>, scanId: string, ipRange: string, ports: string, rate: int,
                          outcome: ProcessOutcome, startNow: DateTime, endNow: DateTime)
    requires startNow.Valid() && endNow.Valid()
    ensures var final := AppFinalRecord(scanId, ipRange, ports, rate, outcome, startNow, endNow);
      Load(UpsertRow(rows, AppEncodeRow(final)), scanId) == Some(final) && IsTerminal(final.status)
  {
    var final := AppFinalRecord(scanId, ipRange, ports, rate, outcome, startNow, endNow);
    AppSaveLoadRoundTrip(rows, final, scanId);
  }

  // ---------------------------------------------------------------------
  // The routes

  /** A scan handed to `threading.Thread(target=run_masscan, ...)`. */
  datatype Job = Job(scanId: string, ipRange: string, ports: string, rate: int)

  /** The threads `start_scan` has started, in order. */
  class Threads {
    var started: seq<Job>

    constructor ()
      ensures started == []
    {
      started := [];
    }

    /** `threading.Thread(target=run_masscan, args=...).start()`. */
    method Start(job: Job)
      modifies this
      ensures started == old(started) + [job]
    {
      started := started + [job];
    }
  }

  /** Everything the monolith's `start_scan` checks before it starts the thread. */
  function AppAdmit(data: Option<Json>): Result<ScanRequest, Raised> {
    if NoData(data) then Err(ValueError(NoJsonMessage))
    else
      match ReadRequest(data.value)
      case Err(e) => Err(e)
      case Ok(req) =>
        match ValidateScanInput(req.ipRange, req.ports, IntRate(req.rate))
        case Some(message) => Err(ValueError(message))
        case None => Ok(req)
  }

  const BadRequestStatus: int := 400
  const InternalErrorStatus: int := 500
  const InternalErrorMessage: string := "Internal server error"

  /** The two `except` clauses of `start_scan`: a `ValueError` is shown, anything else is hidden. */
  function AppRejection(e: Raised): (resp: Response)
    ensures e.ValueError? ==> resp == Response(ErrorBody(e.text), BadRequestStatus)
    ensures !e.ValueError? ==> resp == Response(ErrorBody(InternalErrorMessage), InternalErrorStatus)
  {
    if e.ValueError? then Response(ErrorBody(e.text), BadRequestStatus)
    else Response(ErrorBody(InternalErrorMessage), InternalErrorStatus)
  }

  /**
   * Both front ends admit exactly the same requests with the same
   * parameters. They answer a rejection alike when it is a validation
   * failure; a `rate` that `int()` cannot read is a 400 here and a 500 in
   * the package, with the same text; any other fault is a 500 in both, but
   * only the package shows its text.
   */
  lemma AdmissionAgrees(data: Option<Json>)
    ensures AppAdmit(data).Ok? <==> Admit(data).Ok?
    ensures AppAdmit(data).Ok? ==> AppAdmit(data).value == Admit(data).value
    ensures Admit(data).Err? && Admit(data).error.App? ==>
      AppRejection(AppAdmit(data).error) == HandleError(Admit(data).error)
    ensures Admit(data).Err? && Admit(data).error.ValueError? ==>
      AppRejection(AppAdmit(data).error).status == BadRequestStatus
      && HandleError(Admit(data).error).status == InternalErrorStatus
      && AppRejection(AppAdmit(data).error).body == HandleError(Admit(data).error).body
    ensures Admit(data).Err? && (Admit(data).error.TypeError? || Admit(data).error.AttributeError?) ==>
      AppRejection(AppAdmit(data).error) == Response(ErrorBody(InternalErrorMessage), InternalErrorStatus)
      && HandleError(Admit(data).error).status == InternalErrorStatus
  {
  }

  /** `POST /start_scan` of the monolith; `idTime` is the reading that names the scan. */
  method AppStartScan(threads: Threads, data: Option<Json>, idTime: DateTime) returns (resp: Response)
    requires idTime.Valid()
    modifies threads
    ensures AppAdmit(data).Err? ==>
      resp == AppRejection(AppAdmit(data).error) && threads.started == old(threads.started)
    ensures AppAdmit(data).Ok? ==>
      var req := AppAdmit(data).value;
      threads.started == old(threads.started) + [Job(ScanIdOf(idTime), req.ipRange, req.ports, req.rate)]
      && resp == Response(Started(ScanIdOf(idTime), StartedMessage), OkStatus)
  {
    var admitted := AppAdmit(data);
    if admitted.Err? {
      resp := AppRejection(admitted.error);
    } else {
      var req := admitted.value;
      var scanId := ScanIdOf(idTime);
      threads.Start(Job(scanId, req.ipRange, req.ports, req.rate));
      resp := Response(Started(scanId, StartedMessage), OkStatus);
    }
  }

  const AppNotFoundMessage: string := "Scan not found"

  /** `GET /scan_status/<scan_id>` of the monolith. */
  method AppScanStatus(db: ScanTable, scanId: string) returns (resp: Response)
    ensures Load(db.rows, scanId).None? ==> resp == Response(ErrorBody(AppNotFoundMessage), NotFoundStatus)
    ensures Load(db.rows, scanId).Some? ==> resp == Response(RecordBody(Load(db.rows, scanId).value), OkStatus)
  {
    var found := Load(db.rows, scanId);
    if found.None? {
      resp := Response(ErrorBody(AppNotFoundMessage), NotFoundStatus);
    } else {
      resp := Response(RecordBody(found.value), OkStatus);
    }
  }

  /** The four columns the monolith's `recent_scans` selects. */
  function SummaryOf(rec: ScanRecord): Summary {
    Summary(rec.scanId, rec.status, rec.ipRange, rec.startTime)
  }

  /** The ids a listing of summaries names. */
  function SummaryIds(lines: seq<Summary>): set<string> {
    set line | line in lines :: line.scanId
  }

  /** `GET /recent_scans` of the monolith: the ten newest scans, newest first, as summaries. */
  method AppRecentScans(db: ScanTable) returns (resp: Response)
    requires db.Valid()
    ensures resp.status == OkStatus && resp.body.SummaryList?
    ensures var lines := resp.body.summaries;
      |lines| == (if |db.rows.Keys| < RecentLimit then |db.rows.Keys| else RecentLimit)
      && (forall i :: 0 <= i < |lines| ==>
            lines[i].scanId in db.rows && SummaryOf(DecodeRow(db.rows[lines[i].scanId])) == lines[i])
      && (forall i, j :: 0 <= i < j < |lines| ==> lines[i].scanId != lines[j].scanId)
      && (forall i, j :: 0 <= i < j < |lines| ==> LexLe(lines[j].startTime, lines[i].startTime))
      && (forall scanId, i :: scanId in db.rows && scanId !in SummaryIds(lines) && 0 <= i < |lines| ==>
            LexLe(db.rows[scanId].startTime, lines[i].startTime))
  {
    var scans := db.GetRecent(RecentLimit);
    var lines := seq(|scans|, i requires 0 <= i < |scans| => SummaryOf(scans[i]));
    assert SummaryIds(lines) == IdsOf(scans) by {
      forall id | id in IdsOf(scans)
        ensures id in SummaryIds(lines)
      {
        var k :| 0 <= k < |scans| && scans[k].scanId == id;
        assert lines[k] in lines;
      }
    }
    resp := Response(SummaryList(lines), OkStatus);
  }
}
