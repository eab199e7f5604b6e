/**
 * The background job `run_masscan(scan_id)` and its helper
 * `cleanup_temp_files`. The job loads a stored scan, marks it running,
 * runs masscan, and records the outcome.
 *
 * The masscan process and the output file it leaves are not run here.
 * Their outcome is a parameter: the process either fails to start, or it
 * exits with a return code and stderr text, leaving an output file that is
 * missing, unreadable, or parsed into results. The clock reading and the
 * failure of a file removal are parameters too. The job's side effects are
 * returned in order, as a list of effects.
 */
module ScanTasks {
  import opened Wrappers
  import opened Text
  import opened Clock
  import opened ScanModel

  const TempPrefix: string := "/tmp/masscan_"
  const TempSuffix: string := ".json"

  /** `f'/tmp/masscan_{scan_id}.json'`, where masscan writes its JSON output. */
  function TempPath(scanId: string): (path: string)
    ensures |path| == |TempPrefix| + |scanId| + |TempSuffix|
  {
    TempPrefix + scanId + TempSuffix
  }

  /** Every scan has its own output file: different ids never share a path. */
  lemma TempPathInjective(a: string, b: string)
    ensures TempPath(a) == TempPath(b) <==> a == b
  {
    if TempPath(a) == TempPath(b) {
      var n := |TempPrefix|;
      assert TempPath(a)[n..n + |a|] == a;
      assert TempPath(b)[n..n + |b|] == b;
    }
  }

  const Sudo: string := "sudo"
  const Masscan: string := "masscan"
  const PortsFlag: string := "-p"
  const RateFlag: string := "--rate"
  const FormatFlag: string := "--output-format"
  const JsonFormat: string := "json"
  const OutputFlag: string := "--output"

  /** The argument vector handed to `subprocess.Popen`. */
  function Command(ipRange: string, ports: string, rate: int, scanId: string): (argv: seq<string>)
    ensures |argv| == 11
    ensures argv[2] == ipRange && argv[4] == ports && argv[6] == IntToString(rate) && argv[10] == TempPath(scanId)
  {
    [Sudo, Masscan, ipRange, PortsFlag, ports, RateFlag, IntToString(rate),
     FormatFlag, JsonFormat, OutputFlag, TempPath(scanId)]
  }

  /**
   * masscan receives the stored scan's own parameters: its targets after
   * `masscan`, its ports after `-p`, a rate that reads back as the stored
   * integer after `--rate`, and the scan's temporary file after `--output`.
   */
  lemma CommandCarriesScan(rec: ScanRecord)
    ensures var argv := Command(rec.ipRange, rec.ports, rec.rate, rec.scanId);
      argv[2] == rec.ipRange && argv[4] == rec.ports
      && ParseInt(argv[6]) == Some(rec.rate) && argv[10] == TempPath(rec.scanId)
  {
    ParseIntToString(rec.rate);
  }

  // ---------------------------------------------------------------------
  // The process outcome

  /** What `open(temp_file)` and `json.load` make of masscan's output file. */
  datatype OutputFile = Missing | Unreadable(reason: string) | Parsed(results: Results)

  /** What happened to the masscan process. */
  datatype ProcessOutcome =
    | LaunchFailed(reason: string)
    | Exited(returnCode: int, stderr: string, output: OutputFile)

  /** `str()` of the `FileNotFoundError` that opening a missing file raises. */
  function NoSuchFile(path: string): string {
    "[Errno 2] No such file or directory: '" + path + "'"
  }

  const ReadErrorPrefix: string := "Error reading scan results: "
  const MasscanErrorPrefix: string := "Masscan error: "

  /** `str(e)` of the exception the job catches, or `None` when the scan completes. */
  function Failure(outcome: ProcessOutcome, path: string): (failure: Option<string>)
    ensures failure.None? <==> outcome.Exited? && outcome.returnCode == 0 && outcome.output.Parsed?
  {
    match outcome
    case LaunchFailed(reason) => Some(reason)
    case Exited(code, stderr, output) =>
      if code != 0 then Some(MasscanErrorPrefix + stderr)
      else
        match output
        case Parsed(_) => None
        case Missing => Some(ReadErrorPrefix + NoSuchFile(path))
        case Unreadable(reason) => Some(ReadErrorPrefix + reason)
  }

  /** The terminal update `run_masscan` applies to the running record once masscan is done. */
  function Finished(running: ScanRecord, outcome: ProcessOutcome, path: string, now: DateTime): (r: ScanRecord)
    requires now.Valid()
    ensures r.status == Completed || r.status == Error
    ensures r.endTime == Some(IsoFormat(now))
  {
    match Failure(outcome, path)
    case None => Updated(running, Completed, None, Some(outcome.output.results), now)
    case Some(message) => Updated(running, Error, Some(message), None, now)
  }

  /** The record as `run_masscan` leaves it, for the record `rec` it loaded. */
  function FinalRecord(rec: ScanRecord, outcome: ProcessOutcome, now: DateTime): ScanRecord
    requires now.Valid()
  {
    Finished(Updated(rec, Running, None, None, now), outcome, TempPath(rec.scanId), now)
  }

  /**
   * Every run of a loaded scan ends in exactly one terminal status, stamped
   * with the end time, and leaves the scan's identity and parameters alone.
   */
  lemma FinalIsTerminal(rec: ScanRecord, outcome: ProcessOutcome, now: DateTime)
    requires now.Valid()
    ensures var r := FinalRecord(rec, outcome, now);
      IsTerminal(r.status) && r.endTime == Some(IsoFormat(now))
      && r.scanId == rec.scanId && r.ipRange == rec.ipRange && r.ports == rec.ports
      && r.rate == rec.rate && r.startTime == rec.startTime
  {
  }

  /** A scan completes exactly when masscan exits with 0 and its output parses. */
  lemma CompletedIff(rec: ScanRecord, outcome: ProcessOutcome, now: DateTime)
    requires now.Valid()
    ensures FinalRecord(rec, outcome, now).status == Completed <==>
      outcome.Exited? && outcome.returnCode == 0 && outcome.output.Parsed?
    ensures FinalRecord(rec, outcome, now).status == Error <==>
      !(outcome.Exited? && outcome.returnCode == 0 && outcome.output.Parsed?)
  {
  }

  /**
   * The error text of a failed run: masscan's stderr after a non-zero
   * exit, the read error when exit 0 left no readable output, or the
   * launch failure itself (kept only if it is not empty).
   */
  lemma ErrorTexts(rec: ScanRecord, outcome: ProcessOutcome, now: DateTime)
    requires now.Valid()
    ensures var r := FinalRecord(rec, outcome, now);
      (outcome.Exited? && outcome.returnCode != 0 ==> r.error == Some(MasscanErrorPrefix + outcome.stderr))
      && (outcome.Exited? && outcome.returnCode == 0 && outcome.output.Unreadable? ==>
            r.error == Some(ReadErrorPrefix + outcome.output.reason))
      && (outcome.Exited? && outcome.returnCode == 0 && outcome.output.Missing? ==>
            r.error == Some(ReadErrorPrefix + NoSuchFile(TempPath(rec.scanId))))
      && (outcome.LaunchFailed? && outcome.reason != "" ==> r.error == Some(outcome.reason))
      && (outcome.LaunchFailed? && outcome.reason == "" ==> r.error == rec.error)
  {
  }

  /**
   * A completed scan carries masscan's results; an empty result list is
   * falsy, so it leaves the results the scan already had.
   */
  lemma CompletedResults(rec: ScanRecord, results: Results, now: DateTime)
    requires now.Valid()
    ensures var r := FinalRecord(rec, Exited(0, "", Parsed(results)), now);
      r.status == Completed && r.error == rec.error
      && (|results| > 0 ==> r.results == Some(results))
      && (results == [] ==> r.results == rec.results)
  {
  }

  // ---------------------------------------------------------------------
  // Side effects

  /** A Socket.IO `scan_update` event. */
  datatype ScanUpdate =
    | Progress(scanId: string, status: Status)
    | Outcome(scanId: string, status: Status, error: Option<string>)

  /** The side effects of a job, in the order they happen. */
  datatype Effect =
    | Wrote(row: Row)
    | Spawned(argv: seq<string>)
    | Emitted(event: ScanUpdate)
    | CleanedUp(path: string)

  /** The rows a list of effects writes, in order. */
  function Writes(effects: seq<Effect>): (rows: seq<Row>)
    ensures |rows| <= |effects|
    ensures forall r :: r in rows ==> Wrote(r) in effects
  {
    if effects == [] then []
    else (if effects[0].Wrote? then [effects[0].row] else []) + Writes(effects[1..])
  }

  /** The writes of two stretches of effects are those of the first, then those of the second. */
  lemma {:induction false} WritesAppend(a: seq<Effect>, b: seq<Effect>)
    ensures Writes(a + b) == Writes(a) + Writes(b)
    decreases |a|
  {
    if a == [] {
      assert a + b == b;
    } else {
      assert (a + b)[0] == a[0];
      assert (a + b)[1..] == a[1..] + b;
      WritesAppend(a[1..], b);
      var head := if a[0].Wrote? then [a[0].row] else [];
      assert Writes(a + b) == head + (Writes(a[1..]) + Writes(b));
      assert Writes(a) == head + Writes(a[1..]);
    }
  }

  /** The files in `/tmp` that matter to the jobs. */
  class TempDir {
    var files: set<string>

    constructor (files: set<string>)
      ensures this.files == files
    {
      this.files := files;
    }

    /** masscan writing its output file. */
    method Create(path: string)
      modifies this
      ensures files == old(files) + {path}
    {
      files := files + {path};
    }
  }

  /**
   * `cleanup_temp_files(scan_id)`: removes the scan's temporary file if it
   * exists. A failing removal is only logged, so the file stays and no
   * exception escapes.
   */
  method CleanupTempFiles(tmp: TempDir, scanId: string, removeFails: bool)
    modifies tmp
    ensures tmp.files == if removeFails then old(tmp.files) else old(tmp.files) - {TempPath(scanId)}
  {
    var path := TempPath(scanId);
    if path in tmp.files && !removeFails {
      tmp.files := tmp.files - {path};
    }
  }

  /** The effects `run_masscan(scan_id)` has on a table holding `rows`. */
  function RunEffects(rows: map<string, Row>, scanId: string, outcome: ProcessOutcome, now: DateTime): seq<Effect>
    requires now.Valid()
  {
    if scanId !in rows then [CleanedUp(TempPath(scanId))]
    else
      var rec := DecodeRow(rows[scanId]);
      [Wrote(EncodeRow(Updated(rec, Running, None, None, now)))]
      + SpawnEffects(Command(rec.ipRange, rec.ports, rec.rate, scanId), outcome)
      + [Wrote(EncodeRow(FinalRecord(rec, outcome, now))), CleanedUp(TempPath(scanId))]
  }

  /** masscan is started with `argv`, unless `Popen` raises and no process exists. */
  function SpawnEffects(argv: seq<string>, outcome: ProcessOutcome): seq<Effect> {
    if outcome.LaunchFailed? then [] else [Spawned(argv)]
  }

  /** The table after `run_masscan(scan_id)`. */
  function RunStore(rows: map<string, Row>, scanId: string, outcome: ProcessOutcome, now: DateTime): map<string, Row>
    requires now.Valid()
  {
    if scanId !in rows then rows
    else UpsertRow(rows, EncodeRow(FinalRecord(DecodeRow(rows[scanId]), outcome, now)))
  }

  /** The output file masscan leaves behind, if it ran and wrote one. */
  function Produced(rows: map<string, Row>, scanId: string, outcome: ProcessOutcome): set<string> {
    if scanId in rows && outcome.Exited? && !outcome.output.Missing? then {TempPath(scanId)} else {}
  }

  /** `run_masscan(scan_id)`. */
  method RunMasscan(db: ScanTable, tmp: TempDir, scanId: string, outcome: ProcessOutcome,
                    now: DateTime, removeFails: bool)
    returns (effects: seq<Effect>)
    requires db.Valid() && now.Valid()
    modifies db, tmp
    ensures db.Valid()
    ensures db.rows == RunStore(old(db.rows), scanId, outcome, now)
    ensures effects == RunEffects(old(db.rows), scanId, outcome, now)
    ensures db.log == old(db.log) + Writes(effects)
    ensures tmp.files == (old(tmp.files) + Produced(old(db.rows), scanId, outcome))
                         - (if removeFails then {} else {TempPath(scanId)})
  {
    ghost var rows := db.rows;
    ghost var log := db.log;
    ghost var files := tmp.files;
    var scan := db.GetById(scanId, now);
    var path := TempPath(scanId);
    if scan == null {
      CleanupTempFiles(tmp, scanId, removeFails);
      effects := [CleanedUp(path)];
      assert effects[1..] == [];
    } else {
      var loaded := scan.ToDict();
      assert loaded == DecodeRow(rows[scanId]);
      var argv := Command(scan.ipRange, scan.ports, scan.rate, scanId);
      scan.UpdateStatus(Running, None, None, now, db);
      var running := scan.ToDict();
      assert running == Updated(loaded, Running, None, None, now);
      assert db.log == log + [EncodeRow(running)];
      if outcome.Exited? && !outcome.output.Missing? {
        tmp.Create(path);
      }
      assert tmp.files == files + Produced(rows, scanId, outcome);
      RecordOutcome(scan, outcome, path, now, db);
      var final := scan.ToDict();
      assert final == FinalRecord(loaded, outcome, now);
      assert db.log == log + [EncodeRow(running), EncodeRow(final)];
      LastSaveWins(rows, EncodeRow(running), EncodeRow(final));
      CleanupTempFiles(tmp, scanId, removeFails);
      effects := [Wrote(EncodeRow(running))] + SpawnEffects(argv, outcome)
                 + [Wrote(EncodeRow(final)), CleanedUp(path)];
      RunWritesOf(rows, scanId, outcome, now);
    }
  }

  /** The `if process.returncode == 0` block and the `except` handler of `run_masscan`. */
  method RecordOutcome(scan: Scan, outcome: ProcessOutcome, path: string, now: DateTime, db: ScanTable)
    requires scan.Valid() && db.Valid() && now.Valid()
    modifies scan, db
    ensures scan.Valid() && db.Valid()
    ensures scan.ToDict() == Finished(old(scan.ToDict()), outcome, path, now)
    ensures db.rows == UpsertRow(old(db.rows), EncodeRow(scan.ToDict()))
    ensures db.log == old(db.log) + [EncodeRow(scan.ToDict())]
  {
    var failure := Failure(outcome, path);
    if failure.None? {
      scan.UpdateStatus(Completed, None, Some(outcome.output.results), now, db);
    } else {
      scan.UpdateStatus(Error, failure, None, now, db);
    }
  }

  /**
   * A scan that was never stored is neither written nor run; only the
   * cleanup happens.
   */
  lemma UnknownScanUntouched(rows: map<string, Row>, scanId: string, outcome: ProcessOutcome, now: DateTime)
    requires now.Valid() && scanId !in rows
    ensures RunStore(rows, scanId, outcome, now) == rows
    ensures Writes(RunEffects(rows, scanId, outcome, now)) == []
    ensures RunEffects(rows, scanId, outcome, now) == [CleanedUp(TempPath(scanId))]
  {
  }

  /** A run of a stored scan writes the `running` record, then the terminal one, and nothing else. */
  lemma RunWritesOf(rows: map<string, Row>, scanId: string, outcome: ProcessOutcome, now: DateTime)
    requires now.Valid() && scanId in rows
    ensures var rec := DecodeRow(rows[scanId]);
      Writes(RunEffects(rows, scanId, outcome, now))
      == [EncodeRow(Updated(rec, Running, None, None, now)), EncodeRow(FinalRecord(rec, outcome, now))]
  {
    var rec := DecodeRow(rows[scanId]);
    var running := EncodeRow(Updated(rec, Running, None, None, now));
    var final := FinalRecord(rec, outcome, now);
    var spawn := SpawnEffects(Command(rec.ipRange, rec.ports, rec.rate, scanId), outcome);
    var tail := [Wrote(EncodeRow(final)), CleanedUp(TempPath(scanId))];
    assert RunEffects(rows, scanId, outcome, now) == [Wrote(running)] + spawn + tail;
    assert Writes(tail[1..]) == [];
    assert Writes(tail) == [EncodeRow(final)];
    assert Writes(spawn) == [] by {
      if spawn != [] {
        assert spawn[1..] == [];
      }
    }
    assert Writes([Wrote(running)]) == [running] by {
      assert [Wrote(running)][1..] == [];
    }
    WritesAppend([Wrote(running)], spawn);
    WritesAppend([Wrote(running)] + spawn, tail);
  }

  /**
   * For a stored scan the job writes twice: first the `running` record,
   * before masscan is started, then the terminal record; masscan is spawned
   * exactly when `Popen` does not raise; the cleanup comes last, and
   * afterwards `get_by_id` reads back the terminal record.
   */
  lemma StoredScanLifecycle(rows: map<string, Row>, scanId: string, outcome: ProcessOutcome, now: DateTime)
    requires now.Valid() && WellKeyed(rows) && scanId in rows
    ensures var effects := RunEffects(rows, scanId, outcome, now);
      var writes := Writes(effects);
      var final := FinalRecord(DecodeRow(rows[scanId]), outcome, now);
      writes == [EncodeRow(Updated(DecodeRow(rows[scanId]), Running, None, None, now)), EncodeRow(final)]
      && writes[0].status == Running && !IsTerminal(writes[0].status)
      && writes[1] == EncodeRow(final) && IsTerminal(writes[1].status)
      && effects[0].Wrote? && effects[|effects| - 1] == CleanedUp(TempPath(scanId))
      && ((exists i :: 0 <= i < |effects| && effects[i].Spawned?) <==> !outcome.LaunchFailed?)
      && (!outcome.LaunchFailed? ==> effects[1] == Spawned(Command(rows[scanId].ipRange, rows[scanId].ports,
                                                                   rows[scanId].rate, scanId)))
      && Load(RunStore(rows, scanId, outcome, now), scanId) == Some(Normalized(final))
  {
    var rec := DecodeRow(rows[scanId]);
    var running := EncodeRow(Updated(rec, Running, None, None, now));
    var final := FinalRecord(rec, outcome, now);
    var spawn := SpawnEffects(Command(rec.ipRange, rec.ports, rec.rate, scanId), outcome);
    var tail := [Wrote(EncodeRow(final)), CleanedUp(TempPath(scanId))];
    var effects := RunEffects(rows, scanId, outcome, now);
    assert effects == [Wrote(running)] + spawn + tail;
    RunWritesOf(rows, scanId, outcome, now);
    if outcome.LaunchFailed? {
      assert effects == [Wrote(running)] + tail;
    } else {
      assert effects[1].Spawned?;
    }
    FinalIsTerminal(rec, outcome, now);
    SaveLoadRoundTrip(rows, final);
  }
}
