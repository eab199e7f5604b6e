/**
 * The package's HTTP handlers: `start_scan` admits a request, stores a
 * `starting` scan and enqueues the job; `scan_status` and `recent_scans`
 * read the table; `handle_error` turns any exception into a JSON error.
 * The task queue (dramatiq over Redis) is a list of queued scan ids, and
 * the two clock readings `start_scan` takes are parameters.
 */
module ScanRoutes {
  import opened Wrappers
  import opened Text
  import opened Clock
  import opened Validators
  import opened Exceptions
  import opened ScanModel
  import opened Web

  /** `handle_error`: `{'error': str(e)}` with the exception's `status_code`, 500 if it has none. */
  function HandleError(e: Raised): (resp: Response)
    ensures resp.body == ErrorBody(Str(e))
    ensures resp.status == StatusCodeOf(e)
  {
    Response(ErrorBody(Str(e)), StatusCodeOf(e))
  }

  /**
   * Everything `start_scan` does before it touches the table: the falsy
   * body check, the three reads, then `validate_scan_input`.
   */
  function Admit(data: Option<Json>): Result<ScanRequest, Raised> {
    if NoData(data) then Err(App(ValidationError(NoJsonMessage)))
    else
      match ReadRequest(data.value)
      case Err(e) => Err(e)
      case Ok(req) =>
        match ValidateScanInput(req.ipRange, req.ports, IntRate(req.rate))
        case Some(message) => Err(App(ValidationError(message)))
        case None => Ok(req)
  }

  /**
   * A request is admitted exactly when its fields read cleanly and pass
   * `validate_scan_input`; the admitted parameters are the stripped texts
   * and the integer rate.
   */
  lemma AdmitIff(data: Option<Json>)
    ensures Admit(data).Ok? <==>
      !NoData(data) && ReadRequest(data.value).Ok?
      && var req := ReadRequest(data.value).value;
         ValidateScanInput(req.ipRange, req.ports, IntRate(req.rate)) == None
    ensures Admit(data).Ok? ==> Admit(data).value == ReadRequest(data.value).value
  {
  }

  /**
   * A rejected request is answered 400 exactly when a `ValidationError` was
   * raised; anything else (a non-integer rate, a non-string field, a body
   * that is not an object) is answered 500.
   */
  lemma RejectionStatus(data: Option<Json>)
    requires Admit(data).Err?
    ensures HandleError(Admit(data).error).status == 400 <==> Admit(data).error.App?
    ensures HandleError(Admit(data).error).status == 500 <==> !Admit(data).error.App?
  {
    var e := Admit(data).error;
    if e.App? {
      assert e.error.kind == Validation;
    }
  }

  /** A well-typed body that fails validation gets the validation message with status 400. */
  lemma InvalidInputIs400(ipRange: string, ports: string, rate: int)
    requires ValidateScanInput(Strip(ipRange), Strip(ports), IntRate(rate)).Some?
    ensures Admit(Some(WellTypedBody(ipRange, ports, rate)))
      == Err(App(ValidationError(ValidateScanInput(Strip(ipRange), Strip(ports), IntRate(rate)).value)))
    ensures HandleError(App(ValidationError(ValidateScanInput(Strip(ipRange), Strip(ports), IntRate(rate)).value))).status == 400
  {
    ReadWellTypedBody(ipRange, ports, rate);
    ObjectWithKeyTruthy(WellTypedBody(ipRange, ports, rate).fields, RateKey);
  }

  /**
   * A `rate` that `int()` cannot read raises `ValueError`, which has no
   * `status_code`, so the answer is 500 rather than 400.
   */
  lemma NonIntegerRateIs500(ipRange: string, ports: string, rate: string)
    requires ParseInt(rate) == None
    ensures Admit(Some(TextRateBody(ipRange, ports, rate))).Err?
      && Admit(Some(TextRateBody(ipRange, ports, rate))).error.ValueError?
      && HandleError(Admit(Some(TextRateBody(ipRange, ports, rate))).error).status == 500
  {
    ReadTextRateBody(ipRange, ports, rate);
    ObjectWithKeyTruthy(TextRateBody(ipRange, ports, rate).fields, RateKey);
  }

  /** A request without `rate` is judged with the default rate 1000. */
  lemma MissingRateDefaults(ipRange: string, ports: string)
    ensures var data := Some(JObject(map[IpRangeKey := JStr(ipRange), PortsKey := JStr(ports)]));
      ReadRequest(data.value) == Ok(ScanRequest(Strip(ipRange), Strip(ports), DefaultRate))
  {
    var fields := map[IpRangeKey := JStr(ipRange), PortsKey := JStr(ports)];
    KeysDistinct();
    assert RateKey !in fields;
    assert GetStripped(fields, IpRangeKey) == Ok(Strip(ipRange));
    assert GetStripped(fields, PortsKey) == Ok(Strip(ports));
  }

  /** The dramatiq queue `run_masscan.send` puts messages on. */
  class TaskQueue {
    var messages: seq<string>

    constructor ()
      ensures messages == []
    {
      messages := [];
    }

    /** `run_masscan.send(scan_id)`. */
    method Send(scanId: string)
      modifies this
      ensures messages == old(messages) + [scanId]
    {
      messages := messages + [scanId];
    }
  }

  const StartedStatus: int := 202

  /**
   * `POST /start_scan`. `idTime` is the reading that names the scan and
   * `createdTime` the one its constructor takes for `start_time`.
   */
  method StartScan(db: ScanTable, queue: TaskQueue, data: Option<Json>, idTime: DateTime, createdTime: DateTime)
    returns (resp: Response)
    requires db.Valid() && idTime.Valid() && createdTime.Valid()
    modifies db, queue
    ensures db.Valid()
    ensures Admit(data).Err? ==>
      resp == HandleError(Admit(data).error)
      && db.rows == old(db.rows) && db.log == old(db.log) && queue.messages == old(queue.messages)
    ensures Admit(data).Ok? ==>
      var req := Admit(data).value;
      var scanId := ScanIdOf(idTime);
      db.rows == UpsertRow(old(db.rows), EncodeRow(NewRecord(scanId, req.ipRange, req.ports, req.rate, createdTime)))
      && db.log == old(db.log) + [EncodeRow(NewRecord(scanId, req.ipRange, req.ports, req.rate, createdTime))]
      && queue.messages == old(queue.messages) + [scanId]
      && resp == Response(Started(scanId, StartedMessage), StartedStatus)
  {
    var admitted := Admit(data);
    if admitted.Err? {
      resp := HandleError(admitted.error);
    } else {
      var req := admitted.value;
      var scanId := ScanIdOf(idTime);
      var scan := new Scan(scanId, req.ipRange, req.ports, req.rate, Starting, None, None, None, None, createdTime);
      scan.Save(db);
      queue.Send(scanId);
      resp := Response(Started(scanId, StartedMessage), StartedStatus);
    }
  }

  /**
   * Two admitted submissions within the same second get the same id, so
   * the later save replaces the earlier scan; submissions in different
   * seconds are both kept.
   */
  lemma SameSecondSubmissionsCollide(rows: map<string, Row>, first: ScanRequest, second: ScanRequest,
                                     t1: DateTime, t2: DateTime, c1: DateTime, c2: DateTime)
    requires t1.Valid() && t2.Valid() && c1.Valid() && c2.Valid()
    ensures var r1 := NewRecord(ScanIdOf(t1), first.ipRange, first.ports, first.rate, c1);
      var r2 := NewRecord(ScanIdOf(t2), second.ipRange, second.ports, second.rate, c2);
      var after := UpsertRow(UpsertRow(rows, EncodeRow(r1)), EncodeRow(r2));
      (SameSecond(t1, t2) ==> after == UpsertRow(rows, EncodeRow(r2)))
      && (!SameSecond(t1, t2) ==> Load(after, r1.scanId) == Some(r1) && Load(after, r2.scanId) == Some(r2))
  {
    ScanIdSameIffSameSecond(t1, t2);
  }

  const NotFoundStatus: int := 404

  /** `"Scan {scan_id} not found"`. */
  function NotFoundMessage(scanId: string): string {
    "Scan " + scanId + " not found"
  }

  /** `GET /scan_status/<scan_id>`; `now` is only read if a stored start time were empty. */
  method ScanStatus(db: ScanTable, scanId: string, now: DateTime) returns (resp: Response)
    requires db.Valid() && now.Valid()
    ensures Load(db.rows, scanId).None? ==>
      resp == HandleError(App(ResourceNotFoundError(NotFoundMessage(scanId))))
      && resp.status == NotFoundStatus
    ensures Load(db.rows, scanId).Some? ==>
      resp == Response(RecordBody(Load(db.rows, scanId).value), OkStatus)
  {
    var scan := db.GetById(scanId, now);
    if scan == null {
      resp := HandleError(App(ResourceNotFoundError(NotFoundMessage(scanId))));
    } else {
      resp := Response(RecordBody(scan.ToDict()), OkStatus);
    }
  }

  const RecentLimit: int := 10

  /** `GET /recent_scans`: `get_recent(limit=10)`, each as `to_dict()`. */
  method RecentScans(db: ScanTable) returns (resp: Response)
    requires db.Valid()
    ensures resp.status == OkStatus && resp.body.RecordList?
    ensures var scans := resp.body.records;
      |scans| == (if |db.rows.Keys| < RecentLimit then |db.rows.Keys| else RecentLimit)
      && (forall i :: 0 <= i < |scans| ==> Load(db.rows, scans[i].scanId) == Some(scans[i]))
      && (forall i, j :: 0 <= i < j < |scans| ==> scans[i].scanId != scans[j].scanId)
      && (forall i, j :: 0 <= i < j < |scans| ==> LexLe(scans[j].startTime, scans[i].startTime))
      && (forall scanId, i :: scanId in db.rows && scanId !in IdsOf(scans) && 0 <= i < |scans| ==>
            LexLe(db.rows[scanId].startTime, scans[i].startTime))
  {
    var scans := db.GetRecent(RecentLimit);
    resp := Response(RecordList(scans), OkStatus);
  }
}
