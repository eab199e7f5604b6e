/**
 * A scan record, the `scans` table that stores it, and the `Scan` object
 * whose `update_status` moves a record through
 * `starting -> running -> completed | error`.
 *
 * The table is a map from `scan_id` (its primary key) to rows. The
 * `results` column holds the JSON text of the result list, which is
 * modelled by the list it encodes.
 */
module ScanModel {
  import opened Wrappers
  import opened Text
  import opened Clock

  // ---------------------------------------------------------------------
  // Statuses

  /** The four `ScanStatus` constants. */
  datatype Status = Starting | Running | Completed | Error

  /** The text each status is stored and reported as. */
  function StatusText(status: Status): string {
    match status
    case Starting => "starting"
    case Running => "running"
    case Completed => "completed"
    case Error => "error"
  }

  /** Different statuses are stored as different texts. */
  lemma StatusTextInjective(a: Status, b: Status)
    ensures StatusText(a) == StatusText(b) <==> a == b
  {
    if a != b {
      assert StatusText(a)[0] != StatusText(b)[0] || |StatusText(a)| != |StatusText(b)|;
    }
  }

  /** `status in [ScanStatus.COMPLETED, ScanStatus.ERROR]`: the statuses that stamp `end_time`. */
  predicate IsTerminal(status: Status) {
    status == Completed || status == Error
  }

  // ---------------------------------------------------------------------
  // Records and rows

  /** One port line of a masscan JSON entry. */
  datatype PortHit = PortHit(port: nat, proto: string, status: string, reason: string, ttl: nat)

  /** One entry of masscan's JSON output: a host and the ports found open on it. */
  datatype Finding = Finding(ip: string, timestamp: string, ports: seq<PortHit>)

  type Results = seq<Finding>

  /** Python truthiness of an optional list: `None` and `[]` are false. */
  predicate ResultsTruthy(results: Option<Results>) {
    results.Some? && |results.value| > 0
  }

  /** Python truthiness of an optional string: `None` and `""` are false. */
  predicate TextTruthy(text: Option<string>) {
    text.Some? && text.value != ""
  }

  /** The fields of a scan, as `to_dict()` lists them. */
  datatype ScanRecord = ScanRecord(
    scanId: string, status: Status, ipRange: string, ports: string, rate: int,
    startTime: string, endTime: Option<string>, results: Option<Results>, error: Option<string>)

  /** The `results` column: SQL `NULL`, or the text `json.dumps` produced (`"null"` for `None`). */
  datatype ResultsColumn = SqlNull | JsonText(document: Option<Results>)

  /** A row of the `scans` table. */
  datatype Row = Row(
    scanId: string, status: Status, ipRange: string, ports: string, rate: int,
    startTime: string, endTime: Option<string>, results: ResultsColumn, error: Option<string>)

  /** The values `Scan.save` binds: the results are written only when they are truthy. */
  function EncodeRow(rec: ScanRecord): (row: Row)
    ensures row.scanId == rec.scanId && row.startTime == rec.startTime
  {
    Row(rec.scanId, rec.status, rec.ipRange, rec.ports, rec.rate, rec.startTime, rec.endTime,
        if ResultsTruthy(rec.results) then JsonText(rec.results) else SqlNull,
        rec.error)
  }

  /** `json.loads(row['results']) if row['results'] else None`. */
  function DecodeResults(column: ResultsColumn): Option<Results> {
    match column
    case SqlNull => None
    case JsonText(document) => document
  }

  /** The record a stored row is read back as. */
  function DecodeRow(row: Row): (rec: ScanRecord)
    ensures rec.scanId == row.scanId && rec.startTime == row.startTime
  {
    ScanRecord(row.scanId, row.status, row.ipRange, row.ports, row.rate, row.startTime,
               row.endTime, DecodeResults(row.results), row.error)
  }

  /** `INSERT OR REPLACE`: the row takes the place of any row with the same key. */
  function UpsertRow(rows: map<string, Row>, row: Row): map<string, Row> {
    rows[row.scanId := row]
  }

  /**
   * `get_by_id` on the table contents, for tables whose rows all have a
   * start time (`WellKeyed`). The `start_time or now` that `get_by_id`
   * applies through the constructor is left to `ScanTable.GetById`, which
   * has the clock; for the rows every writer stores it changes nothing.
   */
  function Load(rows: map<string, Row>, scanId: string): Option<ScanRecord> {
    if scanId in rows then Some(DecodeRow(rows[scanId])) else None
  }

  /** What a save followed by a load gives back: empty results are read back as `None`. */
  function Normalized(rec: ScanRecord): ScanRecord {
    if ResultsTruthy(rec.results) then rec else rec.(results := None)
  }

  /**
   * `save` then `get_by_id` gives the saved fields back, except that an
   * empty result list comes back as `None`; a record with no results or a
   * non-empty list comes back unchanged.
   */
  lemma SaveLoadRoundTrip(rows: map<string, Row>, rec: ScanRecord)
    ensures Load(UpsertRow(rows, EncodeRow(rec)), rec.scanId) == Some(Normalized(rec))
    ensures Normalized(rec) == rec <==> rec.results != Some([])
  {
    if rec.results == Some([]) {
      assert Normalized(rec).results == None;
    }
  }

  /** A save is an upsert: it adds its own key and leaves every other row as it was. */
  lemma SaveIsUpsert(rows: map<string, Row>, rec: ScanRecord, other: string)
    ensures UpsertRow(rows, EncodeRow(rec)).Keys == rows.Keys + {rec.scanId}
    ensures other != rec.scanId ==> Load(UpsertRow(rows, EncodeRow(rec)), other) == Load(rows, other)
  {
  }

  /** Of two saves under the same key, the later one wins outright. */
  lemma LastSaveWins(rows: map<string, Row>, first: Row, second: Row)
    requires first.scanId == second.scanId
    ensures UpsertRow(UpsertRow(rows, first), second) == UpsertRow(rows, second)
  {
  }

  /** `get_by_id` of an id that was never saved is `None`. */
  lemma LoadUnknown(rows: map<string, Row>, scanId: string)
    requires scanId !in rows
    ensures Load(rows, scanId) == None
  {
  }

  // ---------------------------------------------------------------------
  // The constructor and update_status as functions on records

  /** `start_time or datetime.now().isoformat()`. */
  function StartTimeOr(startTime: Option<string>, now: DateTime): (r: string)
    requires now.Valid()
    ensures r != ""
    ensures TextTruthy(startTime) ==> r == startTime.value
  {
    if TextTruthy(startTime) then startTime.value else IsoFormat(now)
  }

  /** The record of `Scan(scan_id, ip_range, ports, rate)` with every other argument left at its default. */
  function NewRecord(scanId: string, ipRange: string, ports: string, rate: int, now: DateTime): ScanRecord
    requires now.Valid()
  {
    ScanRecord(scanId, Starting, ipRange, ports, rate, StartTimeOr(None, now), None, None, None)
  }

  /** A new scan is `starting`, was started now, and has no end time, results or error. */
  lemma NewScanDefaults(scanId: string, ipRange: string, ports: string, rate: int, now: DateTime)
    requires now.Valid()
    ensures var rec := NewRecord(scanId, ipRange, ports, rate, now);
      rec.status == Starting && !IsTerminal(rec.status) && rec.startTime == IsoFormat(now)
      && rec.endTime == None && rec.results == None && rec.error == None
  {
  }

  /** The fields `update_status(status, error, results)` leaves in the object, `now` being the clock reading it takes. */
  function Updated(rec: ScanRecord, status: Status, error: Option<string>, results: Option<Results>,
                   now: DateTime): ScanRecord
    requires now.Valid()
  {
    rec.(status := status,
         error := if TextTruthy(error) then error else rec.error,
         results := if ResultsTruthy(results) then results else rec.results,
         endTime := if IsTerminal(status) then Some(IsoFormat(now)) else rec.endTime)
  }

  /**
   * `end_time` is stamped exactly when the new status is `completed` or
   * `error`; any other status leaves it as it was.
   */
  lemma UpdateStampsEndTime(rec: ScanRecord, status: Status, error: Option<string>,
                            results: Option<Results>, now: DateTime)
    requires now.Valid()
    ensures var r := Updated(rec, status, error, results, now);
      r.status == status
      && (IsTerminal(status) ==> r.endTime == Some(IsoFormat(now)))
      && (!IsTerminal(status) ==> r.endTime == rec.endTime)
  {
  }

  /**
   * `error` and `results` are overwritten only by a truthy argument: a
   * `None`, `""` or `[]` argument keeps the previous value.
   */
  lemma UpdateOverwritesOnlyTruthy(rec: ScanRecord, status: Status, error: Option<string>,
                                   results: Option<Results>, now: DateTime)
    requires now.Valid()
    ensures var r := Updated(rec, status, error, results, now);
      (r.error == error || r.error == rec.error)
      && (r.error == rec.error <== !TextTruthy(error))
      && (TextTruthy(error) ==> r.error == error)
      && (r.results == rec.results <== !ResultsTruthy(results))
      && (ResultsTruthy(results) ==> r.results == results)
  {
  }

  /** An update never touches the identity of a scan or its parameters. */
  lemma UpdateKeepsIdentity(rec: ScanRecord, status: Status, error: Option<string>,
                            results: Option<Results>, now: DateTime)
    requires now.Valid()
    ensures var r := Updated(rec, status, error, results, now);
      r.scanId == rec.scanId && r.ipRange == rec.ipRange && r.ports == rec.ports
      && r.rate == rec.rate && r.startTime == rec.startTime
  {
  }

  /** One call of `update_status`, with the clock reading it would take. */
  datatype StatusUpdate = StatusUpdate(status: Status, error: Option<string>, results: Option<Results>, now: DateTime)

  /** The record after a sequence of `update_status` calls, in order. */
  function ApplyUpdates(rec: ScanRecord, updates: seq<StatusUpdate>): ScanRecord
    requires forall i :: 0 <= i < |updates| ==> updates[i].now.Valid()
    decreases |updates|
  {
    if updates == [] then rec
    else
      var u := updates[0];
      ApplyUpdates(Updated(rec, u.status, u.error, u.results, u.now), updates[1..])
  }

  /** A scan that is only ever given non-terminal statuses keeps the end time it had. */
  lemma {:induction false} NonTerminalKeepsEndTime(rec: ScanRecord, updates: seq<StatusUpdate>)
    requires forall i :: 0 <= i < |updates| ==> updates[i].now.Valid()
    requires forall i :: 0 <= i < |updates| ==> !IsTerminal(updates[i].status)
    ensures ApplyUpdates(rec, updates).endTime == rec.endTime
    decreases |updates|
  {
    if updates != [] {
      var u := updates[0];
      NonTerminalKeepsEndTime(Updated(rec, u.status, u.error, u.results, u.now), updates[1..]);
    }
  }

  /**
   * Over a scan's whole life, its end time is the clock reading of the last
   * update that gave it a terminal status.
   */
  lemma {:induction false} EndTimeOfLastTerminal(rec: ScanRecord, updates: seq<StatusUpdate>, last: nat)
    requires forall i :: 0 <= i < |updates| ==> updates[i].now.Valid()
    requires last < |updates| && IsTerminal(updates[last].status)
    requires forall j :: last < j < |updates| ==> !IsTerminal(updates[j].status)
    ensures ApplyUpdates(rec, updates).endTime == Some(IsoFormat(updates[last].now))
    decreases |updates|
  {
    var u := updates[0];
    var next := Updated(rec, u.status, u.error, u.results, u.now);
    if last == 0 {
      NonTerminalKeepsEndTime(next, updates[1..]);
    } else {
      EndTimeOfLastTerminal(next, updates[1..], last - 1);
    }
  }

  /**
   * Every row sits under its own `scan_id`, and its `start_time` is not
   * empty. The column's NOT NULL only excludes NULL; the text is non-empty
   * because every writer stores `start_time or now` or an `isoformat()`.
   */
  predicate WellKeyed(rows: map<string, Row>) {
    forall scanId :: scanId in rows ==> rows[scanId].scanId == scanId && rows[scanId].startTime != ""
  }

  // ---------------------------------------------------------------------
  // get_recent: ORDER BY start_time DESC LIMIT ?

  /** The ids of a list of records. */
  function IdsOf(recs: seq<ScanRecord>): set<string> {
    set r | r in recs :: r.scanId
  }

  /** `scanId` names a row started no earlier than any row named in `ids`. */
  predicate IsLatest(rows: map<string, Row>, ids: set<string>, scanId: string)
    requires scanId in rows && ids <= rows.Keys
  {
    forall other :: other in ids ==> LexLe(rows[other].startTime, rows[scanId].startTime)
  }

  /** Every non-empty set of stored ids holds a latest one (text order is total). */
  lemma {:induction false} LatestExists(rows: map<string, Row>, ids: set<string>)
    requires ids <= rows.Keys && ids != {}
    ensures exists scanId :: scanId in ids && IsLatest(rows, ids, scanId)
    decreases |ids|
  {
    var x :| x in ids;
    var rest := ids - {x};
    if rest == {} {
      assert ids == {x};
      LexLeRefl(rows[x].startTime);
      assert IsLatest(rows, ids, x);
    } else {
      LatestExists(rows, rest);
      var y :| y in rest && IsLatest(rows, rest, y);
      LexLeTotal(rows[x].startTime, rows[y].startTime);
      if LexLe(rows[x].startTime, rows[y].startTime) {
        assert IsLatest(rows, ids, y);
      } else {
        forall other | other in ids
          ensures LexLe(rows[other].startTime, rows[x].startTime)
        {
          if other == x {
            LexLeRefl(rows[x].startTime);
          } else {
            LexLeTrans(rows[other].startTime, rows[y].startTime, rows[x].startTime);
          }
        }
        assert IsLatest(rows, ids, x);
      }
    }
  }

  // ---------------------------------------------------------------------
  // The table

  /** The `scans` table of `scans.db`. */
  class ScanTable {
    var rows: map<string, Row>
    /** Every row written, in the order of the statements that wrote them. */
    ghost var log: seq<Row>

    ghost predicate Valid()
      reads this
    {
      WellKeyed(rows)
    }

    /** `init_db` on a fresh database file. */
    constructor ()
      ensures Valid() && rows == map[] && log == []
    {
      rows := map[];
      log := [];
    }

    /** `INSERT OR REPLACE INTO scans ...`. */
    method Upsert(row: Row)
      requires Valid() && row.startTime != ""
      modifies this
      ensures Valid()
      ensures rows == UpsertRow(old(rows), row)
      ensures log == old(log) + [row]
    {
      rows := rows[row.scanId := row];
      log := log + [row];
    }

    /** `Scan.get_by_id(scan_id)`; `now` is read only when a stored start time is empty. */
    method GetById(scanId: string, now: DateTime) returns (scan: Scan?)
      requires Valid() && now.Valid()
      ensures scan == null <==> Load(rows, scanId) == None
      ensures scan != null ==> fresh(scan) && scan.Valid() && Load(rows, scanId) == Some(scan.ToDict())
    {
      if scanId in rows {
        var row := rows[scanId];
        scan := new Scan(row.scanId, row.ipRange, row.ports, row.rate, row.status, Some(row.startTime),
                         row.endTime, DecodeResults(row.results), row.error, now);
      } else {
        scan := null;
      }
    }

    /**
     * `Scan.get_recent(limit)`: at most `limit` records (all of them for a
     * negative limit, as SQLite reads `LIMIT -1`), newest `start_time`
     * first, and no stored record left out is newer than one listed. Rows
     * with equal start times may come in either order.
     */
    method GetRecent(limit: int) returns (scans: seq<ScanRecord>)
      requires Valid()
      ensures |scans| == if 0 <= limit < |rows.Keys| then limit else |rows.Keys|
      ensures forall i :: 0 <= i < |scans| ==> Load(rows, scans[i].scanId) == Some(scans[i])
      ensures forall i, j :: 0 <= i < j < |scans| ==> scans[i].scanId != scans[j].scanId
      ensures forall i, j :: 0 <= i < j < |scans| ==> LexLe(scans[j].startTime, scans[i].startTime)
      ensures forall scanId, i :: scanId in rows && scanId !in IdsOf(scans) && 0 <= i < |scans| ==>
        LexLe(rows[scanId].startTime, scans[i].startTime)
    {
      var count := if 0 <= limit < |rows.Keys| then limit else |rows.Keys|;
      var remaining := rows.Keys;
      scans := [];
      while |scans| < count
        invariant |scans| <= count
        invariant remaining == rows.Keys - IdsOf(scans)
        invariant |remaining| + |scans| == |rows.Keys|
        invariant ListedNewestFirst(rows, scans, remaining)
      {
        LatestExists(rows, remaining);
        var next :| next in remaining && IsLatest(rows, remaining, next);
        ListingStep(rows, scans, remaining, next);
        scans := scans + [DecodeRow(rows[next])];
        remaining := remaining - {next};
      }
    }
  }

  /**
   * `scans` lists stored records, each id once and newest first, and no id
   * in `rest` names a row newer than a listed one.
   */
  predicate ListedNewestFirst(rows: map<string, Row>, scans: seq<ScanRecord>, rest: set<string>)
    requires rest <= rows.Keys
  {
    (forall i :: 0 <= i < |scans| ==> Load(rows, scans[i].scanId) == Some(scans[i]))
    && (forall i, j :: 0 <= i < j < |scans| ==> scans[i].scanId != scans[j].scanId)
    && (forall i, j :: 0 <= i < j < |scans| ==> LexLe(scans[j].startTime, scans[i].startTime))
    && (forall scanId, i :: scanId in rest && 0 <= i < |scans| ==>
          LexLe(rows[scanId].startTime, scans[i].startTime))
  }

  lemma IdsOfAppend(scans: seq<ScanRecord>, rec: ScanRecord)
    ensures IdsOf(scans + [rec]) == IdsOf(scans) + {rec.scanId}
  {
    var longer := scans + [rec];
    forall scanId | scanId in IdsOf(longer) ensures scanId in IdsOf(scans) + {rec.scanId} {
      var r :| r in longer && r.scanId == scanId;
      if r != rec {
        assert r in scans;
      }
    }
    forall scanId | scanId in IdsOf(scans) + {rec.scanId} ensures scanId in IdsOf(longer) {
      if scanId == rec.scanId {
        assert rec in longer;
      } else {
        var r :| r in scans && r.scanId == scanId;
        assert r in longer;
      }
    }
  }

  /** Appending the latest of the rows not yet listed keeps the listing newest first. */
  lemma ListingStep(rows: map<string, Row>, scans: seq<ScanRecord>, rest: set<string>, next: string)
    requires WellKeyed(rows)
    requires rest == rows.Keys - IdsOf(scans)
    requires ListedNewestFirst(rows, scans, rest)
    requires next in rest && IsLatest(rows, rest, next)
    ensures rest - {next} == rows.Keys - IdsOf(scans + [DecodeRow(rows[next])])
    ensures ListedNewestFirst(rows, scans + [DecodeRow(rows[next])], rest - {next})
  {
    var rec := DecodeRow(rows[next]);
    var longer := scans + [rec];
    IdsOfAppend(scans, rec);
    forall i | 0 <= i < |longer| ensures Load(rows, longer[i].scanId) == Some(longer[i]) {
      if i < |scans| {
        assert longer[i] == scans[i];
      }
    }
    forall i, j | 0 <= i < j < |longer| ensures longer[i].scanId != longer[j].scanId {
      assert longer[i] == scans[i];
      if j == |scans| {
        assert scans[i] in scans;
      } else {
        assert longer[j] == scans[j];
      }
    }
    forall i, j | 0 <= i < j < |longer| ensures LexLe(longer[j].startTime, longer[i].startTime) {
      assert longer[i] == scans[i];
      if j < |scans| {
        assert longer[j] == scans[j];
      }
    }
    forall scanId, i | scanId in rest - {next} && 0 <= i < |longer|
      ensures LexLe(rows[scanId].startTime, longer[i].startTime)
    {
      if i < |scans| {
        assert longer[i] == scans[i];
      }
    }
  }

  // ---------------------------------------------------------------------
  // The Scan object

  class Scan {
    var scanId: string
    var ipRange: string
    var ports: string
    var rate: int
    var status: Status
    var startTime: string
    var endTime: Option<string>
    var results: Option<Results>
    var error: Option<string>

    ghost predicate Valid()
      reads this
    {
      startTime != ""
    }

    /** `to_dict()`. */
    function ToDict(): (rec: ScanRecord)
      reads this
      ensures rec.scanId == scanId && rec.status == status && rec.startTime == startTime
    {
      ScanRecord(scanId, status, ipRange, ports, rate, startTime, endTime, results, error)
    }

    /** `Scan(...)`, with `now` the reading `datetime.now()` would give. */
    constructor (scanId: string, ipRange: string, ports: string, rate: int, status: Status,
                 startTime: Option<string>, endTime: Option<string>, results: Option<Results>,
                 error: Option<string>, now: DateTime)
      requires now.Valid()
      ensures Valid()
      ensures ToDict() == ScanRecord(scanId, status, ipRange, ports, rate, StartTimeOr(startTime, now),
                                     endTime, results, error)
    {
      this.scanId := scanId;
      this.ipRange := ipRange;
      this.ports := ports;
      this.rate := rate;
      this.status := status;
      this.startTime := StartTimeOr(startTime, now);
      this.endTime := endTime;
      this.results := results;
      this.error := error;
    }

    /** `save()`: upserts this scan's row. */
    method Save(db: ScanTable)
      requires Valid() && db.Valid()
      modifies db
      ensures db.Valid()
      ensures db.rows == UpsertRow(old(db.rows), EncodeRow(ToDict()))
      ensures db.log == old(db.log) + [EncodeRow(ToDict())]
    {
      db.Upsert(EncodeRow(ToDict()));
    }

    /** `update_status(status, error, results)`, then `save()`. */
    method UpdateStatus(status: Status, error: Option<string>, results: Option<Results>,
                        now: DateTime, db: ScanTable)
      requires Valid() && db.Valid() && now.Valid()
      modifies this, db
      ensures Valid() && db.Valid()
      ensures ToDict() == Updated(old(ToDict()), status, error, results, now)
      ensures db.rows == UpsertRow(old(db.rows), EncodeRow(ToDict()))
      ensures db.log == old(db.log) + [EncodeRow(ToDict())]
    {
      this.status := status;
      if TextTruthy(error) {
        this.error := error;
      }
      if ResultsTruthy(results) {
        this.results := results;
      }
      if IsTerminal(status) {
        this.endTime := Some(IsoFormat(now));
      }
      Save(db);
    }
  }

  /**
   * `update_status` always persists: after it, `get_by_id` reads back the
   * updated fields (empty results as `None`).
   */
  lemma UpdateIsPersisted(rows: map<string, Row>, rec: ScanRecord, u: StatusUpdate)
    requires u.now.Valid()
    ensures var r := Updated(rec, u.status, u.error, u.results, u.now);
      Load(UpsertRow(rows, EncodeRow(r)), rec.scanId) == Some(Normalized(r))
  {
    var r := Updated(rec, u.status, u.error, u.results, u.now);
    SaveLoadRoundTrip(rows, r);
  }
}
