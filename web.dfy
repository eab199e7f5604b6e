/**
 * The request and response side of the two Flask front ends: the JSON
 * body `request.get_json()` hands to `start_scan`, how both handlers read
 * `ip_range`, `ports` and `rate` from it, and the JSON responses they
 * return. Flask itself is not modelled.
 */
module Web {
  import opened Wrappers
  import opened Text
  import opened Exceptions
  import opened ScanModel

  /** A decoded JSON value. JSON numbers are integers here. */
  datatype Json =
    | JNull
    | JBool(b: bool)
    | JInt(n: int)
    | JStr(s: string)
    | JArray(items: seq<Json>)
    | JObject(fields: map<string, Json>)

  /** Python truthiness of the decoded value. */
  predicate Truthy(v: Json) {
    match v
    case JNull => false
    case JBool(b) => b
    case JInt(n) => n != 0
    case JStr(s) => s != ""
    case JArray(items) => |items| > 0
    case JObject(fields) => |fields| > 0
  }

  /** The Python type name of the decoded value, as error messages print it. */
  function TypeName(v: Json): string {
    match v
    case JNull => "NoneType"
    case JBool(_) => "bool"
    case JInt(_) => "int"
    case JStr(_) => "str"
    case JArray(_) => "list"
    case JObject(_) => "dict"
  }

  /** The text of the `AttributeError` raised by calling a missing method on a value. */
  function NoAttribute(v: Json, attribute: string): string {
    "'" + TypeName(v) + "' object has no attribute '" + attribute + "'"
  }

  /** The three keys a scan request is read from. */
  const IpRangeKey: string := "ip_range"
  const PortsKey: string := "ports"
  const RateKey: string := "rate"

  lemma KeysDistinct()
    ensures IpRangeKey != PortsKey && IpRangeKey != RateKey && PortsKey != RateKey
  {
    assert |IpRangeKey| == 8 && |PortsKey| == 5 && |RateKey| == 4;
  }

  /** `data.get(key, '').strip()`: only a string has `strip`. */
  function GetStripped(fields: map<string, Json>, key: string): (r: Result<string, Raised>)
    ensures key !in fields ==> r == Ok("")
    ensures key in fields && fields[key].JStr? ==> r == Ok(Strip(fields[key].s))
    ensures key in fields && !fields[key].JStr? ==> r.Err? && r.error.AttributeError?
  {
    if key !in fields then Ok("")
    else
      match fields[key]
      case JStr(s) => Ok(Strip(s))
      case v => Err(AttributeError(NoAttribute(v, "strip")))
  }

  const DefaultRate: int := 1000

  const InvalidLiteralPrefix: string := "invalid literal for int() with base 10: '"
  const IntArgumentPrefix: string := "int() argument must be a string, a bytes-like object or a real number, not '"

  /** `int(data.get('rate', 1000))`. */
  function GetRate(fields: map<string, Json>): (r: Result<int, Raised>)
    ensures RateKey !in fields ==> r == Ok(DefaultRate)
    ensures RateKey in fields && fields[RateKey].JInt? ==> r == Ok(fields[RateKey].n)
    ensures RateKey in fields && fields[RateKey].JStr? ==>
      (if ParseInt(fields[RateKey].s).Some? then r == Ok(ParseInt(fields[RateKey].s).value) else r.Err? && r.error.ValueError?)
  {
    if RateKey !in fields then Ok(DefaultRate)
    else
      match fields[RateKey]
      case JInt(n) => Ok(n)
      case JBool(b) => Ok(if b then 1 else 0)
      case JStr(s) =>
        (match ParseInt(s)
         case Some(n) => Ok(n)
         case None => Err(ValueError(InvalidLiteralPrefix + s + "'")))
      case v => Err(TypeError(IntArgumentPrefix + TypeName(v) + "'"))
  }

  /** The three parameters a scan request carries once read. */
  datatype ScanRequest = ScanRequest(ipRange: string, ports: string, rate: int)

  const NoJsonMessage: string := "No JSON data received"

  /** Whether `not data` holds for what `request.get_json()` returned. */
  predicate NoData(data: Option<Json>) {
    data.None? || !Truthy(data.value)
  }

  /**
   * The three reads both `start_scan` handlers make of a truthy body, in
   * their order: `ip_range`, then `ports`, then `rate`. A body that is not
   * an object has no `get`.
   */
  function ReadRequest(data: Json): Result<ScanRequest, Raised> {
    match data
    case JObject(fields) =>
      (match GetStripped(fields, IpRangeKey)
       case Err(e) => Err(e)
       case Ok(ipRange) =>
         match GetStripped(fields, PortsKey)
         case Err(e) => Err(e)
         case Ok(ports) =>
           match GetRate(fields)
           case Err(e) => Err(e)
           case Ok(rate) => Ok(ScanRequest(ipRange, ports, rate)))
    case _ => Err(AttributeError(NoAttribute(data, "get")))
  }

  /** A request body whose `ip_range` and `ports` are strings and whose `rate` is an integer. */
  function WellTypedBody(ipRange: string, ports: string, rate: int): Json {
    JObject(map[IpRangeKey := JStr(ipRange), PortsKey := JStr(ports), RateKey := JInt(rate)])
  }

  /** Reading a well-typed body strips the two strings and keeps the rate. */
  lemma ReadWellTypedBody(ipRange: string, ports: string, rate: int)
    ensures ReadRequest(WellTypedBody(ipRange, ports, rate)) == Ok(ScanRequest(Strip(ipRange), Strip(ports), rate))
  {
    var fields := map[IpRangeKey := JStr(ipRange), PortsKey := JStr(ports), RateKey := JInt(rate)];
    KeysDistinct();
    assert fields[IpRangeKey] == JStr(ipRange) && fields[PortsKey] == JStr(ports) && fields[RateKey] == JInt(rate);
    ReadStringFields(fields, Strip(ipRange), Strip(ports));
  }

  /** The same body with `rate` sent as a string, as a form-minded client might. */
  function TextRateBody(ipRange: string, ports: string, rate: string): Json {
    JObject(map[IpRangeKey := JStr(ipRange), PortsKey := JStr(ports), RateKey := JStr(rate)])
  }

  /** An object with at least one key is truthy, so both bodies above pass the `not data` check. */
  lemma ObjectWithKeyTruthy(fields: map<string, Json>, key: string)
    requires key in fields
    ensures Truthy(JObject(fields))
  {
    assert key in fields.Keys;
    assert |fields.Keys| > 0;
  }

  /** Reading a body whose `rate` is a string runs it through `int()`. */
  lemma ReadTextRateBody(ipRange: string, ports: string, rate: string)
    ensures ParseInt(rate).Some? ==>
      ReadRequest(TextRateBody(ipRange, ports, rate)) == Ok(ScanRequest(Strip(ipRange), Strip(ports), ParseInt(rate).value))
    ensures ParseInt(rate).None? ==>
      ReadRequest(TextRateBody(ipRange, ports, rate)).Err? && ReadRequest(TextRateBody(ipRange, ports, rate)).error.ValueError?
  {
    var fields := TextRateBody(ipRange, ports, rate).fields;
    KeysDistinct();
    assert fields[IpRangeKey] == JStr(ipRange) && fields[PortsKey] == JStr(ports) && fields[RateKey] == JStr(rate);
    ReadStringFields(fields, Strip(ipRange), Strip(ports));
  }

  /** With both texts read, `ReadRequest` yields exactly what `int()` makes of `rate`. */
  lemma ReadStringFields(fields: map<string, Json>, ipRange: string, ports: string)
    requires GetStripped(fields, IpRangeKey) == Ok(ipRange) && GetStripped(fields, PortsKey) == Ok(ports)
    ensures GetRate(fields).Ok? ==> ReadRequest(JObject(fields)) == Ok(ScanRequest(ipRange, ports, GetRate(fields).value))
    ensures GetRate(fields).Err? ==> ReadRequest(JObject(fields)) == Err(GetRate(fields).error)
  {
  }

  /** A summary line of the monolith's `recent_scans`. */
  datatype Summary = Summary(scanId: string, status: Status, ipRange: string, startTime: string)

  /** The JSON body of a response. */
  datatype Body =
    | ErrorBody(error: string)
    | Started(scanId: string, message: string)
    | RecordBody(record: ScanRecord)
    | RecordList(records: seq<ScanRecord>)
    | SummaryList(summaries: seq<Summary>)

  /** A JSON response and its HTTP status. */
  datatype Response = Response(body: Body, status: int)

  const OkStatus: int := 200
  const StartedMessage: string := "Scan started successfully"
}
