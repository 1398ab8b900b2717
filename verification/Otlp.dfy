/**
  OTLP requests into canonical events (pkg/schema/otlp.go and FromOTLPLike). A nil protobuf message reads
  as its zero value through the generated getters, so only list entries that are compared with nil and the
  request itself are optional here.
 */
module Otlp {
  import opened Results
  import opened Text
  import opened Schema

  /**
    An attribute value. Formatted stands for the doubles, byte strings, arrays and key-value lists, by the
    text the library prints for them.
   */
  datatype AnyValue = StringValue(s: string) | BoolValue(b: bool) | IntValue(n: Int64) | Formatted(text: string) | NoValue

  datatype KeyValue = KeyValue(key: string, value: AnyValue)

  /** now is the reading of time.Now when the record is mapped. */
  datatype LogRecord = LogRecord(
    timeUnixNano: Uint64,
    severityText: string,
    severityNumber: int,
    body: AnyValue,
    attributes: seq<Option<KeyValue>>,
    now: Reading)

  datatype ScopeLogs = ScopeLogs(records: seq<LogRecord>)
  datatype ResourceLogs = ResourceLogs(attributes: seq<Option<KeyValue>>, scopes: seq<ScopeLogs>)
  datatype ExportRequest = ExportRequest(resources: seq<ResourceLogs>)

  function AnyValueToString(v: AnyValue): (r: string) {
    match v
    case StringValue(s) => s
    case BoolValue(b) => if b then "true" else "false"
    case IntValue(n) => FormatInt(n)
    case Formatted(text) => text
    case NoValue => ""
  }

  /** First numbers of the severity ranges of the OpenTelemetry Logs Data Model, "Field: SeverityNumber". */
  const SEVERITY_DEBUG := 5
  const SEVERITY_INFO := 9
  const SEVERITY_WARN := 13
  const SEVERITY_ERROR := 17
  const SEVERITY_FATAL := 21

  function SeverityNumberToText(n: int): (r: string) {
    if n >= SEVERITY_FATAL then "FATAL"
    else if n >= SEVERITY_ERROR then "ERROR"
    else if n >= SEVERITY_WARN then "WARN"
    else if n >= SEVERITY_INFO then "INFO"
    else if n >= SEVERITY_DEBUG then "DEBUG"
    else "INFO"
  }

  /** How severe a level is. */
  function Rank(level: string): (r: nat) {
    match level
    case "DEBUG" => 0
    case "INFO" => 1
    case "WARN" => 2
    case "ERROR" => 3
    case _ => 4
  }

  /**
    A larger severity number never maps to a less severe level, with one exception: the numbers below the DEBUG
    range map to INFO, so they come out above DEBUG.
   */
  lemma SeverityOrder(a: int, b: int)
    requires a <= b
    ensures Rank(SeverityNumberToText(a)) <= Rank(SeverityNumberToText(b)) <==>
            !(a < SEVERITY_DEBUG && SEVERITY_DEBUG <= b < SEVERITY_INFO)
  {
  }

  /** The ranges of the OpenTelemetry Logs Data Model, four numbers for each of five levels; INFO for all below. */
  lemma SeverityRanges(n: int)
    ensures SeverityNumberToText(n) == "DEBUG" <==> 5 <= n <= 8
    ensures SeverityNumberToText(n) == "INFO" <==> n <= 4 || 9 <= n <= 12
    ensures SeverityNumberToText(n) == "WARN" <==> 13 <= n <= 16
    ensures SeverityNumberToText(n) == "ERROR" <==> 17 <= n <= 20
    ensures SeverityNumberToText(n) == "FATAL" <==> 21 <= n
  {
  }

  /** A severity number always stands for a level, spelt as levels are. */
  lemma SeverityIsLevel(n: int)
    ensures IsName(SeverityNumberToText(n)) && NormalizeLogLevel(SeverityNumberToText(n)) == SeverityNumberToText(n)
  {
    NamesAreNormal(SeverityNumberToText(n));
  }

  /** Texts of attribute values and bodies. */
  lemma ValueTexts(s: string, n: int)
    requires 0 <= n < TWO_63
    ensures AnyValueToString(StringValue(s)) == s && AnyValueToString(Formatted(s)) == s
    ensures AnyValueToString(NoValue) == ""
    ensures AnyValueToString(BoolValue(true)) == "true" && AnyValueToString(BoolValue(false)) == "false"
    ensures DigitsValue(AnyValueToString(IntValue(n))) == n
    ensures n > 0 ==> AnyValueToString(IntValue(-n)) == "-" + AnyValueToString(IntValue(n))
  {
    PrintedDecimal(n);
  }

  // ---------- attributes ----------

  /** The entry counts for key: it is not nil and carries that key. */
  predicate Carries(kv: Option<KeyValue>, key: string) { kv.Some? && kv.value.key == key }

  /** The value of the last entry that carries key, searching from the end. */
  function LastValue(kvs: seq<Option<KeyValue>>, key: string): (r: Option<string>)
    ensures r.Some? <==> exists i :: 0 <= i < |kvs| && Carries(kvs[i], key)
    decreases |kvs|
  {
    if kvs == [] then None
    else
      var last := |kvs| - 1;
      if Carries(kvs[last], key) then Some(AnyValueToString(kvs[last].value.value))
      else LastValue(kvs[..last], key)
  }

  /** m holds, for every non-empty key, what the last entry carrying that key says, and nothing else. */
  ghost predicate LastWins(m: map<string, string>, kvs: seq<Option<KeyValue>>) {
    && "" !in m
    && forall key :: key != "" ==>
         (key in m <==> LastValue(kvs, key).Some?) && (key in m ==> LastValue(kvs, key) == Some(m[key]))
  }

  lemma LastValueOfAppend(kvs: seq<Option<KeyValue>>, kv: Option<KeyValue>, key: string)
    ensures LastValue(kvs + [kv], key) ==
            if Carries(kv, key) then Some(AnyValueToString(kv.value.value)) else LastValue(kvs, key)
  {
    assert (kvs + [kv])[..|kvs|] == kvs;
  }

  lemma {:induction false} LastValueOfConcat(a: seq<Option<KeyValue>>, b: seq<Option<KeyValue>>, key: string)
    ensures LastValue(a + b, key) == if LastValue(b, key).Some? then LastValue(b, key) else LastValue(a, key)
    decreases |b|
  {
    if b == [] {
      assert a + b == a;
    } else {
      var front, last := b[..|b| - 1], b[|b| - 1];
      assert a + b == (a + front) + [last] && b == front + [last];
      LastValueOfAppend(a + front, last, key);
      LastValueOfConcat(a, front, key);
    }
  }

  /** keyValuesToMap: nil for an empty list, otherwise one pass with later entries overwriting. */
  method KeyValuesToMap(kvs: seq<Option<KeyValue>>) returns (r: Attrs)
    ensures r.None? <==> kvs == []
    ensures LastWins(Entries(r), kvs)
    ensures r == KeyValueMap(kvs)
  {
    if |kvs| == 0 {
      return None;
    }
    var out: map<string, string> := map[];
    for i := 0 to |kvs|
      invariant LastWins(out, kvs[..i])
    {
      var kv := kvs[i];
      forall key ensures LastValue(kvs[..i + 1], key) ==
          if Carries(kv, key) then Some(AnyValueToString(kv.value.value)) else LastValue(kvs[..i], key) {
        assert kvs[..i + 1] == kvs[..i] + [kv];
        LastValueOfAppend(kvs[..i], kv, key);
      }
      if kv.Some? && kv.value.key != "" {
        out := out[kv.value.key := AnyValueToString(kv.value.value)];
      }
    }
    assert kvs[..|kvs|] == kvs;
    KeyValueMapIsLastWins(kvs);
    LastWinsUnique(out, Entries(KeyValueMap(kvs)), kvs);
    return Some(out);
  }

  lemma LastWinsUnique(a: map<string, string>, b: map<string, string>, kvs: seq<Option<KeyValue>>)
    requires LastWins(a, kvs) && LastWins(b, kvs)
    ensures a == b
  {
    forall key ensures key in a <==> key in b {
      if key != "" { assert key in a <==> LastValue(kvs, key).Some?; }
    }
    forall key | key in a && key in b ensures a[key] == b[key] {
      assert Some(a[key]) == LastValue(kvs, key) == Some(b[key]);
    }
  }

  /** The map of an attribute list, by the last entry of every key it carries. */
  function KeyValueMap(kvs: seq<Option<KeyValue>>): (r: Attrs) {
    if kvs == [] then None
    else
      var keys := set i | 0 <= i < |kvs| && kvs[i].Some? && kvs[i].value.key != "" :: kvs[i].value.key;
      Some(map key | key in keys && LastValue(kvs, key).Some? :: LastValue(kvs, key).value)
  }

  lemma KeyValueMapIsLastWins(kvs: seq<Option<KeyValue>>)
    ensures LastWins(Entries(KeyValueMap(kvs)), kvs)
  {
    var m := Entries(KeyValueMap(kvs));
    forall key | key != "" && LastValue(kvs, key).Some? ensures key in m {
      var i :| 0 <= i < |kvs| && Carries(kvs[i], key);
      assert kvs[i].value.key == key;
    }
  }

  /**
    Attribute precedence. The merged attributes of a record hold, for every non-empty key, the value of
    the last entry carrying that key in the resource attributes followed by the record attributes, and
    they are nil exactly when no entry carries a non-empty key.
   */
  lemma AttributePrecedence(resource: seq<Option<KeyValue>>, record: seq<Option<KeyValue>>)
    ensures var attrs := Merged([KeyValueMap(resource), KeyValueMap(record)]);
            && LastWins(Entries(attrs), resource + record)
            && (attrs.None? <==> forall i :: 0 <= i < |resource + record| ==>
                  forall key :: key != "" ==> !Carries((resource + record)[i], key))
  {
    var a, b := KeyValueMap(resource), KeyValueMap(record);
    var attrs := Merged([a, b]);
    MergedPair(a, b);
    KeyValueMapIsLastWins(resource);
    KeyValueMapIsLastWins(record);
    var m := Entries(attrs);
    forall key | key != ""
      ensures (key in m <==> LastValue(resource + record, key).Some?)
      ensures key in m ==> LastValue(resource + record, key) == Some(m[key])
    {
      LastValueOfConcat(resource, record, key);
    }
    var all := resource + record;
    if attrs.Some? {
      var key :| key in attrs.value;
      assert LastValue(all, key).Some?;
      var i :| 0 <= i < |all| && Carries(all[i], key);
    } else {
      forall i, key | 0 <= i < |all| && key != "" ensures !Carries(all[i], key) {
        assert key !in m && LastValue(all, key).None?;
      }
    }
  }

  // ---------- records ----------

  const SERVICE_KEYS := ["service.name", "service"]
  const HOST_KEYS := ["host.name", "host"]
  const ENVIRONMENT_KEYS := ["deployment.environment", "environment"]
  const REQUEST_ID_KEYS := ["http.request_id", "request_id", "requestId"]
  const CLIENT_IP_KEYS := ["client.address", "client_ip", "clientIp"]
  const USER_AGENT_KEYS := ["user_agent.original", "user_agent", "userAgent"]
  const METHOD_KEYS := ["http.request.method", "request_method", "requestMethod"]
  const PATH_KEYS := ["url.path", "request_path", "requestPath"]
  const STATUS_KEYS := ["http.response.status_code", "response_status", "responseStatus"]
  const DURATION_KEYS := ["http.server.request.duration", "response_duration_ms", "responseDuration"]

  /** parseFloatAttr over a library scanner: the first key whose non-empty text scans as a float. */
  function DurationOf(scan: string -> Option<Float64>, attrs: map<string, string>, keys: seq<string>): (r: Float64) {
    if keys == [] then 0
    else if keys[0] in attrs && attrs[keys[0]] != "" && scan(attrs[keys[0]]).Some? then scan(attrs[keys[0]]).value
    else DurationOf(scan, attrs, keys[1..])
  }

  function OtlpEvent(scan: string -> Option<Float64>, now: Reading,
                     ts: Instant, severity: string, body: string, attrs: Attrs): (e: LogEvent)
  {
    var m := Entries(attrs);
    LogEvent(
      if ts == ZERO_INSTANT then now else ts,
      0,
      NormalizeLogLevel(severity),
      body,
      FirstAttrOf(m, SERVICE_KEYS), FirstAttrOf(m, HOST_KEYS), FirstAttrOf(m, ENVIRONMENT_KEYS),
      FirstAttrOf(m, REQUEST_ID_KEYS), FirstAttrOf(m, CLIENT_IP_KEYS), FirstAttrOf(m, USER_AGENT_KEYS),
      FirstAttrOf(m, METHOD_KEYS), FirstAttrOf(m, PATH_KEYS),
      StatusOf(m, STATUS_KEYS),
      DurationOf(scan, m, DURATION_KEYS),
      attrs)
  }

  function FromOtlpLike(scan: string -> Option<Float64>, now: Reading,
                        ts: Instant, severity: string, body: string, resource: Attrs, record: Attrs)
    : (r: Result<LogEvent, Error>)
    ensures r.Ok? ==> Validate(r.value).None?
  {
    Checked(OtlpEvent(scan, now, ts, severity, body, Merged([resource, record])))
  }

  function FromRecord(scan: string -> Option<Float64>, resource: Attrs, lr: LogRecord): (r: Result<LogEvent, Error>)
    ensures r.Ok? ==> Validate(r.value).None?
  {
    var ts := if lr.timeUnixNano == 0 then lr.now else ToInt64(lr.timeUnixNano);
    var severity := if lr.severityText == "" then SeverityNumberToText(lr.severityNumber) else lr.severityText;
    FromOtlpLike(scan, lr.now, ts, severity, AnyValueToString(lr.body), resource, KeyValueMap(lr.attributes))
  }

  /** A key whose text the scanner takes for a float. */
  predicate ScansAt(scan: string -> Option<Float64>, attrs: map<string, string>, key: string) {
    key in attrs && attrs[key] != "" && scan(attrs[key]).Some?
  }

  /** The duration is that of the first key whose text scans, 0 when there is none. */
  lemma {:induction false} DurationOfFirst(scan: string -> Option<Float64>, attrs: map<string, string>, keys: seq<string>, i: nat)
    requires i <= |keys| && forall j :: 0 <= j < i ==> !ScansAt(scan, attrs, keys[j])
    ensures i < |keys| && ScansAt(scan, attrs, keys[i]) ==> scan(attrs[keys[i]]) == Some(DurationOf(scan, attrs, keys))
    ensures i == |keys| ==> DurationOf(scan, attrs, keys) == 0
    decreases i
  {
    if i > 0 {
      assert !ScansAt(scan, attrs, keys[0]);
      forall j | 0 <= j < i - 1 ensures !ScansAt(scan, attrs, keys[1..][j]) {
        assert keys[1..][j] == keys[j + 1];
      }
      DurationOfFirst(scan, attrs, keys[1..], i - 1);
    }
  }

  /** The severity of a record is its text, or what its number stands for when it has no text. */
  function SeverityOf(lr: LogRecord): (r: string) {
    if lr.severityText != "" then lr.severityText
    else if lr.severityNumber >= 21 then "FATAL"
    else if lr.severityNumber >= 17 then "ERROR"
    else if lr.severityNumber >= 13 then "WARN"
    else if 5 <= lr.severityNumber <= 8 then "DEBUG"
    else "INFO"
  }

  /** The time of a record: its number read as a signed one, or the time of mapping when it is 0. */
  function TimeOf(lr: LogRecord): (r: Instant) {
    if lr.timeUnixNano == 0 then lr.now
    else if lr.timeUnixNano < 9_223_372_036_854_775_808 then lr.timeUnixNano
    else lr.timeUnixNano - 18_446_744_073_709_551_616
  }

  /** What a record's event holds, given the attributes of resource and record together. */
  predicate RecordFields(scan: string -> Option<Float64>, m: map<string, string>, lr: LogRecord, e: LogEvent) {
    RecordOwnFields(lr, e) && FieldsFromAttributes(scan, m, e)
  }

  predicate RecordOwnFields(lr: LogRecord, e: LogEvent) {
    && e.timestamp == TimeOf(lr)
    && e.id == 0
    && e.logLevel == (if Blank(SeverityOf(lr)) then "INFO" else ToUpper(TrimSpace(SeverityOf(lr))))
    && e.message == AnyValueToString(lr.body)
  }

  predicate FieldsFromAttributes(scan: string -> Option<Float64>, m: map<string, string>, e: LogEvent) {
    && e.service == FirstAttrOf(m, ["service.name", "service"])
    && e.host == FirstAttrOf(m, ["host.name", "host"])
    && e.environment == FirstAttrOf(m, ["deployment.environment", "environment"])
    && e.requestId == FirstAttrOf(m, ["http.request_id", "request_id", "requestId"])
    && e.clientIp == FirstAttrOf(m, ["client.address", "client_ip", "clientIp"])
    && e.userAgent == FirstAttrOf(m, ["user_agent.original", "user_agent", "userAgent"])
    && e.requestMethod == FirstAttrOf(m, ["http.request.method", "request_method", "requestMethod"])
    && e.requestPath == FirstAttrOf(m, ["url.path", "request_path", "requestPath"])
    && e.responseStatus == StatusOf(m, ["http.response.status_code", "response_status", "responseStatus"])
    && e.responseDurationMs ==
       DurationOf(scan, m, ["http.server.request.duration", "response_duration_ms", "responseDuration"])
  }

  lemma UnderItsNames(scan: string -> Option<Float64>, now: Reading, ts: Instant, severity: string, body: string, attrs: Attrs)
    ensures FieldsFromAttributes(scan, Entries(attrs), OtlpEvent(scan, now, ts, severity, body, attrs))
  {
  }

  /**
    FromOTLPLike for any time, severity and body: the zero time is replaced by the time of mapping, so that only a
    blank body, a blank service or an unknown level is refused; the attributes of the record win.
   */
  lemma OtlpLikeIsEvent(scan: string -> Option<Float64>, now: Reading, ts: Instant, severity: string, body: string,
                        resource: Attrs, record: Attrs)
    ensures var r := FromOtlpLike(scan, now, ts, severity, body, resource, record);
            var attrs := Merged([resource, record]); var m := Entries(attrs);
            && m == (Entries(resource) + Entries(record)) - {""}
            && (r.Ok? <==> && !Blank(body) && !Blank(FirstAttrOf(m, ["service.name", "service"]))
                           && (Blank(severity) || KnownLevel(severity)))
            && (r == Err(EmptyMessage) <==> Blank(body))
            && (r == Err(EmptyService) <==> !Blank(body) && Blank(FirstAttrOf(m, ["service.name", "service"])))
            && r != Err(MissingTimestamp)
            && (r.Ok? ==>
                  && r.value.timestamp == (if ts == -62_135_596_800_000_000_000 then now else ts)
                  && r.value.id == 0 && r.value.message == body && r.value.attrs == attrs
                  && r.value.logLevel == (if Blank(severity) then "INFO" else ToUpper(TrimSpace(severity)))
                  && FieldsFromAttributes(scan, m, r.value))
  {
    var attrs := Merged([resource, record]);
    MergedBoth(resource, record);
    NormalisedLevel(severity);
    UnderItsNames(scan, now, ts, severity, body, attrs);
    ValidNormalised(OtlpEvent(scan, now, ts, "", body, attrs).(logLevel := severity));
  }

  /** What the mapping of a record passes on. */
  lemma RecordArguments(scan: string -> Option<Float64>, resource: Attrs, lr: LogRecord)
    ensures FromRecord(scan, resource, lr) ==
            FromOtlpLike(scan, lr.now, TimeOf(lr), SeverityOf(lr), AnyValueToString(lr.body), resource,
                         KeyValueMap(lr.attributes))
    ensures TimeOf(lr) != -62_135_596_800_000_000_000
  {
    assert TimeOf(lr) == if lr.timeUnixNano == 0 then lr.now else ToInt64(lr.timeUnixNano);
    SeverityIs(lr);
  }

  lemma SeverityIs(lr: LogRecord)
    ensures SeverityOf(lr) == if lr.severityText == "" then SeverityNumberToText(lr.severityNumber) else lr.severityText
  {
  }

  /**
    A record and its event. The record maps exactly when its body and the service among its attributes are not
    blank and its severity is blank or a known level; a time is never missing. Its event then has the record's own
    time, read as a signed number, or the time of mapping when it is 0; the level of its severity text, or of its
    number when the text is empty; its body; each field under the names listed; and all the attributes.
   */
  lemma RecordIsEvent(scan: string -> Option<Float64>, resource: seq<Option<KeyValue>>, lr: LogRecord)
    ensures var r := FromRecord(scan, KeyValueMap(resource), lr);
            var attrs := Merged([KeyValueMap(resource), KeyValueMap(lr.attributes)]);
            && (r.Ok? <==> && !Blank(AnyValueToString(lr.body))
                           && !Blank(FirstAttrOf(Entries(attrs), ["service.name", "service"]))
                           && (Blank(SeverityOf(lr)) || KnownLevel(SeverityOf(lr))))
            && (r == Err(EmptyMessage) <==> Blank(AnyValueToString(lr.body)))
            && (r == Err(EmptyService) <==> && !Blank(AnyValueToString(lr.body))
                                            && Blank(FirstAttrOf(Entries(attrs), ["service.name", "service"])))
            && r != Err(MissingTimestamp)
            && (r.Ok? ==> RecordFields(scan, Entries(attrs), lr, r.value) && r.value.attrs == attrs)
  {
    RecordArguments(scan, KeyValueMap(resource), lr);
    OtlpLikeIsEvent(scan, lr.now, TimeOf(lr), SeverityOf(lr), AnyValueToString(lr.body), KeyValueMap(resource),
                    KeyValueMap(lr.attributes));
  }

  /**
    An integer status attribute, as a resource or record carries it: 0 to 65535 becomes the event's
    response status; any other integer is skipped in favour of the next key, never truncated.
   */
  lemma StatusAttribute(attrs: map<string, string>, keys: seq<string>, n: Int64)
    requires keys != [] && keys[0] in attrs && attrs[keys[0]] == AnyValueToString(IntValue(n))
    ensures StatusOf(attrs, keys) == if 0 <= n <= 65535 then n else StatusOf(attrs, keys[1..])
  {
    FormatThenScan(n);
  }

  /**
    The same through a whole record: when the last status_code entry is an integer, it is the response status
    if it fits in sixteen bits, and otherwise the next status keys decide.
   */
  lemma RecordStatus(scan: string -> Option<Float64>, resource: seq<Option<KeyValue>>, lr: LogRecord, i: nat, n: Int64)
    requires i < |resource + lr.attributes|
    requires (resource + lr.attributes)[i] == Some(KeyValue(STATUS_KEYS[0], IntValue(n)))
    requires forall j :: i < j < |resource + lr.attributes| ==> !Carries((resource + lr.attributes)[j], STATUS_KEYS[0])
    ensures var r := FromRecord(scan, KeyValueMap(resource), lr);
            var next := StatusOf(Entries(Merged([KeyValueMap(resource), KeyValueMap(lr.attributes)])), STATUS_KEYS[1..]);
            r.Ok? ==> r.value.responseStatus == if 0 <= n <= 65535 then n else next
  {
    var all := resource + lr.attributes;
    AttributePrecedence(resource, lr.attributes);
    LastValueAt(all, STATUS_KEYS[0], i);
    var m := Entries(Merged([KeyValueMap(resource), KeyValueMap(lr.attributes)]));
    assert STATUS_KEYS[0] != "";
    StatusAttribute(m, STATUS_KEYS, n);
  }

  lemma {:induction false} LastValueAt(kvs: seq<Option<KeyValue>>, key: string, i: nat)
    requires i < |kvs| && Carries(kvs[i], key)
    requires forall j :: i < j < |kvs| ==> !Carries(kvs[j], key)
    ensures LastValue(kvs, key) == Some(AnyValueToString(kvs[i].value.value))
    decreases |kvs|
  {
    if i < |kvs| - 1 { LastValueAt(kvs[..|kvs| - 1], key, i); }
  }

  // ---------- the two ways in ----------

  /** The attributes hold the value under the first of the keys and nothing under the others. */
  predicate Under(m: map<string, string>, keys: seq<string>, value: string) {
    keys != [] && keys[0] in m && m[keys[0]] == value && forall i :: 1 <= i < |keys| ==> keys[i] !in m
  }

  lemma {:induction false} NothingUnder(m: map<string, string>, keys: seq<string>)
    requires forall i :: 0 <= i < |keys| ==> keys[i] !in m
    ensures FirstAttrOf(m, keys) == ""
    decreases |keys|
  {
    if keys != [] { NothingUnder(m, keys[1..]); }
  }

  lemma FirstAttrUnder(m: map<string, string>, keys: seq<string>, value: string)
    requires Under(m, keys, value)
    ensures FirstAttrOf(m, keys) == value
  {
    NothingUnder(m, keys[1..]);
  }

  /** The attributes that carry the fields of a REST payload, each under its OpenTelemetry name. */
  predicate CarriesPayload(m: map<string, string>, p: RestPayload, duration: string) {
    CarriesSource(m, p) && CarriesResponse(m, p, duration)
  }

  predicate CarriesSource(m: map<string, string>, p: RestPayload) {
    && Under(m, SERVICE_KEYS, p.source.service)
    && Under(m, HOST_KEYS, p.source.host)
    && Under(m, ENVIRONMENT_KEYS, p.source.environment)
    && Under(m, REQUEST_ID_KEYS, p.metadata.requestId)
    && Under(m, CLIENT_IP_KEYS, p.metadata.clientIp)
  }

  predicate CarriesResponse(m: map<string, string>, p: RestPayload, duration: string) {
    && Under(m, USER_AGENT_KEYS, p.metadata.userAgent)
    && Under(m, METHOD_KEYS, p.metadata.requestMethod)
    && Under(m, PATH_KEYS, p.metadata.requestPath)
    && Under(m, STATUS_KEYS, FormatInt(p.metadata.responseStatus))
    && Under(m, DURATION_KEYS, duration)
  }

  /** The attributes an OpenTelemetry client sends for the payload. */
  function PayloadAttributes(p: RestPayload, duration: string): (m: map<string, string>) {
    map[SERVICE_KEYS[0] := p.source.service,
        HOST_KEYS[0] := p.source.host,
        ENVIRONMENT_KEYS[0] := p.source.environment,
        REQUEST_ID_KEYS[0] := p.metadata.requestId,
        CLIENT_IP_KEYS[0] := p.metadata.clientIp,
        USER_AGENT_KEYS[0] := p.metadata.userAgent,
        METHOD_KEYS[0] := p.metadata.requestMethod,
        PATH_KEYS[0] := p.metadata.requestPath,
        STATUS_KEYS[0] := FormatInt(p.metadata.responseStatus),
        DURATION_KEYS[0] := duration]
  }

  lemma AttributesUnder(m: map<string, string>, p: RestPayload, duration: string)
    requires CarriesPayload(m, p, duration)
    ensures FirstAttrOf(m, SERVICE_KEYS) == p.source.service
    ensures FirstAttrOf(m, HOST_KEYS) == p.source.host
    ensures FirstAttrOf(m, ENVIRONMENT_KEYS) == p.source.environment
    ensures FirstAttrOf(m, REQUEST_ID_KEYS) == p.metadata.requestId
    ensures FirstAttrOf(m, CLIENT_IP_KEYS) == p.metadata.clientIp
    ensures FirstAttrOf(m, USER_AGENT_KEYS) == p.metadata.userAgent
    ensures FirstAttrOf(m, METHOD_KEYS) == p.metadata.requestMethod
    ensures FirstAttrOf(m, PATH_KEYS) == p.metadata.requestPath
  {
    FirstAttrUnder(m, SERVICE_KEYS, p.source.service);
    FirstAttrUnder(m, HOST_KEYS, p.source.host);
    FirstAttrUnder(m, ENVIRONMENT_KEYS, p.source.environment);
    FirstAttrUnder(m, REQUEST_ID_KEYS, p.metadata.requestId);
    FirstAttrUnder(m, CLIENT_IP_KEYS, p.metadata.clientIp);
    FirstAttrUnder(m, USER_AGENT_KEYS, p.metadata.userAgent);
    FirstAttrUnder(m, METHOD_KEYS, p.metadata.requestMethod);
    FirstAttrUnder(m, PATH_KEYS, p.metadata.requestPath);
  }

  /**
    REST and OTLP agree. A payload accepted over REST and a log record that carries the same fields as
    attributes become the same event, but for the id, which only REST carries, and the attributes themselves.
   */
  lemma RestAndOtlpAgree(scan: string -> Option<Float64>, p: RestPayload, now: Reading, resource: Attrs, record: Attrs,
                         duration: string)
    requires FromRest(p, now).Ok? && 0 <= p.metadata.responseStatus < TWO_16
    requires CarriesPayload(Entries(Merged([resource, record])), p, duration)
    requires duration != "" && scan(duration) == Some(p.metadata.responseDuration)
    ensures FromOtlpLike(scan, now, FromRest(p, now).value.timestamp, p.logLevel, p.message, resource, record)
         == Ok(FromRest(p, now).value.(id := 0, attrs := Merged([resource, record])))
  {
    var m := Entries(Merged([resource, record]));
    CarriedYields(scan, m, p, duration);
    AgreeOnFields(scan, p, now, resource, record);
  }

  /**
    And every accepted payload whose status fits can be sent so: with its fields as record attributes under
    their OpenTelemetry names, none of which an alias shadows, it becomes the event that REST makes of it.
   */
  lemma RestSentAsOtlp(scan: string -> Option<Float64>, p: RestPayload, now: Reading, duration: string)
    requires 0 <= p.metadata.responseStatus < TWO_16
    requires duration != "" && scan(duration) == Some(p.metadata.responseDuration)
    ensures var attrs, rest := Some(PayloadAttributes(p, duration)), FromRest(p, now);
            rest.Ok? ==>
              FromOtlpLike(scan, now, rest.value.timestamp, p.logLevel, p.message, None, attrs)
              == Ok(rest.value.(id := 0, attrs := attrs))
  {
    if FromRest(p, now).Ok? {
      PayloadAttributesCarry(p, duration);
      RecordAlone(scan, p, now, PayloadAttributes(p, duration), duration);
    }
  }

  lemma PayloadAttributesCarry(p: RestPayload, duration: string)
    ensures var m := PayloadAttributes(p, duration);
            CarriesPayload(m, p, duration) && "" !in m && SERVICE_KEYS[0] in m
  {
    CarriesSourceFields(p, duration);
    CarriesResponseFields(p, duration);
  }

  lemma CarriesSourceFields(p: RestPayload, duration: string)
    ensures CarriesSource(PayloadAttributes(p, duration), p)
  {
  }

  lemma CarriesResponseFields(p: RestPayload, duration: string)
    ensures CarriesResponse(PayloadAttributes(p, duration), p, duration)
  {
  }

  /** A record whose resource has no attributes. */
  lemma RecordAlone(scan: string -> Option<Float64>, p: RestPayload, now: Reading, m: map<string, string>, duration: string)
    requires FromRest(p, now).Ok? && 0 <= p.metadata.responseStatus < TWO_16
    requires duration != "" && scan(duration) == Some(p.metadata.responseDuration)
    requires CarriesPayload(m, p, duration) && "" !in m && SERVICE_KEYS[0] in m
    ensures FromOtlpLike(scan, now, FromRest(p, now).value.timestamp, p.logLevel, p.message, None, Some(m))
         == Ok(FromRest(p, now).value.(id := 0, attrs := Some(m)))
  {
    MergedAlone(m, SERVICE_KEYS[0]);
    RestAndOtlpAgree(scan, p, now, None, Some(m), duration);
  }

  lemma MergedAlone(m: map<string, string>, key: string)
    requires key in m && "" !in m
    ensures Merged([None, Some(m)]) == Some(m)
  {
    MergedBoth(None, Some(m));
    assert (map[] + m) - {""} == m;
    assert Entries(Merged([None, Some(m)])) == m;
  }

  /** Attributes that yield the fields of the payload. */
  predicate Yields(scan: string -> Option<Float64>, m: map<string, string>, p: RestPayload) {
    && FirstAttrOf(m, SERVICE_KEYS) == p.source.service
    && FirstAttrOf(m, HOST_KEYS) == p.source.host
    && FirstAttrOf(m, ENVIRONMENT_KEYS) == p.source.environment
    && FirstAttrOf(m, REQUEST_ID_KEYS) == p.metadata.requestId
    && FirstAttrOf(m, CLIENT_IP_KEYS) == p.metadata.clientIp
    && FirstAttrOf(m, USER_AGENT_KEYS) == p.metadata.userAgent
    && FirstAttrOf(m, METHOD_KEYS) == p.metadata.requestMethod
    && FirstAttrOf(m, PATH_KEYS) == p.metadata.requestPath
    && StatusOf(m, STATUS_KEYS) == ToUint16(p.metadata.responseStatus)
    && DurationOf(scan, m, DURATION_KEYS) == p.metadata.responseDuration
  }

  lemma CarriedYields(scan: string -> Option<Float64>, m: map<string, string>, p: RestPayload, duration: string)
    requires CarriesPayload(m, p, duration) && 0 <= p.metadata.responseStatus < TWO_16
    requires duration != "" && scan(duration) == Some(p.metadata.responseDuration)
    ensures Yields(scan, m, p)
  {
    AttributesUnder(m, p, duration);
    StatusAttribute(m, STATUS_KEYS, p.metadata.responseStatus);
  }

  lemma SameEvent(scan: string -> Option<Float64>, p: RestPayload, now: Reading, attrs: Attrs)
    requires Yields(scan, Entries(attrs), p) && RestEvent(p, now).timestamp != ZERO_INSTANT
    ensures OtlpEvent(scan, now, RestEvent(p, now).timestamp, p.logLevel, p.message, attrs)
         == RestEvent(p, now).(id := 0, attrs := attrs)
  {
  }

  lemma AgreeOnFields(scan: string -> Option<Float64>, p: RestPayload, now: Reading, resource: Attrs, record: Attrs)
    requires FromRest(p, now).Ok? && Yields(scan, Entries(Merged([resource, record])), p)
    ensures FromOtlpLike(scan, now, FromRest(p, now).value.timestamp, p.logLevel, p.message, resource, record)
         == Ok(FromRest(p, now).value.(id := 0, attrs := Merged([resource, record])))
  {
    SameEvent(scan, p, now, Merged([resource, record]));
  }

  // ---------- whole requests ----------

  /** A record together with the attributes of the resource it belongs to. */
  datatype Sourced = Sourced(resource: Attrs, record: LogRecord)

  function SourcedRecords(resource: Attrs, records: seq<LogRecord>): (r: seq<Sourced>)
    ensures |r| == |records| && forall i :: 0 <= i < |r| ==> r[i] == Sourced(resource, records[i])
  {
    seq(|records|, i requires 0 <= i < |records| => Sourced(resource, records[i]))
  }

  function FlattenScopes(resource: Attrs, scopes: seq<ScopeLogs>): (r: seq<Sourced>)
    decreases |scopes|
  {
    if scopes == [] then []
    else FlattenScopes(resource, scopes[..|scopes| - 1]) + SourcedRecords(resource, scopes[|scopes| - 1].records)
  }

  /** Every record of the request, in resource, scope and record order. */
  function Flatten(resources: seq<ResourceLogs>): (r: seq<Sourced>)
    decreases |resources|
  {
    if resources == [] then []
    else
      var last := resources[|resources| - 1];
      Flatten(resources[..|resources| - 1]) + FlattenScopes(KeyValueMap(last.attributes), last.scopes)
  }

  function MapRecord(scan: string -> Option<Float64>, s: Sourced): (r: Result<LogEvent, Error>)
    ensures r.Ok? ==> Validate(r.value).None?
  {
    FromRecord(scan, s.resource, s.record)
  }

  /** Mapping in order, stopping at the first failure. */
  function MapAll<A>(f: A -> Result<LogEvent, Error>, all: seq<A>): (r: Result<seq<LogEvent>, Error>)
    decreases |all|
  {
    if all == [] then Ok([])
    else
      var front := MapAll(f, all[..|all| - 1]);
      if front.Err? then front
      else
        var last := f(all[|all| - 1]);
        if last.Err? then Err(last.error) else Ok(front.value + [last.value])
  }

  /** events are the items of all, mapped one by one. */
  predicate MapsTo<A>(f: A -> Result<LogEvent, Error>, all: seq<A>, events: seq<LogEvent>) {
    |events| == |all| && forall i :: 0 <= i < |all| ==> f(all[i]) == Ok(events[i])
  }

  /** i is the first item that does not map. */
  predicate FirstFailure<A>(f: A -> Result<LogEvent, Error>, all: seq<A>, i: nat) {
    i < |all| && f(all[i]).Err? && forall j :: 0 <= j < i ==> f(all[j]).Ok?
  }

  /**
    All or nothing: the events of all items in order exactly when every item maps, and otherwise the error
    of the first item that does not.
   */
  lemma {:induction false} MapAllIsAllOrNothing<A>(f: A -> Result<LogEvent, Error>, all: seq<A>)
    ensures MapAll(f, all).Ok? <==> forall i :: 0 <= i < |all| ==> f(all[i]).Ok?
    ensures MapAll(f, all).Ok? ==> MapsTo(f, all, MapAll(f, all).value)
    ensures MapAll(f, all).Err? ==>
              exists i: nat :: FirstFailure(f, all, i) && MapAll(f, all).error == f(all[i]).error
    decreases |all|
  {
    if all != [] {
      var front := all[..|all| - 1];
      MapAllIsAllOrNothing(f, front);
      if MapAll(f, front).Err? {
        var i: nat :| FirstFailure(f, front, i) && MapAll(f, front).error == f(front[i]).error;
        assert forall j :: 0 <= j <= i ==> all[j] == front[j];
        assert FirstFailure(f, all, i);
      } else {
        assert forall i :: 0 <= i < |front| ==> all[i] == front[i];
        if f(all[|all| - 1]).Err? {
          assert FirstFailure(f, all, |all| - 1);
        }
      }
    }
  }

  /** A failure among the first items is the failure of the whole. */
  lemma {:induction false} MapAllFailsEarly<A>(f: A -> Result<LogEvent, Error>, part: seq<A>, all: seq<A>)
    requires part <= all && MapAll(f, part).Err?
    ensures MapAll(f, all) == MapAll(f, part)
    decreases |all|
  {
    if |part| < |all| {
      MapAllFailsEarly(f, part, all[..|all| - 1]);
    } else {
      assert part == all;
    }
  }

  lemma MapAllStep<A>(f: A -> Result<LogEvent, Error>, all: seq<A>, s: A)
    requires MapAll(f, all).Ok?
    ensures MapAll(f, all + [s]) == match f(s)
                                    case Err(error) => Err(error)
                                    case Ok(e) => Ok(MapAll(f, all).value + [e])
  {
    assert (all + [s])[..|all|] == all;
  }

  /** The innermost loop of LogEventsFromOTLP: the records of one scope, after the records of base. */
  method MapScope(f: Sourced -> Result<LogEvent, Error>, ghost base: seq<Sourced>, before: seq<LogEvent>,
                  attrs: Attrs, records: seq<LogRecord>) returns (r: Result<seq<LogEvent>, Error>)
    requires MapAll(f, base) == Ok(before)
    ensures r == MapAll(f, base + SourcedRecords(attrs, records))
  {
    var events := before;
    ghost var all := SourcedRecords(attrs, records);
    ghost var done := base;
    for k := 0 to |records|
      invariant done == base + all[..k]
      invariant MapAll(f, done) == Ok(events)
    {
      var mapped := f(Sourced(attrs, records[k]));
      MapAllStep(f, done, all[k]);
      done := done + [all[k]];
      if mapped.Err? {
        MapAllFailsEarly(f, done, base + all);
        return Err(mapped.error);
      }
      events := events + [mapped.value];
    }
    assert all[..|records|] == all;
    return Ok(events);
  }

  /** The middle loop: the scopes of one resource. */
  method MapScopes(f: Sourced -> Result<LogEvent, Error>, ghost base: seq<Sourced>, before: seq<LogEvent>,
                   attrs: Attrs, scopes: seq<ScopeLogs>) returns (r: Result<seq<LogEvent>, Error>)
    requires MapAll(f, base) == Ok(before)
    ensures r == MapAll(f, base + FlattenScopes(attrs, scopes))
  {
    var events := before;
    ghost var done := base;
    for j := 0 to |scopes|
      invariant done == base + FlattenScopes(attrs, scopes[..j])
      invariant MapAll(f, done) == Ok(events)
    {
      var mapped := MapScope(f, done, events, attrs, scopes[j].records);
      ScopesStep(base, attrs, scopes, j);
      done := done + SourcedRecords(attrs, scopes[j].records);
      if mapped.Err? {
        MapAllFailsEarly(f, done, base + FlattenScopes(attrs, scopes));
        return mapped;
      }
      events := mapped.value;
    }
    assert scopes[..|scopes|] == scopes;
    return Ok(events);
  }

  lemma ScopesStep(base: seq<Sourced>, attrs: Attrs, scopes: seq<ScopeLogs>, j: nat)
    requires j < |scopes|
    ensures base + FlattenScopes(attrs, scopes[..j]) + SourcedRecords(attrs, scopes[j].records)
         == base + FlattenScopes(attrs, scopes[..j + 1])
    ensures base + FlattenScopes(attrs, scopes[..j + 1]) <= base + FlattenScopes(attrs, scopes)
  {
    assert scopes[..j + 1][..j] == scopes[..j];
    ScopesPrefix(attrs, scopes, j + 1);
  }

  /** The outer loop: the resources of a request. */
  method MapResources(f: Sourced -> Result<LogEvent, Error>, resources: seq<ResourceLogs>) returns (r: Result<seq<LogEvent>, Error>)
    ensures r == MapAll(f, Flatten(resources))
  {
    var events: seq<LogEvent> := [];
    for i := 0 to |resources|
      invariant MapAll(f, Flatten(resources[..i])) == Ok(events)
    {
      var resourceAttrs := KeyValuesToMap(resources[i].attributes);
      var mapped := MapScopes(f, Flatten(resources[..i]), events, resourceAttrs, resources[i].scopes);
      assert resources[..i + 1][..i] == resources[..i];
      if mapped.Err? {
        ResourcesPrefix(resources, i + 1);
        MapAllFailsEarly(f, Flatten(resources[..i + 1]), Flatten(resources));
        return mapped;
      }
      events := mapped.value;
    }
    assert resources[..|resources|] == resources;
    return Ok(events);
  }

  /** What a request maps to. */
  function MapRequest(scan: string -> Option<Float64>, req: Option<ExportRequest>): (r: Result<seq<LogEvent>, Error>) {
    if req.None? then Err(NilRequest) else MapAll(s => MapRecord(scan, s), Flatten(req.value.resources))
  }

  /** LogEventsFromOTLP. */
  method LogEventsFromOtlp(scan: string -> Option<Float64>, req: Option<ExportRequest>) returns (r: Result<seq<LogEvent>, Error>)
    ensures r == MapRequest(scan, req)
    ensures req.None? ==> r == Err(NilRequest)
    ensures req.Some? && r.Ok? ==> |r.value| == CountRecords(req.value.resources)
  {
    if req.None? {
      return Err(NilRequest);
    }
    r := MapResources(s => MapRecord(scan, s), req.value.resources);
    MappedRequestIsPublishable(scan, req.value);
  }

  lemma {:induction false} ScopesPrefix(resource: Attrs, scopes: seq<ScopeLogs>, j: nat)
    requires j <= |scopes|
    ensures FlattenScopes(resource, scopes[..j]) <= FlattenScopes(resource, scopes)
    decreases |scopes|
  {
    if j == |scopes| {
      assert scopes[..j] == scopes;
    } else {
      assert scopes[..|scopes| - 1][..j] == scopes[..j];
      ScopesPrefix(resource, scopes[..|scopes| - 1], j);
    }
  }

  lemma {:induction false} ResourcesPrefix(resources: seq<ResourceLogs>, i: nat)
    requires i <= |resources|
    ensures Flatten(resources[..i]) <= Flatten(resources)
    decreases |resources|
  {
    if i == |resources| {
      assert resources[..i] == resources;
    } else {
      assert resources[..|resources| - 1][..i] == resources[..i];
      ResourcesPrefix(resources[..|resources| - 1], i);
    }
  }

  function CountScopes(scopes: seq<ScopeLogs>): (r: nat) {
    if scopes == [] then 0 else |scopes[0].records| + CountScopes(scopes[1..])
  }

  /** The number of records in a request. */
  function CountRecords(resources: seq<ResourceLogs>): (r: nat) {
    if resources == [] then 0 else CountScopes(resources[0].scopes) + CountRecords(resources[1..])
  }

  lemma {:induction false} CountScopesBack(scopes: seq<ScopeLogs>)
    requires scopes != []
    ensures CountScopes(scopes) == CountScopes(scopes[..|scopes| - 1]) + |scopes[|scopes| - 1].records|
    decreases |scopes|
  {
    if |scopes| > 1 {
      CountScopesBack(scopes[1..]);
      assert scopes[..|scopes| - 1][1..] == scopes[1..][..|scopes| - 2];
    }
  }

  lemma {:induction false} CountRecordsBack(resources: seq<ResourceLogs>)
    requires resources != []
    ensures CountRecords(resources) ==
            CountRecords(resources[..|resources| - 1]) + CountScopes(resources[|resources| - 1].scopes)
    decreases |resources|
  {
    if |resources| > 1 {
      CountRecordsBack(resources[1..]);
      assert resources[..|resources| - 1][1..] == resources[1..][..|resources| - 2];
    }
  }

  lemma {:induction false} FlattenScopesLength(attrs: Attrs, scopes: seq<ScopeLogs>)
    ensures |FlattenScopes(attrs, scopes)| == CountScopes(scopes)
    decreases |scopes|
  {
    if scopes != [] {
      CountScopesBack(scopes);
      FlattenScopesLength(attrs, scopes[..|scopes| - 1]);
    }
  }

  /** Flattening keeps every record: none is dropped or repeated. */
  lemma {:induction false} FlattenLength(resources: seq<ResourceLogs>)
    ensures |Flatten(resources)| == CountRecords(resources)
    decreases |resources|
  {
    if resources != [] {
      var last := resources[|resources| - 1];
      CountRecordsBack(resources);
      FlattenScopesLength(KeyValueMap(last.attributes), last.scopes);
      FlattenLength(resources[..|resources| - 1]);
    }
  }

  /** How many records come before record k of scope j of resource i. */
  function Position(resources: seq<ResourceLogs>, i: nat, j: nat, k: nat): (n: nat)
    requires i < |resources| && j < |resources[i].scopes|
  {
    CountRecords(resources[..i]) + CountScopes(resources[i].scopes[..j]) + k
  }

  lemma {:induction false} CountScopesOf(attrs: Attrs, scopes: seq<ScopeLogs>, j: nat, k: nat)
    requires j < |scopes| && k < |scopes[j].records|
    ensures var at := CountScopes(scopes[..j]) + k;
            at < |FlattenScopes(attrs, scopes)| && FlattenScopes(attrs, scopes)[at] == Sourced(attrs, scopes[j].records[k])
    decreases |scopes|
  {
    var last := |scopes| - 1;
    if j < last {
      CountScopesOf(attrs, scopes[..last], j, k);
      assert scopes[..last][..j] == scopes[..j];
    } else {
      FlattenScopesLength(attrs, scopes[..last]);
    }
  }

  /** Flattening puts every record, with the attributes of its own resource, where the loops come to it. */
  lemma {:induction false} FlattenOrder(resources: seq<ResourceLogs>, i: nat, j: nat, k: nat)
    requires i < |resources| && j < |resources[i].scopes| && k < |resources[i].scopes[j].records|
    ensures var at := Position(resources, i, j, k);
            && at < |Flatten(resources)|
            && Flatten(resources)[at] == Sourced(KeyValueMap(resources[i].attributes), resources[i].scopes[j].records[k])
    decreases |resources|
  {
    var last := |resources| - 1;
    FlattenLength(resources[..last]);
    if i < last {
      FlattenOrder(resources[..last], i, j, k);
      assert resources[..last][..i] == resources[..i];
    } else {
      CountScopesOf(KeyValueMap(resources[i].attributes), resources[i].scopes, j, k);
    }
  }

  /**
    A request that maps gives as many events as it has records, every one of them valid and so refused by
    MarshalEvent only for a float or a year that JSON cannot carry.
   */
  lemma MappedRequestIsPublishable(scan: string -> Option<Float64>, req: ExportRequest)
    ensures MapRequest(scan, Some(req)).Ok? ==>
              var events := MapRequest(scan, Some(req)).value;
              && |events| == CountRecords(req.resources)
              && (forall i :: 0 <= i < |events| ==> Validate(events[i]).None?)
              && (forall i :: 0 <= i < |events| ==> (MarshalEvent(events[i]).Ok? <==> JsonEncodable(events[i])))
  {
    if MapRequest(scan, Some(req)).Err? { return; }
    var all, f := Flatten(req.resources), s => MapRecord(scan, s);
    FlattenLength(req.resources);
    MapAllIsAllOrNothing(f, all);
    var events := MapAll(f, all).value;
    forall i | 0 <= i < |events| ensures Validate(events[i]).None? {
      assert f(all[i]) == Ok(events[i]);
    }
  }

  /**
    Which event is which record's: the event at a record's position, counted in resource, scope and record order,
    is the one the record maps to.
   */
  lemma EventsInOrder(scan: string -> Option<Float64>, req: ExportRequest, i: nat, j: nat, k: nat)
    requires i < |req.resources| && j < |req.resources[i].scopes| && k < |req.resources[i].scopes[j].records|
    ensures var resource := req.resources[i];
            var mapped := FromRecord(scan, KeyValueMap(resource.attributes), resource.scopes[j].records[k]);
            var at := Position(req.resources, i, j, k);
            && (MapRequest(scan, Some(req)).Ok? ==>
                  at < |MapRequest(scan, Some(req)).value| && mapped == Ok(MapRequest(scan, Some(req)).value[at]))
            && (mapped.Err? ==> MapRequest(scan, Some(req)).Err?)
  {
    var all, f := Flatten(req.resources), s => MapRecord(scan, s);
    FlattenOrder(req.resources, i, j, k);
    MapAllIsAllOrNothing(f, all);
    var at := Position(req.resources, i, j, k);
    assert f(all[at]) == FromRecord(scan, all[at].resource, all[at].record);
  }

  predicate HasRecord(resources: seq<ResourceLogs>, i: nat, j: nat, k: nat) {
    i < |resources| && j < |resources[i].scopes| && k < |resources[i].scopes[j].records|
  }

  lemma {:induction false} ScopeRecordAt(attrs: Attrs, scopes: seq<ScopeLogs>, at: nat) returns (j: nat, k: nat)
    requires at < |FlattenScopes(attrs, scopes)|
    ensures j < |scopes| && k < |scopes[j].records| && FlattenScopes(attrs, scopes)[at] == Sourced(attrs, scopes[j].records[k])
    decreases |scopes|
  {
    var last := |scopes| - 1;
    var before := |FlattenScopes(attrs, scopes[..last])|;
    if at < before {
      j, k := ScopeRecordAt(attrs, scopes[..last], at);
    } else {
      j, k := last, at - before;
    }
  }

  /** Everything in the flattened request is some record of it. */
  lemma {:induction false} RecordAt(resources: seq<ResourceLogs>, at: nat) returns (i: nat, j: nat, k: nat)
    requires at < |Flatten(resources)|
    ensures HasRecord(resources, i, j, k)
    ensures Flatten(resources)[at] == Sourced(KeyValueMap(resources[i].attributes), resources[i].scopes[j].records[k])
    decreases |resources|
  {
    var last := |resources| - 1;
    var before := |Flatten(resources[..last])|;
    if at < before {
      i, j, k := RecordAt(resources[..last], at);
    } else {
      i := last;
      j, k := ScopeRecordAt(KeyValueMap(resources[i].attributes), resources[i].scopes, at - before);
    }
  }

  /** A record that can become an event: a body, a service and a severity, none of them unusable. */
  predicate Usable(resource: seq<Option<KeyValue>>, lr: LogRecord) {
    && !Blank(AnyValueToString(lr.body))
    && !Blank(FirstAttrOf(Entries(Merged([KeyValueMap(resource), KeyValueMap(lr.attributes)])), ["service.name", "service"]))
    && (Blank(SeverityOf(lr)) || KnownLevel(SeverityOf(lr)))
  }

  ghost predicate AllUsable(resources: seq<ResourceLogs>) {
    forall i: nat, j: nat, k: nat | HasRecord(resources, i, j, k) ::
      Usable(resources[i].attributes, resources[i].scopes[j].records[k])
  }

  /** A request maps exactly when it is there and every record of it is usable. */
  lemma RequestAcceptedIff(scan: string -> Option<Float64>, req: Option<ExportRequest>)
    ensures MapRequest(scan, req).Ok? <==> req.Some? && AllUsable(req.value.resources)
  {
    if req.None? { return; }
    var resources := req.value.resources;
    var all, f := Flatten(resources), s => MapRecord(scan, s);
    MapAllIsAllOrNothing(f, all);
    if AllUsable(resources) {
      forall at | 0 <= at < |all| ensures f(all[at]).Ok? {
        var i, j, k := RecordAt(resources, at);
        RecordIsEvent(scan, resources[i].attributes, resources[i].scopes[j].records[k]);
      }
    } else {
      var i: nat, j: nat, k: nat :| HasRecord(resources, i, j, k)
                                    && !Usable(resources[i].attributes, resources[i].scopes[j].records[k]);
      EventsInOrder(scan, req.value, i, j, k);
      RecordIsEvent(scan, resources[i].attributes, resources[i].scopes[j].records[k]);
    }
  }
}
