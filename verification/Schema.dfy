/**
  The canonical log event (pkg/schema/event.go): validation, log levels, the REST mapping in both
  directions, attribute maps and the broker payload codec.
 */
module Schema {
  import opened Results
  import opened Text

  /** Nanoseconds since the Unix epoch, UTC. */
  type Instant = int

  /** The zero time.Time: 1 January of year 1. */
  const ZERO_INSTANT: Instant := -62_135_596_800_000_000_000
  /** First instant of year 0 and first instant after year 9999, the range time.MarshalJSON accepts. */
  const YEAR_0: Instant := -62_167_219_200_000_000_000
  const YEAR_10000: Instant := 253_402_300_800_000_000_000

  /** A reading of time.Now, which is never the zero time. */
  type Reading = t: Instant | t != ZERO_INSTANT witness 0

  const NANOS_PER_MILLI := 1_000_000
  const TWO_64 := 0x1_0000_0000_0000_0000
  const TWO_63 := 0x8000_0000_0000_0000
  const TWO_16 := 0x1_0000

  type Uint64 = n: int | 0 <= n < TWO_64
  type Uint16 = n: int | 0 <= n < TWO_16
  type Int64 = n: int | -TWO_63 <= n < TWO_63

  /** The Go conversions int64(uint64), uint64(int64) and uint16(int), which keep the low bits. */
  function ToInt64(n: int): (r: Int64)
    ensures (r - n) % TWO_64 == 0
  {
    var low := n % TWO_64;
    if low < TWO_63 then low else low - TWO_64
  }

  function ToUint64(n: int): (r: Uint64)
    ensures (r - n) % TWO_64 == 0
  {
    n % TWO_64
  }

  function ToUint16(n: int): (r: Uint16)
    ensures (r - n) % TWO_16 == 0
  {
    n % TWO_16
  }

  /** A float64, by its bit pattern. */
  type Float64 = Uint64
  predicate IsFinite(f: Float64) { (f / 0x10_0000_0000_0000) % 0x800 != 0x7FF }

  /** A map[string]string: None is nil, which is not the same as an empty map. */
  type Attrs = Option<map<string, string>>

  datatype LogEvent = LogEvent(
    timestamp: Instant,
    id: Uint64,
    logLevel: string,
    message: string,
    service: string,
    host: string,
    environment: string,
    requestId: string,
    clientIp: string,
    userAgent: string,
    requestMethod: string,
    requestPath: string,
    responseStatus: Uint16,
    responseDurationMs: Float64,
    attrs: Attrs)

  datatype RestMetadata = RestMetadata(
    requestId: string,
    clientIp: string,
    userAgent: string,
    requestMethod: string,
    requestPath: string,
    responseStatus: Int64,
    responseDuration: Float64,
    extra: Attrs)

  datatype RestSource = RestSource(host: string, service: string, environment: string, extra: Attrs)

  datatype RestPayload = RestPayload(
    id: Uint64,
    timestamp: Uint64,
    logLevel: string,
    message: string,
    metadata: RestMetadata,
    source: RestSource)

  datatype Error =
    | EmptyMessage
    | EmptyService
    | InvalidLevel(level: string)
    | MissingTimestamp
    | UnsupportedValue
    | MalformedPayload
    | NilRequest

  // ---------- log levels and validation ----------

  const LEVELS: set<string> := {"DEBUG", "INFO", "WARN", "ERROR", "FATAL"}

  predicate ValidLogLevel(level: string) {
    ToUpper(TrimSpace(level)) in LEVELS
  }

  function NormalizeLogLevel(level: string): (r: string) {
    var upper := ToUpper(TrimSpace(level));
    if upper == "" then "INFO" else upper
  }

  /** The first failing check, in the order the checks are made; None when the event is valid. */
  function Validate(e: LogEvent): (r: Option<Error>) {
    if TrimSpace(e.message) == "" then Some(EmptyMessage)
    else if TrimSpace(e.service) == "" then Some(EmptyService)
    else if e.logLevel != "" && !ValidLogLevel(e.logLevel) then Some(InvalidLevel(e.logLevel))
    else if e.timestamp == ZERO_INSTANT then Some(MissingTimestamp)
    else None
  }

  /** Normalising is a projection onto the levels that are already upper case and trimmed. */
  lemma NormalizeProjects(level: string)
    ensures NormalizeLogLevel(NormalizeLogLevel(level)) == NormalizeLogLevel(level)
    ensures ValidLogLevel(NormalizeLogLevel(level)) <==> TrimSpace(level) == "" || ValidLogLevel(level)
    ensures ValidLogLevel(NormalizeLogLevel(level)) <==> NormalizeLogLevel(level) in LEVELS
    ensures NormalizeLogLevel(level) != ""
  {
    var trimmed := TrimSpace(level);
    TrimSpaceProjects(level);
    ToUpperProjects(trimmed);
    TrimSpaceProjects(ToUpper(trimmed));
    TrimSpaceProjects("INFO");
    ToUpperProjects("INFO");
    assert ToUpper("INFO") == "INFO";
    assert |ToUpper(trimmed)| == |trimmed|;
  }

  /** The five levels. */
  predicate IsName(name: string) { name in {"DEBUG", "INFO", "WARN", "ERROR", "FATAL"} }

  /** The level is known: its text between white space is one of the five names, in letters of either case. */
  predicate KnownLevel(level: string) {
    IsName(ToUpper(TrimSpace(level)))
  }

  lemma NamesAreLetters(name: string)
    requires IsName(name)
    ensures name != "" && name in LEVELS && forall i :: 0 <= i < |name| ==> 'A' <= name[i] <= 'Z'
  {
  }

  /** Its own normal form. */
  lemma NamesAreNormal(name: string)
    requires IsName(name)
    ensures NormalizeLogLevel(name) == name && KnownLevel(name)
  {
    NamesAreLetters(name);
    TrimSpaceProjects(name);
    UpperCaseSpells(name, name);
  }

  /**
    Levels by what they look like. Between white space a level spells one of the five names; normalising gives
    that name, INFO for a blank level, and otherwise the upper case of what is there, which is not a level.
   */
  lemma LevelNames(a: string, core: string, b: string, name: string)
    requires Blank(a) && Blank(b) && IsTrimmed(core) && IsName(name)
    ensures NormalizeLogLevel(a + core + b) == name <==> Spells(core, name) || (core == "" && name == "INFO")
    ensures Spells(core, name) ==> ValidLogLevel(a + core + b)
    ensures core != "" ==> NormalizeLogLevel(a + core + b) == ToUpper(core)
  {
    TrimSpaceOf(a, core, b);
    NamesAreLetters(name);
    UpperCaseSpells(core, name);
  }

  /** And a level that is valid spells one of the five. */
  lemma ValidLevelSpells(a: string, core: string, b: string)
    requires Blank(a) && Blank(b) && IsTrimmed(core) && ValidLogLevel(a + core + b)
    ensures exists name :: IsName(name) && Spells(core, name)
  {
    TrimSpaceOf(a, core, b);
    var name := ToUpper(core);
    assert IsName(name);
    NamesAreLetters(name);
    UpperCaseSpells(core, name);
  }

  /**
    What makes an event valid, and which of its faults is reported: the first of a message of white space only,
    such a service, a level that is given but not known, and the zero time.
   */
  lemma ValidIff(e: LogEvent)
    ensures Validate(e).None? <==>
              && (exists i :: 0 <= i < |e.message| && !IsSpace(e.message[i]))
              && (exists i :: 0 <= i < |e.service| && !IsSpace(e.service[i]))
              && (e.logLevel == "" || KnownLevel(e.logLevel))
              && e.timestamp != -62_135_596_800_000_000_000
    ensures Blank(e.message) <==> Validate(e) == Some(EmptyMessage)
    ensures !Blank(e.message) && Blank(e.service) <==> Validate(e) == Some(EmptyService)
    ensures !Blank(e.message) && !Blank(e.service) && e.logLevel != "" && !KnownLevel(e.logLevel)
            <==> Validate(e) == Some(InvalidLevel(e.logLevel))
    ensures Validate(e).Some? ==> Validate(e).value in {EmptyMessage, EmptyService, InvalidLevel(e.logLevel), MissingTimestamp}
  {
    var _, _ := TrimSpaceCuts(e.message);
    var _, _ := TrimSpaceCuts(e.service);
  }

  /** The same after normalisation, when a blank level has become INFO. */
  lemma ValidNormalised(e: LogEvent)
    ensures var r := Validate(e.(logLevel := NormalizeLogLevel(e.logLevel)));
            && (r.None? <==> && !Blank(e.message) && !Blank(e.service)
                             && (Blank(e.logLevel) || KnownLevel(e.logLevel))
                             && e.timestamp != -62_135_596_800_000_000_000)
            && (r == Some(EmptyMessage) <==> Blank(e.message))
            && (r == Some(EmptyService) <==> !Blank(e.message) && Blank(e.service))
            && (r == Some(MissingTimestamp) <==>
                  && !Blank(e.message) && !Blank(e.service) && (Blank(e.logLevel) || KnownLevel(e.logLevel))
                  && e.timestamp == -62_135_596_800_000_000_000)
  {
    var n := e.(logLevel := NormalizeLogLevel(e.logLevel));
    ValidIff(n);
    NormalizeProjects(e.logLevel);
    var _, _ := TrimSpaceCuts(e.logLevel);
  }

  /** What normalising makes of a level. */
  lemma NormalisedLevel(level: string)
    ensures NormalizeLogLevel(level) == if Blank(level) then "INFO" else ToUpper(TrimSpace(level))
  {
    var _, _ := TrimSpaceCuts(level);
  }

  // ---------- attribute maps ----------

  /** The entries of an attribute map; nil has none. */
  function Entries(m: Attrs): (r: map<string, string>) {
    if m.None? then map[] else m.value
  }

  /** The union of the maps without the empty key, where a later map wins. */
  function MergedEntries(maps: seq<Attrs>): (r: map<string, string>)
    decreases |maps|
  {
    if maps == [] then map[]
    else MergedEntries(maps[..|maps| - 1]) + (Entries(maps[|maps| - 1]) - {""})
  }

  /** What mergeAttrs returns: nil rather than an empty map. */
  function Merged(maps: seq<Attrs>): (r: Attrs) {
    if MergedEntries(maps) == map[] then None else Some(MergedEntries(maps))
  }

  /**
    mergeAttrs. Go visits the entries of a map in an arbitrary order; the choice of k below is just as
    free, and the result does not depend on it.
   */
  method MergeAttrs(maps: seq<Attrs>) returns (r: Attrs)
    ensures r == Merged(maps)
  {
    var out: map<string, string> := map[];
    for i := 0 to |maps|
      invariant out == MergedEntries(maps[..i])
    {
      var m := Entries(maps[i]);
      ghost var before := out;
      var keys := m.Keys;
      ghost var done: set<string> := {};
      while keys != {}
        invariant keys + done == m.Keys && keys !! done
        invariant out == before + (map k | k in done && k != "" :: m[k])
        decreases keys
      {
        var k :| k in keys;
        keys := keys - {k};
        done := done + {k};
        if k != "" {
          out := out[k := m[k]];
        }
      }
      assert (map k | k in done && k != "" :: m[k]) == m - {""};
      assert maps[..i + 1][..i] == maps[..i];
    }
    assert maps[..|maps|] == maps;
    r := if |out| == 0 then None else Some(out);
  }

  /** cloneMap: a copy of the entries, nil when there are none. */
  method CloneMap(m: Attrs) returns (r: Attrs)
    ensures r == if Entries(m) == map[] then None else m
  {
    if m.None? || |m.value| == 0 {
      return None;
    }
    var out: map<string, string> := map[];
    var keys := m.value.Keys;
    ghost var done: set<string> := {};
    while keys != {}
      invariant keys + done == m.value.Keys && keys !! done
      invariant out == map k | k in done :: m.value[k]
      decreases keys
    {
      var k :| k in keys;
      keys, done := keys - {k}, done + {k};
      out := out[k := m.value[k]];
    }
    assert out == m.value;
    return Some(out);
  }

  /** Two sources: the second map wins, the empty key never survives, and nil means no key did. */
  lemma MergedPair(a: Attrs, b: Attrs)
    ensures MergedEntries([a, b]) == (Entries(a) - {""}) + (Entries(b) - {""})
    ensures Merged([a, b]).None? <==> Entries(a).Keys + Entries(b).Keys <= {""}
    ensures "" !in Entries(Merged([a, b]))
  {
    assert [a, b][..1] == [a] && [a][..0] == [];
    assert MergedEntries([a]) == map[] + (Entries(a) - {""}) == Entries(a) - {""};
    var m := MergedEntries([a, b]);
    if m == map[] {
      forall k | k in Entries(a).Keys + Entries(b).Keys ensures k == "" {
        assert k != "" ==> k in m;
      }
    } else {
      var k :| k in m;
      assert k in Entries(a).Keys + Entries(b).Keys;
    }
  }

  /** The first of the keys that is present with a non-empty value. */
  predicate FirstPresent(attrs: map<string, string>, keys: seq<string>, i: nat) {
    && i < |keys| && keys[i] in attrs && attrs[keys[i]] != ""
    && forall j :: 0 <= j < i && keys[j] in attrs ==> attrs[keys[j]] == ""
  }

  function FirstAttrOf(attrs: map<string, string>, keys: seq<string>): (r: string)
    ensures r != "" <==> exists i: nat :: FirstPresent(attrs, keys, i)
    ensures forall i: nat :: FirstPresent(attrs, keys, i) ==> r == attrs[keys[i]]
  {
    if keys == [] then ""
    else if keys[0] in attrs && attrs[keys[0]] != "" then
      assert FirstPresent(attrs, keys, 0);
      attrs[keys[0]]
    else
      assert forall i: nat :: i < |keys| - 1 ==> keys[1..][i] == keys[i + 1];
      assert forall i: nat :: FirstPresent(attrs, keys[1..], i) ==> FirstPresent(attrs, keys, i + 1);
      assert forall i: nat :: FirstPresent(attrs, keys, i) ==> i > 0 && FirstPresent(attrs, keys[1..], i - 1);
      FirstAttrOf(attrs, keys[1..])
  }

  /** firstAttr, the loop with an early return. */
  method FirstAttr(attrs: Attrs, keys: seq<string>) returns (r: string)
    ensures r == FirstAttrOf(Entries(attrs), keys)
  {
    var m := Entries(attrs);
    for i := 0 to |keys|
      invariant FirstAttrOf(m, keys) == FirstAttrOf(m, keys[i..])
    {
      assert keys[i..][1..] == keys[i + 1..];
      if keys[i] in m && m[keys[i]] != "" {
        return m[keys[i]];
      }
    }
    return "";
  }

  /** A key whose text scans to a number that fits in sixteen bits. */
  predicate UsableStatus(attrs: map<string, string>, key: string) {
    key in attrs && attrs[key] != "" && ScanUint(attrs[key]).Some? && ScanUint(attrs[key]).value < TWO_16
  }

  predicate FirstUsable(attrs: map<string, string>, keys: seq<string>, i: nat) {
    i < |keys| && UsableStatus(attrs, keys[i]) && forall j :: 0 <= j < i ==> !UsableStatus(attrs, keys[j])
  }

  /** The number of the first usable key, 0 when none is. */
  function StatusOf(attrs: map<string, string>, keys: seq<string>): (r: Uint16)
    ensures forall i: nat :: FirstUsable(attrs, keys, i) ==> ScanUint(attrs[keys[i]]) == Some(r)
    ensures (forall i: nat :: !FirstUsable(attrs, keys, i)) ==> r == 0
  {
    if keys == [] then 0
    else if UsableStatus(attrs, keys[0]) then
      assert FirstUsable(attrs, keys, 0);
      ScanUint(attrs[keys[0]]).value
    else
      assert forall i: nat :: i < |keys| - 1 ==> keys[1..][i] == keys[i + 1];
      assert forall i: nat :: FirstUsable(attrs, keys[1..], i) ==> FirstUsable(attrs, keys, i + 1);
      assert forall i: nat :: FirstUsable(attrs, keys, i) ==> i > 0 && FirstUsable(attrs, keys[1..], i - 1);
      StatusOf(attrs, keys[1..])
  }

  /** parseUint16Attr, the loop with an early return. */
  method ParseUint16Attr(attrs: Attrs, keys: seq<string>) returns (r: Uint16)
    ensures r == StatusOf(Entries(attrs), keys)
  {
    var m := Entries(attrs);
    for i := 0 to |keys|
      invariant StatusOf(m, keys) == StatusOf(m, keys[i..])
    {
      assert keys[i..][1..] == keys[i + 1..];
      if keys[i] in m && m[keys[i]] != "" {
        var n := ScanUint(m[keys[i]]);
        if n.Some? && n.value <= 65535 {
          return n.value;
        }
      }
    }
    return 0;
  }

  // ---------- REST ----------

  function UnixMilli(ms: Int64): (r: Instant) { ms * NANOS_PER_MILLI }
  /** t.UnixMilli(): whole milliseconds rounded down, kept to 64 bits. */
  function ToUnixMilli(t: Instant): (r: Int64) { ToInt64(t / NANOS_PER_MILLI) }

  /** The event if it is valid, otherwise why not. */
  function Checked(e: LogEvent): (r: Result<LogEvent, Error>)
    ensures r.Ok? <==> Validate(e).None?
    ensures r.Ok? ==> r.value == e
  {
    match Validate(e)
    case Some(error) => Err(error)
    case None => Ok(e)
  }

  function RestEvent(p: RestPayload, now: Reading): (e: LogEvent) {
    LogEvent(
      if p.timestamp == 0 then now else UnixMilli(ToInt64(p.timestamp)),
      p.id,
      NormalizeLogLevel(p.logLevel),
      p.message,
      p.source.service, p.source.host, p.source.environment,
      p.metadata.requestId, p.metadata.clientIp, p.metadata.userAgent,
      p.metadata.requestMethod, p.metadata.requestPath,
      ToUint16(p.metadata.responseStatus),
      p.metadata.responseDuration,
      Merged([p.source.extra, p.metadata.extra]))
  }

  function FromRest(p: RestPayload, now: Reading): (r: Result<LogEvent, Error>) {
    Checked(RestEvent(p, now))
  }

  /**
    Which payloads are accepted, at any time: those with a message and a service that are not blank, a level that
    is blank or known, and any timestamp but the one of the zero time. The first of these faults is the error.
   */
  lemma RestAcceptedIff(p: RestPayload, now: Reading)
    ensures FromRest(p, now).Ok? <==>
              && !Blank(p.message) && !Blank(p.source.service)
              && (Blank(p.logLevel) || KnownLevel(p.logLevel))
              && p.timestamp != 18_446_681_938_112_751_616
    ensures FromRest(p, now) == Err(EmptyMessage) <==> Blank(p.message)
    ensures FromRest(p, now) == Err(EmptyService) <==> !Blank(p.message) && Blank(p.source.service)
    ensures FromRest(p, now) == Err(MissingTimestamp) <==>
              && !Blank(p.message) && !Blank(p.source.service)
              && (Blank(p.logLevel) || KnownLevel(p.logLevel))
              && p.timestamp == 18_446_681_938_112_751_616
  {
    var e := RestEvent(p, now).(logLevel := p.logLevel);
    ValidNormalised(e);
    assert RestEvent(p, now) == e.(logLevel := NormalizeLogLevel(e.logLevel));
    ZeroTimestamp(p.timestamp);
  }

  /** The one timestamp in milliseconds that reads as the zero time. */
  lemma ZeroTimestamp(ts: Uint64)
    ensures UnixMilli(ToInt64(ts)) == ZERO_INSTANT <==> ts == 18_446_681_938_112_751_616
  {
    if ts < TWO_63 {
      assert ToInt64(ts) == ts;
    } else {
      assert ToInt64(ts) == ts - TWO_64;
    }
  }

  /** Which field of an accepted payload becomes which field of the event. */
  lemma RestFields(p: RestPayload, now: Reading)
    requires FromRest(p, now).Ok?
    ensures var e := FromRest(p, now).value;
            && e.timestamp == (if p.timestamp == 0 then now else ToInt64(p.timestamp) * 1_000_000)
            && e.id == p.id && e.message == p.message
            && e.logLevel == (if Blank(p.logLevel) then "INFO" else ToUpper(TrimSpace(p.logLevel)))
            && e.service == p.source.service && e.host == p.source.host && e.environment == p.source.environment
            && e.requestId == p.metadata.requestId && e.clientIp == p.metadata.clientIp
            && e.userAgent == p.metadata.userAgent && e.requestMethod == p.metadata.requestMethod
            && e.requestPath == p.metadata.requestPath && e.responseDurationMs == p.metadata.responseDuration
            && e.responseStatus == p.metadata.responseStatus % 65_536
            && Entries(e.attrs) == (Entries(p.source.extra) + Entries(p.metadata.extra)) - {""}
            && e.attrs != Some(map[])
  {
    NormalisedLevel(p.logLevel);
    MergedBoth(p.source.extra, p.metadata.extra);
  }

  function ToRest(e: LogEvent): (r: RestPayload) {
    RestPayload(
      e.id,
      ToUint64(ToUnixMilli(e.timestamp)),
      e.logLevel,
      e.message,
      RestMetadata(e.requestId, e.clientIp, e.userAgent, e.requestMethod, e.requestPath,
                   e.responseStatus, e.responseDurationMs,
                   if Entries(e.attrs) == map[] then None else e.attrs),
      RestSource(e.host, e.service, e.environment, None))
  }

  /** Which field of any event, valid or not, becomes which field of its REST form. */
  lemma RestFormFields(e: LogEvent)
    ensures var p := ToRest(e);
            && p.timestamp == (e.timestamp / 1_000_000) % 18_446_744_073_709_551_616
            && p.id == e.id && p.message == e.message && p.logLevel == e.logLevel
            && p.source == RestSource(e.host, e.service, e.environment, None)
            && p.metadata.requestId == e.requestId && p.metadata.clientIp == e.clientIp
            && p.metadata.userAgent == e.userAgent && p.metadata.requestMethod == e.requestMethod
            && p.metadata.requestPath == e.requestPath && p.metadata.responseStatus == e.responseStatus
            && p.metadata.responseDuration == e.responseDurationMs
            && Entries(p.metadata.extra) == Entries(e.attrs) && p.metadata.extra != Some(map[])
  {
    SameResidue(e.timestamp / NANOS_PER_MILLI);
  }

  /** Through the signed 64-bit number to the unsigned one. */
  lemma SameResidue(n: int)
    ensures ToUint64(ToInt64(n)) == n % TWO_64
  {
  }

  /**
    The events that survive a trip through the REST shape: valid, level normalised, a whole number of
    milliseconds other than the epoch itself that fits in 64 bits, and attributes that are nil or a
    non-empty map without the empty key.
   */
  predicate RestCanonical(e: LogEvent) {
    && Validate(e).None?
    && NormalizeLogLevel(e.logLevel) == e.logLevel
    && e.timestamp % NANOS_PER_MILLI == 0
    && -TWO_63 <= e.timestamp / NANOS_PER_MILLI < TWO_63
    && e.timestamp != 0
    && (e.attrs.Some? ==> e.attrs.value != map[] && "" !in e.attrs.value)
  }

  lemma MergedOfOne(extra: Attrs)
    ensures Merged([None, extra]) == extra <==> (extra.Some? ==> extra.value != map[] && "" !in extra.value)
    ensures extra.Some? && extra.value != map[] && "" !in extra.value ==> Merged([None, extra]) == extra
  {
    MergedPair(None, extra);
    var m := Entries(extra);
    assert MergedEntries([None, extra]) == m - {""};
    if "" !in m {
      assert m - {""} == m;
    }
  }

  lemma MillisRoundTrip(t: Instant)
    ensures var ts := ToUint64(ToUnixMilli(t));
            (ts != 0 && UnixMilli(ToInt64(ts)) == t) <==>
            (t % NANOS_PER_MILLI == 0 && -TWO_63 <= t / NANOS_PER_MILLI < TWO_63 && t != 0)
  {
    var ms := t / NANOS_PER_MILLI;
    var ts := ToUint64(ToUnixMilli(t));
    assert ToInt64(ts) == ToInt64(ms);
    assert -TWO_63 <= ms < TWO_63 ==> ToInt64(ms) == ms;
    assert t == ms * NANOS_PER_MILLI + t % NANOS_PER_MILLI;
  }

  lemma RestTrip(e: LogEvent, now: Reading)
    ensures RestCanonical(e) ==> FromRest(ToRest(e), now) == Ok(e)
    ensures now != e.timestamp && FromRest(ToRest(e), now) == Ok(e) ==> RestCanonical(e)
  {
    var p := ToRest(e);
    MillisRoundTrip(e.timestamp);
    MergedOfOne(p.metadata.extra);
    assert ToUint16(e.responseStatus) == e.responseStatus;
    var ts := if p.timestamp == 0 then now else UnixMilli(ToInt64(p.timestamp));
    var r := e.(timestamp := ts, logLevel := NormalizeLogLevel(e.logLevel),
                attrs := Merged([None, p.metadata.extra]));
    assert RestEvent(p, now) == r;
    if e.attrs.Some? && e.attrs.value != map[] {
      assert p.metadata.extra == e.attrs;
    }
  }

  /** FromRest after ToRest gives the event back, whatever the clock says, for exactly the canonical events. */
  lemma FromRestToRest(e: LogEvent)
    ensures (forall now: Reading :: FromRest(ToRest(e), now) == Ok(e)) <==> RestCanonical(e)
  {
    forall now: Reading ensures RestCanonical(e) ==> FromRest(ToRest(e), now) == Ok(e) {
      RestTrip(e, now);
    }
    RestTrip(e, if e.timestamp == 1 then 2 else 1);
  }

  /** Every event accepted from a payload that carries a timestamp is canonical. */
  lemma AcceptedIsCanonical(p: RestPayload, now: Reading)
    requires p.timestamp != 0 && FromRest(p, now).Ok?
    ensures RestCanonical(FromRest(p, now).value)
  {
    var e := FromRest(p, now).value;
    NormalizeProjects(p.logLevel);
    MergedPair(p.source.extra, p.metadata.extra);
    assert e.timestamp == ToInt64(p.timestamp) * NANOS_PER_MILLI;
    assert e.timestamp / NANOS_PER_MILLI == ToInt64(p.timestamp);
    assert e.timestamp % NANOS_PER_MILLI == 0;
    assert ToInt64(p.timestamp) != 0;
  }

  /**
    What the canonical form carries: the payload's own timestamp, the normalised level, the status modulo
    2^16 and both extras merged with the metadata winning.
   */
  lemma RestFormOf(p: RestPayload, now: Reading)
    requires p.timestamp != 0 && FromRest(p, now).Ok?
    ensures var q := ToRest(FromRest(p, now).value);
            && q.timestamp == p.timestamp
            && q.logLevel in LEVELS && q.logLevel == NormalizeLogLevel(p.logLevel)
            && q.metadata.responseStatus == p.metadata.responseStatus % TWO_16
            && Entries(q.metadata.extra) == (Entries(p.source.extra) + Entries(p.metadata.extra)) - {""}
            && q.source.extra.None?
  {
    NormalizeProjects(p.logLevel);
    MergedBoth(p.source.extra, p.metadata.extra);
    TimestampTrip(p.timestamp);
  }

  lemma MergedBoth(a: Attrs, b: Attrs)
    ensures Entries(Merged([a, b])) == (Entries(a) + Entries(b)) - {""}
  {
    MergedPair(a, b);
    assert (Entries(a) - {""}) + (Entries(b) - {""}) == (Entries(a) + Entries(b)) - {""};
  }

  lemma TimestampTrip(ts: Uint64)
    ensures ToUint64(ToUnixMilli(UnixMilli(ToInt64(ts)))) == ts
  {
    assert UnixMilli(ToInt64(ts)) / NANOS_PER_MILLI == ToInt64(ts);
  }

  /**
    REST canonicalisation: mapping the canonical form of an accepted payload again, at any later time,
    gives back the same event and the same form.
   */
  lemma RestCanonicalisation(p: RestPayload, now: Reading, later: Reading)
    requires p.timestamp != 0 && FromRest(p, now).Ok?
    ensures var q := ToRest(FromRest(p, now).value);
            && FromRest(q, later) == FromRest(p, now)
            && ToRest(FromRest(q, later).value) == q
  {
    AcceptedIsCanonical(p, now);
    RestTrip(FromRest(p, now).value, later);
  }

  // ---------- broker payloads ----------

  /**
    A broker payload, up to what json.Unmarshal makes of it: a text it refuses, or a document standing
    for the LogEvent it fills in.
   */
  datatype Payload = Malformed | Document(fields: LogEvent)

  /** What json.Marshal can encode: finite floats and years 0 to 9999. */
  predicate JsonEncodable(e: LogEvent) {
    IsFinite(e.responseDurationMs) && YEAR_0 <= e.timestamp < YEAR_10000
  }

  /** omitempty drops an empty attribute map, so it comes back as nil. */
  function OmitEmpty(e: LogEvent): (r: LogEvent) {
    if e.attrs == Some(map[]) then e.(attrs := None) else e
  }

  function MarshalEvent(e: LogEvent): (r: Result<Payload, Error>) {
    match Validate(e)
    case Some(error) => Err(error)
    case None => if JsonEncodable(e) then Ok(Document(OmitEmpty(e))) else Err(UnsupportedValue)
  }

  function UnmarshalEvent(p: Payload): (r: Result<LogEvent, Error>) {
    match p
    case Malformed => Err(MalformedPayload)
    case Document(fields) =>
      Checked(fields.(logLevel := NormalizeLogLevel(fields.logLevel)))
  }

  /** The event a consumer sees: level normalised, an empty attribute map replaced by nil, all else as it was. */
  function Delivered(e: LogEvent): (r: LogEvent) {
    e.(logLevel := NormalizeLogLevel(e.logLevel), attrs := if Entries(e.attrs) == map[] then None else e.attrs)
  }

  /**
    Everything that can be published decodes, to the event with its level normalised and an empty attribute map
    replaced by nil; the decoded event is itself publishable and comes back unchanged. What can be published is
    what is valid, with a finite duration and a year of four digits.
   */
  lemma PublishedDecodes(e: LogEvent)
    ensures MarshalEvent(e).Ok? <==> Validate(e).None? && JsonEncodable(e)
    ensures JsonEncodable(e) <==> && (e.responseDurationMs / 4_503_599_627_370_496) % 2048 != 2047
                                  && -62_167_219_200_000_000_000 <= e.timestamp < 253_402_300_800_000_000_000
    ensures Validate(e).Some? ==> MarshalEvent(e) == Err(Validate(e).value)
    ensures Validate(e).None? && !JsonEncodable(e) ==> MarshalEvent(e) == Err(UnsupportedValue)
    ensures MarshalEvent(e).Ok? ==>
              UnmarshalEvent(MarshalEvent(e).value) ==
              Ok(e.(logLevel := NormalizeLogLevel(e.logLevel),
                    attrs := if Entries(e.attrs) == map[] then None else e.attrs))
    ensures Delivered(e) == e.(logLevel := NormalizeLogLevel(e.logLevel), attrs := Delivered(e).attrs)
    ensures Entries(Delivered(e).attrs) == Entries(e.attrs) && Delivered(e).attrs != Some(map[])
    ensures MarshalEvent(e).Ok? ==> UnmarshalEvent(MarshalEvent(e).value) == Ok(Delivered(e))
    ensures MarshalEvent(e).Ok? ==> MarshalEvent(Delivered(e)) == Ok(Document(Delivered(e)))
    ensures Delivered(Delivered(e)) == Delivered(e)
  {
    DeliveredIsValid(e);
    EncodableIff(e);
    if MarshalEvent(e).Ok? { DecodesTo(e); }
  }

  lemma EncodableIff(e: LogEvent)
    ensures JsonEncodable(e) <==> && (e.responseDurationMs / 4_503_599_627_370_496) % 2048 != 2047
                                  && -62_167_219_200_000_000_000 <= e.timestamp < 253_402_300_800_000_000_000
  {
  }

  lemma DecodesTo(e: LogEvent)
    requires MarshalEvent(e).Ok?
    ensures UnmarshalEvent(MarshalEvent(e).value) ==
            Ok(e.(logLevel := NormalizeLogLevel(e.logLevel),
                  attrs := if Entries(e.attrs) == map[] then None else e.attrs))
  {
    var d := MarshalEvent(e).value.fields;
    assert d.attrs == if Entries(e.attrs) == map[] then None else e.attrs;
    DeliveredIsValid(e);
  }

  lemma DeliveredIsValid(e: LogEvent)
    ensures Validate(e).None? ==> Validate(Delivered(e)).None?
    ensures Delivered(Delivered(e)) == Delivered(e)
  {
    NormalizeProjects(e.logLevel);
    assert e.logLevel == "" ==> TrimSpace(e.logLevel) == "";
  }

  /** What a consumer decodes is always valid, has one of the five levels and decodes again to itself. */
  lemma DecodedIsValid(p: Payload)
    requires UnmarshalEvent(p).Ok?
    ensures var e := UnmarshalEvent(p).value;
            && Validate(e).None? && IsName(e.logLevel)
            && UnmarshalEvent(Document(e)) == Ok(e)
  {
    NormalizeProjects(p.fields.logLevel);
  }

  /**
    What a consumer can decode: a document with a message and a service that are not blank, a level that is blank
    or known and a time; it gets the fields as they are, with the level normalised.
   */
  lemma DecodesIff(p: Payload)
    ensures UnmarshalEvent(p).Ok? <==>
              && p.Document? && !Blank(p.fields.message) && !Blank(p.fields.service)
              && (Blank(p.fields.logLevel) || KnownLevel(p.fields.logLevel))
              && p.fields.timestamp != -62_135_596_800_000_000_000
    ensures UnmarshalEvent(p).Ok? ==>
              UnmarshalEvent(p).value == p.fields.(logLevel := if Blank(p.fields.logLevel) then "INFO"
                                                               else ToUpper(TrimSpace(p.fields.logLevel)))
    ensures p.Malformed? ==> UnmarshalEvent(p) == Err(MalformedPayload)
  {
    if p.Document? {
      ValidNormalised(p.fields);
      NormalisedLevel(p.fields.logLevel);
    }
  }
}
