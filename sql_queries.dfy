/**
 * The SQL side of the time-series store (backend/timescaledb.js): the
 * statements each helper sends through the connection pool, the
 * step-by-step builder of the history query with its `$k` placeholders,
 * and the rule that a failed query yields no rows and a failed write
 * yields `false` instead of throwing.
 *
 * The pool is a function from a statement to what the database did.
 */
module SqlQueries {
  import opened Js

  type Row = map<string, Json>

  /** Text and bound parameters of one `pool.query` call. */
  datatype SqlCall = SqlCall(text: string, params: seq<Json>)

  /** What `pool.query` did: returned rows, or threw. */
  datatype PoolOutcome = Rows(rows: seq<Row>) | Failed

  type Pool = SqlCall -> PoolOutcome

  const InsertReadingText := "\n      SELECT insert_sensor_reading($1, $2, $3, $4, $5)\n    "
  const LatestByTypeText := "\n      SELECT * FROM get_latest_readings_by_type($1)\n    "
  const AllLatestText := "\n      SELECT \n        device_id,\n        device_type,\n        time,\n        data,\n        location\n      FROM latest_sensor_readings\n      ORDER BY device_type, device_id\n    "
  const DeviceSummaryText := "\n      SELECT * FROM device_summary ORDER BY device_type\n    "
  // The base of the history query, line by line.
  const SelectLine := "\n      SELECT "
  const DeviceIdLine := "\n        device_id,"
  const DeviceTypeLine := "\n        device_type,"
  const TimeLine := "\n        time,"
  const DataLine := "\n        data,"
  const LocationLine := "\n        location,"
  const MetadataLine := "\n        metadata"
  const FromLine := "\n      FROM sensor_readings"
  const WhereLine := "\n      WHERE 1=1"
  const ClosingLine := "\n    "
  const SelectReadingsText := SelectLine + DeviceIdLine + DeviceTypeLine + TimeLine + DataLine
    + LocationLine + MetadataLine + FromLine + WhereLine + ClosingLine
  const UpdateStatusText := "\n      INSERT INTO device_status (device_id, device_type, status, error_message, metadata)\n      SELECT $1, device_type, $2, $3, $4\n      FROM device_status \n      WHERE device_id = $1 \n      ORDER BY time DESC \n      LIMIT 1\n    "
  const HourlyAveragesText := "\n      SELECT \n        time_bucket('1 hour', time) AS hour,\n        device_type,\n        AVG((data->>'value')::numeric) as avg_value,\n        MIN((data->>'value')::numeric) as min_value,\n        MAX((data->>'value')::numeric) as max_value,\n        COUNT(*) as reading_count\n      FROM sensor_readings\n      WHERE device_type = $1\n        AND time >= $2\n        AND time <= $3\n        AND data->>'value' IS NOT NULL\n      GROUP BY hour, device_type\n      ORDER BY hour DESC\n    "
  const OrderByText := " ORDER BY time DESC"
  const DefaultLimit := 100.0

  // ---------------------------------------------------------------------
  // Error handling shared by every helper

  /** A read helper returns the rows, or `[]` when the query threw. */
  function RowsOrEmpty(o: PoolOutcome): (rows: seq<Row>)
    ensures o.Failed? ==> rows == []
    ensures o.Rows? ==> rows == o.rows
  {
    if o.Rows? then o.rows else []
  }

  /** The pool call of a write: a call that throws sends the write to its `catch`, which returns `false`. */
  function Succeeded(o: PoolOutcome): (ok: bool)
    ensures ok <==> o.Rows?
  {
    o.Rows?
  }

  // ---------------------------------------------------------------------
  // The fixed statements

  /**
   * `insertSensorReading`: the reading and its metadata go as JSON text;
   * absent metadata is `null`.  The success log line prints `deviceId`
   * inside the same `try`, so a `deviceId` that cannot be printed turns a
   * successful write into `false`.
   */
  function InsertSensorReading(deviceId: Json, deviceType: Json, location: Json, data: Json,
                               metadata: Json, rt: Runtime, pool: Pool): (ok: bool)
    ensures var call := SqlCall(InsertReadingText,
        [deviceId, deviceType, location, JStr(rt.jsonText(data)),
         if Truthy(metadata) then JStr(rt.jsonText(metadata)) else JNull]);
      ok <==> pool(call).Rows? && JsString(deviceId, rt).Some?
  {
    var metadataParam := if Truthy(metadata) then JStr(rt.jsonText(metadata)) else JNull;
    Succeeded(pool(SqlCall(InsertReadingText,
      [deviceId, deviceType, location, JStr(rt.jsonText(data)), metadataParam])))
    && JsString(deviceId, rt).Some?
  }

  /** `getLatestReadingsByType`. */
  function GetLatestReadingsByType(deviceType: Json, pool: Pool): (rows: seq<Row>)
    ensures var o := pool(SqlCall(LatestByTypeText, [deviceType]));
      rows == if o.Rows? then o.rows else []
  {
    RowsOrEmpty(pool(SqlCall(LatestByTypeText, [deviceType])))
  }

  /** `getAllLatestReadings`: no parameters are bound. */
  function GetAllLatestReadings(pool: Pool): (rows: seq<Row>)
    ensures var o := pool(SqlCall(AllLatestText, []));
      rows == if o.Rows? then o.rows else []
  {
    RowsOrEmpty(pool(SqlCall(AllLatestText, [])))
  }

  /** `getDeviceSummary`. */
  function GetDeviceSummary(pool: Pool): (rows: seq<Row>)
    ensures var o := pool(SqlCall(DeviceSummaryText, []));
      rows == if o.Rows? then o.rows else []
  {
    RowsOrEmpty(pool(SqlCall(DeviceSummaryText, [])))
  }

  /**
   * `updateDeviceStatus`: `errorMessage` and `metadata` default to `null`.
   * The success log line prints `deviceId` and `status` inside the same
   * `try`, so either one that cannot be printed turns a successful write
   * into `false`.
   */
  function UpdateDeviceStatus(deviceId: Json, status: Json, errorMessage: Json, metadata: Json,
                              rt: Runtime, pool: Pool): (ok: bool)
    ensures var call := SqlCall(UpdateStatusText,
        [deviceId, status, errorMessage, if Truthy(metadata) then JStr(rt.jsonText(metadata)) else JNull]);
      ok <==> pool(call).Rows? && JsString(deviceId, rt).Some? && JsString(status, rt).Some?
  {
    var metadataParam := if Truthy(metadata) then JStr(rt.jsonText(metadata)) else JNull;
    Succeeded(pool(SqlCall(UpdateStatusText, [deviceId, status, errorMessage, metadataParam])))
    && JsString(deviceId, rt).Some? && JsString(status, rt).Some?
  }

  /** A write whose log line throws reports failure even though the pool call succeeded. */
  lemma UnprintableIdFailsWrite(status: Json, rt: Runtime, pool: Pool)
    requires forall call :: pool(call) == Rows([])
    ensures var id := JObj(map["toString" := JNull]);
      !InsertSensorReading(id, JNull, JNull, JNull, JNull, rt, pool)
      && !UpdateDeviceStatus(id, status, JNull, JNull, rt, pool)
  {
  }

  /** `getHourlyAverages`: the type and both window ends are bound, in that order. */
  function GetHourlyAverages(deviceType: Json, startTime: Json, endTime: Json, pool: Pool): (rows: seq<Row>)
    ensures var o := pool(SqlCall(HourlyAveragesText, [deviceType, startTime, endTime]));
      rows == if o.Rows? then o.rows else []
  {
    RowsOrEmpty(pool(SqlCall(HourlyAveragesText, [deviceType, startTime, endTime])))
  }

  // ---------------------------------------------------------------------
  // Decimal text of the placeholder numbers, and reading it back

  /** `s` holds no placeholder sign. */
  predicate NoDollar(s: string)
  {
    forall i :: 0 <= i < |s| ==> s[i] != '$'
  }

  function DigitChar(d: nat): (c: char)
    requires d < 10
    ensures IsDigit(c) && c as int - '0' as int == d
  {
    (48 + d) as char
  }

  /** `${n}` for a whole number `n`. */
  function Decimal(n: nat): (s: string)
    ensures |s| >= 1
    ensures AllDigits(s)
  {
    if n < 10 then [DigitChar(n)] else Decimal(n / 10) + [DigitChar(n % 10)]
  }

  /** The value of a run of digits. */
  function DigitsValue(s: string): nat
    requires AllDigits(s)
  {
    if s == [] then 0
    else
      var last := s[|s| - 1];
      assert IsDigit(last);
      10 * DigitsValue(s[..|s| - 1]) + (last as int - '0' as int)
  }

  /** The longest prefix of `s` made of digits. */
  function LeadingDigits(s: string): (r: string)
    ensures |r| <= |s| && r == s[..|r|]
    ensures AllDigits(r)
  {
    if s != [] && IsDigit(s[0]) then [s[0]] + LeadingDigits(s[1..]) else []
  }

  /** The numbers written after each `$` of a statement, in text order. */
  function Placeholders(s: string): seq<nat>
  {
    if s == [] then []
    else if s[0] == '$' then [DigitsValue(LeadingDigits(s[1..]))] + Placeholders(s[1..])
    else Placeholders(s[1..])
  }

  /** `[k, k + 1, ..., k + n - 1]`. */
  function Iota(k: nat, n: nat): (r: seq<nat>)
    ensures |r| == n && forall i :: 0 <= i < n ==> r[i] == k + i
    decreases n
  {
    if n == 0 then [] else [k] + Iota(k + 1, n - 1)
  }

  /** Reading a placeholder number back gives the number written. */
  lemma {:induction false} DecimalRoundTrip(n: nat)
    ensures DigitsValue(Decimal(n)) == n
  {
    if n >= 10 {
      DecimalRoundTrip(n / 10);
      var s := Decimal(n);
      assert s[..|s| - 1] == Decimal(n / 10);
    }
  }

  lemma {:induction false} LeadingDigitsStop(a: string, b: string)
    requires AllDigits(a)
    requires b == [] || !IsDigit(b[0])
    ensures LeadingDigits(a + b) == a
  {
    if a != [] {
      assert (a + b)[1..] == a[1..] + b;
      LeadingDigitsStop(a[1..], b);
    }
  }

  lemma {:induction false} LeadingDigitsAppend(a: string, b: string)
    requires b == [] || !IsDigit(b[0])
    ensures LeadingDigits(a + b) == LeadingDigits(a)
  {
    if b == [] {
      assert a + b == a;
    } else if a == [] {
      assert a + b == b;
    } else {
      assert (a + b)[1..] == a[1..] + b;
      if IsDigit(a[0]) {
        LeadingDigitsAppend(a[1..], b);
      }
    }
  }

  /** Concatenation is associative. */
  lemma AppendAssoc<T>(x: seq<T>, y: seq<T>, z: seq<T>)
    ensures (x + y) + z == x + (y + z)
  {
  }
  /** Placeholders of a concatenation, when the second part cannot extend a number of the first. */
  lemma {:induction false} PlaceholdersAppend(a: string, b: string)
    requires b == [] || !IsDigit(b[0])
    ensures Placeholders(a + b) == Placeholders(a) + Placeholders(b)
  {
    if a == [] {
      assert a + b == b;
    } else {
      assert (a + b)[1..] == a[1..] + b;
      PlaceholdersAppend(a[1..], b);
      if a[0] == '$' {
        LeadingDigitsAppend(a[1..], b);
      }
    }
  }

  lemma {:induction false} NoPlaceholders(s: string)
    requires NoDollar(s)
    ensures Placeholders(s) == []
  {
    if s != [] {
      NoPlaceholders(s[1..]);
    }
  }

  /** `$` followed by the decimal text of `k`, then a non-digit: exactly the placeholder `k`. */
  lemma {:induction false} PlaceholderPiece(k: nat, t: string)
    requires t == [] || !IsDigit(t[0])
    ensures Placeholders("$" + Decimal(k) + t) == [k] + Placeholders(t)
  {
    var d := Decimal(k);
    assert ("$" + d + t)[1..] == d + t;
    LeadingDigitsStop(d, t);
    DecimalRoundTrip(k);
    PlaceholdersAppend(d, t);
    NoPlaceholders(d);
  }

  // ---------------------------------------------------------------------
  // The history query of getSensorReadings

  /** The optional filters, in the order the builder tests them. */
  datatype Filter = DeviceIdIs | DeviceTypeIs | NotBefore | NotAfter

  /**
   * The text each filter appends before its placeholder number: an equality
   * on the device columns, inclusive bounds on `time`.
   */
  function ClausePrefix(f: Filter): string
  {
    match f
    case DeviceIdIs => " AND device_id = $"
    case DeviceTypeIs => " AND device_type = $"
    case NotBefore => " AND time >= $"
    case NotAfter => " AND time <= $"
  }

  /** The text one filter appends when it receives placeholder `k`. */
  function Clause(f: Filter, k: nat): string
  {
    ClausePrefix(f) + Decimal(k)
  }

  /** Each prefix starts with a space and holds one `$`, at its end. */
  lemma ClausePrefixShape(f: Filter)
    ensures var p := ClausePrefix(f);
      |p| >= 2 && p[0] == ' ' && p[|p| - 1] == '$' && NoDollar(p[..|p| - 1])
  {
  }

  /** The clauses for filters `fs`, numbered from `k`. */
  function Clauses(fs: seq<Filter>, k: nat): string
  {
    if fs == [] then "" else Clause(fs[0], k) + Clauses(fs[1..], k + 1)
  }

  /** The four optional arguments of `getSensorReadings`. */
  datatype Criteria = Criteria(deviceId: Json, deviceType: Json, startTime: Json, endTime: Json)

  /** The argument each filter compares with. */
  function Argument(f: Filter, c: Criteria): Json
  {
    match f
    case DeviceIdIs => c.deviceId
    case DeviceTypeIs => c.deviceType
    case NotBefore => c.startTime
    case NotAfter => c.endTime
  }

  /** The arguments of a filter list, in the same order. */
  function Arguments(fs: seq<Filter>, c: Criteria): (vs: seq<Json>)
    ensures |vs| == |fs|
  {
    if fs == [] then [] else Arguments(fs[..|fs| - 1], c) + [Argument(fs[|fs| - 1], c)]
  }

  /** Position of a filter in the builder's fixed order. */
  function Rank(f: Filter): nat
  {
    match f
    case DeviceIdIs => 0
    case DeviceTypeIs => 1
    case NotBefore => 2
    case NotAfter => 3
  }

  /** The filters in the order the builder tests them. */
  const AllFilters := [DeviceIdIs, DeviceTypeIs, NotBefore, NotAfter]

  /** `[f]` when the builder adds filter `f`, that is when its argument is truthy. */
  function Active(f: Filter, c: Criteria): seq<Filter>
  {
    if Truthy(Argument(f, c)) then [f] else []
  }

  /** The filters of `fs` whose argument is truthy, in order. */
  function Select(fs: seq<Filter>, c: Criteria): seq<Filter>
  {
    if fs == [] then [] else Select(fs[..|fs| - 1], c) + Active(fs[|fs| - 1], c)
  }

  /** The filters `getSensorReadings` adds for the given arguments. */
  function ActiveFilters(c: Criteria): seq<Filter>
  {
    Select(AllFilters, c)
  }

  /** Filters in strictly increasing rank: each at most once, in the builder's order. */
  predicate Ranked(fs: seq<Filter>)
  {
    forall i, j :: 0 <= i < j < |fs| ==> Rank(fs[i]) < Rank(fs[j])
  }

  lemma {:induction false} SelectMembers(fs: seq<Filter>, c: Criteria, f: Filter)
    ensures f in Select(fs, c) <==> f in fs && Truthy(Argument(f, c))
  {
    if fs != [] {
      var init := fs[..|fs| - 1];
      SelectMembers(init, c, f);
      assert fs == init + [fs[|fs| - 1]];
    }
  }

  lemma {:induction false} SelectRanked(fs: seq<Filter>, c: Criteria)
    requires Ranked(fs)
    ensures Ranked(Select(fs, c))
  {
    if fs != [] {
      var init := fs[..|fs| - 1];
      var last := fs[|fs| - 1];
      SelectRanked(init, c);
      var s := Select(init, c);
      forall i | 0 <= i < |s|
        ensures Rank(s[i]) < Rank(last)
      {
        SelectMembers(init, c, s[i]);
        var j :| 0 <= j < |init| && init[j] == s[i];
        assert fs[j] == init[j];
      }
    }
  }

  /** A filter is active exactly when its argument is truthy. */
  lemma ActiveFiltersMembers(c: Criteria, f: Filter)
    ensures f in ActiveFilters(c) <==> Truthy(Argument(f, c))
  {
    SelectMembers(AllFilters, c, f);
    assert AllFilters[Rank(f)] == f;
  }

  /** The active filters appear once each, in the builder's fixed order. */
  lemma ActiveFiltersRanked(c: Criteria)
    ensures Ranked(ActiveFilters(c))
  {
    SelectRanked(AllFilters, c);
  }

  /** `[v]` when `v` is truthy, else nothing. */
  function Keep(v: Json): seq<Json>
  {
    if Truthy(v) then [v] else []
  }

  /** The values among `vs` that are truthy, in order. */
  function TruthyOnly(vs: seq<Json>): seq<Json>
  {
    if vs == [] then [] else TruthyOnly(vs[..|vs| - 1]) + Keep(vs[|vs| - 1])
  }

  /** The truthy values are the values, less the falsy ones: none is dropped that is truthy. */
  lemma {:induction false} TruthyOnlyMembers(vs: seq<Json>, v: Json)
    ensures v in TruthyOnly(vs) <==> v in vs && Truthy(v)
  {
    if vs != [] {
      TruthyOnlyMembers(vs[..|vs| - 1], v);
      assert vs == vs[..|vs| - 1] + [vs[|vs| - 1]];
    }
  }

  lemma {:induction false} ArgumentsAppend(a: seq<Filter>, b: seq<Filter>, c: Criteria)
    ensures Arguments(a + b, c) == Arguments(a, c) + Arguments(b, c)
  {
    if b == [] {
      assert a + b == a;
    } else {
      var init := b[..|b| - 1];
      assert (a + b)[..|a + b| - 1] == a + init;
      ArgumentsAppend(a, init, c);
      AppendAssoc(Arguments(a, c), Arguments(init, c), [Argument(b[|b| - 1], c)]);
    }
  }

  /** The arguments of the selected filters are the truthy arguments of all of them. */
  lemma {:induction false} SelectArguments(fs: seq<Filter>, c: Criteria)
    ensures Arguments(Select(fs, c), c) == TruthyOnly(Arguments(fs, c))
  {
    if fs != [] {
      var init := fs[..|fs| - 1];
      var last := fs[|fs| - 1];
      SelectArguments(init, c);
      ArgumentsAppend(Select(init, c), Active(last, c), c);
      assert Arguments(Active(last, c), c) == Keep(Argument(last, c)) by {
        if Truthy(Argument(last, c)) {
          assert [last][..0] == [];
        }
      }
      var vs := Arguments(fs, c);
      assert vs[..|vs| - 1] == Arguments(init, c);
    }
  }

  /** The four filters' arguments, in the order the builder tests them. */
  lemma AllArguments(c: Criteria)
    ensures Arguments(AllFilters, c) == [c.deviceId, c.deviceType, c.startTime, c.endTime]
  {
    var a1, a2, a3 := [DeviceIdIs], [DeviceIdIs, DeviceTypeIs], [DeviceIdIs, DeviceTypeIs, NotBefore];
    assert a1[..0] == [];
    assert Arguments(a1, c) == [c.deviceId];
    assert a2[..1] == a1;
    assert Arguments(a2, c) == [c.deviceId, c.deviceType];
    assert a3[..2] == a2;
    assert Arguments(a3, c) == [c.deviceId, c.deviceType, c.startTime];
    assert AllFilters[..3] == a3;
  }

  lemma TruthyOnlySnoc(vs: seq<Json>, v: Json)
    ensures TruthyOnly(vs + [v]) == TruthyOnly(vs) + Keep(v)
  {
    assert (vs + [v])[..|vs|] == vs;
  }

  /** An omitted `limit` is 100. */
  function LimitArgument(limit: Option<Json>): Json
  {
    if limit.None? then JNum(DefaultLimit) else limit.value
  }

  function LimitClause(lim: Json, k: nat): string
  {
    if Truthy(lim) then " LIMIT $" + Decimal(k) else ""
  }

  /** One clause contributes exactly its own placeholder. */
  lemma {:induction false} ClausePlaceholders(f: Filter, k: nat, u: string)
    requires u == [] || !IsDigit(u[0])
    ensures Placeholders(Clause(f, k) + u) == [k] + Placeholders(u)
  {
    var p := ClausePrefix(f);
    ClausePrefixShape(f);
    var head := p[..|p| - 1];
    var tail := "$" + Decimal(k) + u;
    assert p == head + "$";
    assert Clause(f, k) + u == head + tail by {
      AppendAssoc(head, "$", Decimal(k));
      AppendAssoc(head + "$", Decimal(k), u);
      AppendAssoc(head, "$" + Decimal(k), u);
    }
    NoPlaceholders(head);
    PlaceholdersAppend(head, tail);
    PlaceholderPiece(k, u);
  }

  lemma ClausesStart(fs: seq<Filter>, k: nat)
    ensures Clauses(fs, k) == [] || Clauses(fs, k)[0] == ' '
  {
    if fs != [] {
      assert Clauses(fs, k) == Clause(fs[0], k) + Clauses(fs[1..], k + 1);
      ClausePrefixShape(fs[0]);
    }
  }

  lemma {:induction false} ClausesPlaceholders(fs: seq<Filter>, k: nat, t: string)
    requires t == [] || !IsDigit(t[0])
    ensures Placeholders(Clauses(fs, k) + t) == Iota(k, |fs|) + Placeholders(t)
  {
    if fs == [] {
      assert Clauses(fs, k) + t == t;
    } else {
      var rest := Clauses(fs[1..], k + 1) + t;
      var tail := Iota(k + 1, |fs| - 1);
      assert Placeholders(rest) == tail + Placeholders(t) by {
        ClausesPlaceholders(fs[1..], k + 1, t);
      }
      assert Placeholders(Clauses(fs, k) + t) == [k] + Placeholders(rest) by {
        ClausesStart(fs[1..], k + 1);
        AppendAssoc(Clause(fs[0], k), Clauses(fs[1..], k + 1), t);
        ClausePlaceholders(fs[0], k, rest);
      }
      assert Iota(k, |fs|) == [k] + tail;
      AppendAssoc([k], tail, Placeholders(t));
    }
  }

  lemma {:induction false} IotaSnoc(k: nat, n: nat)
    ensures Iota(k, n) + [k + n] == Iota(k, n + 1)
  {
  }

  lemma {:induction false} ClausesSnoc(fs: seq<Filter>, f: Filter, k: nat)
    ensures Clauses(fs + [f], k) == Clauses(fs, k) + Clause(f, k + |fs|)
  {
    if fs == [] {
      assert Clauses([f], k) == Clause(f, k) + Clauses([], k + 1);
    } else {
      assert (fs + [f])[1..] == fs[1..] + [f];
      ClausesSnoc(fs[1..], f, k + 1);
    }
  }

  lemma NoDollarConcat(a: string, b: string)
    requires NoDollar(a) && NoDollar(b)
    ensures NoDollar(a + b)
  {
    assert forall i :: |a| <= i < |a| + |b| ==> (a + b)[i] == b[i - |a|];
  }

  lemma SelectHasNoPlaceholder()
    ensures Placeholders(SelectReadingsText) == []
  {
    assert NoDollar(SelectLine) && NoDollar(DeviceIdLine) && NoDollar(DeviceTypeLine);
    assert NoDollar(TimeLine) && NoDollar(DataLine) && NoDollar(LocationLine);
    assert NoDollar(MetadataLine) && NoDollar(FromLine) && NoDollar(WhereLine) && NoDollar(ClosingLine);
    var s := SelectLine;
    NoDollarConcat(s, DeviceIdLine); s := s + DeviceIdLine;
    NoDollarConcat(s, DeviceTypeLine); s := s + DeviceTypeLine;
    NoDollarConcat(s, TimeLine); s := s + TimeLine;
    NoDollarConcat(s, DataLine); s := s + DataLine;
    NoDollarConcat(s, LocationLine); s := s + LocationLine;
    NoDollarConcat(s, MetadataLine); s := s + MetadataLine;
    NoDollarConcat(s, FromLine); s := s + FromLine;
    NoDollarConcat(s, WhereLine); s := s + WhereLine;
    NoDollarConcat(s, ClosingLine); s := s + ClosingLine;
    NoPlaceholders(s);
  }

  /** The arguments of the active filters, then a truthy limit, are the truthy arguments in order. */
  lemma ParametersAreTruthyArguments(c: Criteria, lim: Json)
    ensures Arguments(ActiveFilters(c), c) + Keep(lim)
      == TruthyOnly([c.deviceId, c.deviceType, c.startTime, c.endTime, lim])
  {
    SelectArguments(AllFilters, c);
    AllArguments(c);
    var vs := [c.deviceId, c.deviceType, c.startTime, c.endTime, lim];
    assert vs[..4] == Arguments(AllFilters, c);
  }

  /**
   * The statement `getSensorReadings` sends: the base query, one clause per
   * truthy filter argument in the fixed order, `ORDER BY time DESC`, then
   * `LIMIT` when the limit is truthy.
   */
  function SensorReadingsStatement(c: Criteria, limit: Option<Json>): SqlCall
  {
    Statement(SelectReadingsText, ActiveFilters(c), c, LimitArgument(limit))
  }

  /** `base`, the clauses of `fs`, the ordering and the limit clause, with their arguments. */
  function Statement(base: string, fs: seq<Filter>, c: Criteria, lim: Json): SqlCall
  {
    SqlCall(base + Clauses(fs, 1) + OrderByText + LimitClause(lim, |fs| + 1), Arguments(fs, c) + Keep(lim))
  }

  /**
   * The parameters of the history query are exactly the truthy arguments,
   * the limit last, and its placeholders are `$1..$n` in text order: the
   * k-th placeholder is bound to the k-th truthy argument.
   */
  lemma SensorReadingsStatementSpec(c: Criteria, limit: Option<Json>)
    ensures var call := SensorReadingsStatement(c, limit);
      && call.params == TruthyOnly([c.deviceId, c.deviceType, c.startTime, c.endTime, LimitArgument(limit)])
      && Placeholders(call.text) == Iota(1, |call.params|)
  {
    var fs := ActiveFilters(c);
    var lim := LimitArgument(limit);
    SelectHasNoPlaceholder();
    StatementPlaceholders(SelectReadingsText, fs, lim);
    ParametersAreTruthyArguments(c, lim);
  }

  /** With every filter argument falsy and no `limit`, the statement binds only the default limit 100, as `$1`. */
  lemma NoFiltersDefaultLimit(c: Criteria)
    requires !Truthy(c.deviceId) && !Truthy(c.deviceType) && !Truthy(c.startTime) && !Truthy(c.endTime)
    ensures var call := SensorReadingsStatement(c, None);
      call.params == [JNum(DefaultLimit)] && Placeholders(call.text) == [1]
  {
    var fs := ActiveFilters(c);
    assert fs == [] by {
      SelectArguments(AllFilters, c);
      AllArguments(c);
      TruthyOnlyFalsy([c.deviceId, c.deviceType, c.startTime, c.endTime]);
    }
    SelectHasNoPlaceholder();
    StatementPlaceholders(SelectReadingsText, fs, LimitArgument(None));
    assert Iota(1, 1) == [1];
  }

  lemma {:induction false} TruthyOnlyFalsy(vs: seq<Json>)
    requires forall v :: v in vs ==> !Truthy(v)
    ensures TruthyOnly(vs) == []
  {
    if vs != [] {
      var init := vs[..|vs| - 1];
      assert forall v :: v in init ==> v in vs;
      TruthyOnlyFalsy(init);
    }
  }

  lemma OrderByLimitPlaceholders(lim: Json, k: nat)
    ensures Placeholders(OrderByText + LimitClause(lim, k)) == (if Truthy(lim) then [k] else [])
  {
    assert NoDollar(OrderByText);
    if Truthy(lim) {
      var d := "$" + Decimal(k);
      var head := OrderByText + " LIMIT ";
      assert NoDollar(" LIMIT ");
      NoDollarConcat(OrderByText, " LIMIT ");
      NoPlaceholders(head);
      assert " LIMIT $" == " LIMIT " + "$";
      assert " LIMIT $" + Decimal(k) == " LIMIT " + d;
      assert OrderByText + LimitClause(lim, k) == head + (d + "");
      PlaceholderPiece(k, "");
      PlaceholdersAppend(head, d + "");
      assert Placeholders("") == [];
    } else {
      assert OrderByText + LimitClause(lim, k) == OrderByText;
      NoPlaceholders(OrderByText);
    }
  }

  lemma {:induction false} StatementPlaceholders(base: string, fs: seq<Filter>, lim: Json)
    requires Placeholders(base) == []
    ensures var n := |fs| + (if Truthy(lim) then 1 else 0);
      Placeholders(base + Clauses(fs, 1) + OrderByText + LimitClause(lim, |fs| + 1)) == Iota(1, n)
  {
    var clauses := Clauses(fs, 1);
    var tail := OrderByText + LimitClause(lim, |fs| + 1);
    var own := if Truthy(lim) then [|fs| + 1] else [];
    assert Placeholders(tail) == own by {
      OrderByLimitPlaceholders(lim, |fs| + 1);
    }
    assert Placeholders(clauses + tail) == Iota(1, |fs|) + own by {
      ClausesPlaceholders(fs, 1, tail);
    }
    assert Placeholders(base + (clauses + tail)) == Placeholders(clauses + tail) by {
      ClausesStart(fs, 1);
      PlaceholdersAppend(base, clauses + tail);
    }
    assert base + clauses + OrderByText + LimitClause(lim, |fs| + 1) == base + (clauses + tail) by {
      AppendAssoc(base + clauses, OrderByText, LimitClause(lim, |fs| + 1));
      AppendAssoc(base, clauses, tail);
    }
    if Truthy(lim) {
      IotaSnoc(1, |fs|);
    } else {
      assert Iota(1, |fs|) + own == Iota(1, |fs|);
    }
  }

  /** A falsy limit (`0` or `null`) leaves `LIMIT` out: every parameter is a filter argument. */
  lemma FalsyLimitHasNoLimit(c: Criteria, limit: Json)
    requires !Truthy(limit)
    ensures var fs := ActiveFilters(c);
      SensorReadingsStatement(c, Some(limit))
        == SqlCall(SelectReadingsText + Clauses(fs, 1) + OrderByText, Arguments(fs, c))
  {
  }

  /** The builder's state once it has added the filters `fs`: the text so far, its arguments, and their count. */
  ghost predicate Built(query: string, params: seq<Json>, paramCount: int, base: string, fs: seq<Filter>, c: Criteria)
  {
    query == base + Clauses(fs, 1)
    && params == Arguments(fs, c)
    && paramCount == |fs|
  }

  /**
   * One `if` of the builder: when filter `f`'s argument is truthy the count
   * goes up, `text` and the new count are appended, and the argument is
   * pushed; otherwise nothing changes.  Either way the state is the one
   * for `fs` followed by `f` if active.
   */
  lemma BuilderStep(query: string, params: seq<Json>, paramCount: int,
                    query': string, params': seq<Json>, paramCount': int,
                    base: string, fs: seq<Filter>, f: Filter, text: string, c: Criteria)
    requires Built(query, params, paramCount, base, fs, c)
    requires text == ClausePrefix(f)
    requires var v := Argument(f, c);
      if Truthy(v) then
        paramCount' == paramCount + 1 && query' == query + text + Decimal(paramCount') && params' == params + [v]
      else
        paramCount' == paramCount && query' == query && params' == params
    ensures Built(query', params', paramCount', base, fs + Active(f, c), c)
  {
    if Truthy(Argument(f, c)) {
      AppendClause(base, fs, f, c);
    } else {
      assert fs + [] == fs;
    }
  }

  lemma SelectStep(i: nat, c: Criteria)
    requires i < |AllFilters|
    ensures Select(AllFilters[..i + 1], c) == Select(AllFilters[..i], c) + Active(AllFilters[i], c)
  {
    assert AllFilters[..i + 1][..i] == AllFilters[..i];
  }

  /** Testing the four filters in the builder's order activates exactly `ActiveFilters`. */
  lemma ActiveInOrder(c: Criteria)
    ensures [] + Active(DeviceIdIs, c) + Active(DeviceTypeIs, c) + Active(NotBefore, c) + Active(NotAfter, c)
      == ActiveFilters(c)
  {
    assert AllFilters[..0] == [];
    SelectStep(0, c);
    SelectStep(1, c);
    SelectStep(2, c);
    SelectStep(3, c);
    assert AllFilters[..4] == AllFilters;
  }

  /** Appending filter `f`'s clause and argument to the state for `fs` gives the state for `fs + [f]`. */
  lemma AppendClause(base: string, fs: seq<Filter>, f: Filter, c: Criteria)
    ensures base + Clauses(fs, 1) + ClausePrefix(f) + Decimal(|fs| + 1) == base + Clauses(fs + [f], 1)
    ensures Arguments(fs, c) + [Argument(f, c)] == Arguments(fs + [f], c)
  {
    ClausesSnoc(fs, f, 1);
    var q := base + Clauses(fs, 1);
    AppendAssoc(q, ClausePrefix(f), Decimal(|fs| + 1));
    AppendAssoc(base, Clauses(fs, 1), Clause(f, |fs| + 1));
    assert (fs + [f])[..|fs|] == fs;
  }

  /** The `ORDER BY` and optional `LIMIT` tail completes the statement. */
  lemma BuilderFinish(query: string, params: seq<Json>, paramCount: nat,
                      query': string, params': seq<Json>, base: string, fs: seq<Filter>, c: Criteria, lim: Json)
    requires Built(query, params, paramCount, base, fs, c)
    requires if Truthy(lim) then
        query' == query + OrderByText + " LIMIT $" + Decimal(paramCount + 1) && params' == params + [lim]
      else
        query' == query + OrderByText && params' == params
    ensures SqlCall(query', params') == Statement(base, fs, c, lim)
  {
    assert query' == query + OrderByText + LimitClause(lim, |fs| + 1) by {
      if Truthy(lim) {
        AppendAssoc(query + OrderByText, " LIMIT $", Decimal(paramCount + 1));
      } else {
        assert LimitClause(lim, |fs| + 1) == "";
        assert query + OrderByText + "" == query + OrderByText;
      }
    }
    assert params' == params + Keep(lim);
  }

  /**
   * The pattern the builder repeats for each filter: when its argument `v`
   * is truthy, count one more parameter, append the clause text with the
   * new count, and push the argument.  The state then covers `f` as well.
   */
  method AddFilter(query: string, params: seq<Json>, paramCount: nat, f: Filter, v: Json,
                   ghost fs: seq<Filter>, ghost c: Criteria)
    returns (query': string, params': seq<Json>, paramCount': nat)
    requires Built(query, params, paramCount, SelectReadingsText, fs, c)
    requires v == Argument(f, c)
    ensures Built(query', params', paramCount', SelectReadingsText, fs + Active(f, c), c)
  {
    query', params', paramCount' := query, params, paramCount;
    if Truthy(v) {
      paramCount' := paramCount' + 1;
      query' := query' + ClausePrefix(f) + Decimal(paramCount');
      params' := params' + [v];
    }
    BuilderStep(query, params, paramCount, query', params', paramCount', SelectReadingsText, fs, f, ClausePrefix(f), c);
  }

  /**
   * The builder's tail: append `ORDER BY time DESC`, then, when the limit is
   * truthy, one more placeholder bound to it.
   */
  method OrderAndLimit(query: string, params: seq<Json>, paramCount: nat, lim: Json,
                       ghost c: Criteria, ghost limit: Option<Json>) returns (call: SqlCall)
    requires Built(query, params, paramCount, SelectReadingsText, ActiveFilters(c), c)
    requires lim == LimitArgument(limit)
    ensures call == SensorReadingsStatement(c, limit)
  {
    var query', params', paramCount' := query + OrderByText, params, paramCount;
    if Truthy(lim) {
      paramCount' := paramCount' + 1;
      query' := query' + " LIMIT $" + Decimal(paramCount');
      params' := params' + [lim];
    }
    BuilderFinish(query, params, paramCount, query', params', SelectReadingsText, ActiveFilters(c), c, lim);
    call := SqlCall(query', params');
  }

  /** `getSensorReadings`' builder, growing the text and the parameters one filter at a time. */
  method SensorReadingsCall(deviceId: Json, deviceType: Json, startTime: Json, endTime: Json,
                            limit: Option<Json>) returns (call: SqlCall)
    ensures call == SensorReadingsStatement(Criteria(deviceId, deviceType, startTime, endTime), limit)
  {
    ghost var c := Criteria(deviceId, deviceType, startTime, endTime);
    var query := SelectReadingsText;
    var params: seq<Json> := [];
    var paramCount: nat := 0;
    ghost var fs: seq<Filter> := [];
    query, params, paramCount := AddFilter(query, params, paramCount, DeviceIdIs, deviceId, fs, c);
    fs := fs + Active(DeviceIdIs, c);
    query, params, paramCount := AddFilter(query, params, paramCount, DeviceTypeIs, deviceType, fs, c);
    fs := fs + Active(DeviceTypeIs, c);
    query, params, paramCount := AddFilter(query, params, paramCount, NotBefore, startTime, fs, c);
    fs := fs + Active(NotBefore, c);
    query, params, paramCount := AddFilter(query, params, paramCount, NotAfter, endTime, fs, c);
    fs := fs + Active(NotAfter, c);
    ActiveInOrder(c);
    var lim := if limit.None? then JNum(DefaultLimit) else limit.value;
    call := OrderAndLimit(query, params, paramCount, lim, c, limit);
  }

  /** `getSensorReadings`: build the statement, run it, and turn a failure into `[]`. */
  method GetSensorReadings(deviceId: Json, deviceType: Json, startTime: Json, endTime: Json,
                           limit: Option<Json>, pool: Pool) returns (call: SqlCall, rows: seq<Row>)
    ensures call == SensorReadingsStatement(Criteria(deviceId, deviceType, startTime, endTime), limit)
    ensures pool(call).Failed? ==> rows == []
    ensures pool(call).Rows? ==> rows == pool(call).rows
  {
    call := SensorReadingsCall(deviceId, deviceType, startTime, endTime, limit);
    rows := RowsOrEmpty(pool(call));
  }
}
