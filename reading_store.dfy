/**
 * The in-memory stand-in for the time-series store
 * (backend/timescaledb-simple.js): one class-level array of readings,
 * compacted to its newest 500 entries once it holds more than 1000, and
 * queried by filtering and taking a tail slice.
 */
module ReadingStore {
  import opened Js
  import opened Seqs

  /** A stored reading: the fields of one JavaScript object. */
  type Reading = map<string, Json>

  /** Above this many entries an insert first compacts the buffer ... */
  const HighWatermark := 1000
  /** ... down to this many newest entries. */
  const LowWatermark := 500
  /** How many entries the "latest" queries return. */
  const LatestCount := 10
  /** The default `limit` of `getSensorReadings`. */
  const DefaultLimit := 100

  /**
   * `{device_id, device_type, location, ...data, timestamp}`: the fields of
   * `data` override the three identifying fields, and the insertion time
   * overrides any `timestamp` in `data`.
   */
  function NewReading(deviceId: Json, deviceType: Json, location: Json,
                      data: map<string, Json>, now: string): (r: Reading)
    ensures r.Keys == data.Keys + {"device_id", "device_type", "location", "timestamp"}
    ensures r["timestamp"] == JStr(now)
    ensures r["device_id"] == if "device_id" in data then data["device_id"] else deviceId
    ensures r["device_type"] == if "device_type" in data then data["device_type"] else deviceType
    ensures r["location"] == if "location" in data then data["location"] else location
    ensures forall k :: k in data && k != "timestamp" ==> r[k] == data[k]
  {
    map["device_id" := deviceId, "device_type" := deviceType, "location" := location]
      + data + map["timestamp" := JStr(now)]
  }

  /** The watermark compaction done before an insert. */
  function Compact(s: seq<Reading>): (r: seq<Reading>)
    ensures IsSuffix(r, s)
    ensures |r| == if |s| > HighWatermark then LowWatermark else |s|
  {
    if |s| > HighWatermark then SliceFrom(s, -LowWatermark) else s
  }

  predicate HasType(r: Reading, deviceType: string)
  {
    "device_type" in r && r["device_type"] == JStr(deviceType)
  }

  /** The readings of one device type, in insertion order. */
  function OfType(s: seq<Reading>, deviceType: string): (r: seq<Reading>)
    ensures forall x :: x in r ==> x in s && HasType(x, deviceType)
    ensures |r| <= |s|
  {
    if s == [] then []
    else
      OfType(s[..|s| - 1], deviceType) + (if HasType(s[|s| - 1], deviceType) then [s[|s| - 1]] else [])
  }

  /** Every reading of the type is kept, as often as the buffer holds it, and no other. */
  lemma {:induction false} OfTypeKeepsAll(s: seq<Reading>, deviceType: string, x: Reading)
    ensures multiset(OfType(s, deviceType))[x] == if HasType(x, deviceType) then multiset(s)[x] else 0
  {
    if s != [] {
      var init, last := s[..|s| - 1], s[|s| - 1];
      OfTypeKeepsAll(init, deviceType, x);
      assert s == init + [last];
    }
  }

  /** The type filter keeps buffer order: filtering two stretches is filtering each in turn. */
  lemma {:induction false} OfTypeAppend(a: seq<Reading>, b: seq<Reading>, deviceType: string)
    ensures OfType(a + b, deviceType) == OfType(a, deviceType) + OfType(b, deviceType)
  {
    if b != [] {
      var init, last := b[..|b| - 1], b[|b| - 1];
      OfTypeAppend(a, init, deviceType);
      assert (a + b)[..|a + b| - 1] == a + init;
      assert (a + b)[|a + b| - 1] == last;
    } else {
      assert a + b == a;
    }
  }

  /**
   * The filter of `getSensorReadings`: a filter argument applies only when it
   * is truthy, so the empty text (like `null` or `undefined`) means "any".
   */
  predicate Matches(r: Reading, deviceId: string, deviceType: string)
  {
    && (deviceId != "" ==> "device_id" in r && r["device_id"] == JStr(deviceId))
    && (deviceType != "" ==> "device_type" in r && r["device_type"] == JStr(deviceType))
  }

  /** The matching readings, in insertion order. */
  function Matching(s: seq<Reading>, deviceId: string, deviceType: string): (r: seq<Reading>)
    ensures forall x :: x in r ==> x in s && Matches(x, deviceId, deviceType)
    ensures |r| <= |s|
  {
    if s == [] then []
    else
      var last := if Matches(s[|s| - 1], deviceId, deviceType) then [s[|s| - 1]] else [];
      Matching(s[..|s| - 1], deviceId, deviceType) + last
  }

  /** Every match is kept, as often as the buffer holds it, and no other. */
  lemma {:induction false} MatchingKeepsAll(s: seq<Reading>, deviceId: string, deviceType: string, x: Reading)
    ensures multiset(Matching(s, deviceId, deviceType))[x] == if Matches(x, deviceId, deviceType) then multiset(s)[x] else 0
  {
    if s != [] {
      var init, last := s[..|s| - 1], s[|s| - 1];
      MatchingKeepsAll(init, deviceId, deviceType, x);
      assert s == init + [last];
    }
  }

  /** The match filter keeps buffer order: filtering two stretches is filtering each in turn. */
  lemma {:induction false} MatchingAppend(a: seq<Reading>, b: seq<Reading>, deviceId: string, deviceType: string)
    ensures Matching(a + b, deviceId, deviceType) == Matching(a, deviceId, deviceType) + Matching(b, deviceId, deviceType)
  {
    if b != [] {
      var init, last := b[..|b| - 1], b[|b| - 1];
      MatchingAppend(a, init, deviceId, deviceType);
      assert (a + b)[..|a + b| - 1] == a + init;
      assert (a + b)[|a + b| - 1] == last;
    } else {
      assert a + b == a;
    }
  }

  /** With no filter argument, `getSensorReadings` matches every reading. */
  lemma {:induction false} MatchingUnfiltered(s: seq<Reading>)
    ensures Matching(s, "", "") == s
  {
    if s != [] {
      var init, last := s[..|s| - 1], s[|s| - 1];
      assert s == init + [last];
      MatchingUnfiltered(init);
      assert Matches(last, "", "");
    }
  }

  /** Filtering by type alone is the type filter of `getLatestReadingsByType`. */
  lemma {:induction false} MatchingByTypeIsOfType(s: seq<Reading>, deviceType: string)
    requires deviceType != ""
    ensures Matching(s, "", deviceType) == OfType(s, deviceType)
  {
    if s != [] {
      MatchingByTypeIsOfType(s[..|s| - 1], deviceType);
    }
  }

  /**
   * The `TimescaleDB.sensorReadings` array.  `history` is every reading ever
   * inserted; the buffer always holds its newest entries, at least the newest
   * 501 of them (or all, while fewer exist) and never more than 1001.
   */
  class Store {
    var sensorReadings: seq<Reading>
    ghost var history: seq<Reading>

    ghost predicate Valid()
      reads this
    {
      && IsSuffix(sensorReadings, history)
      && |sensorReadings| <= HighWatermark + 1
      && |sensorReadings| >= Min(|history|, LowWatermark + 1)
    }

    /** The static initialiser `TimescaleDB.sensorReadings = []`. */
    constructor ()
      ensures Valid()
      ensures sensorReadings == [] && history == []
    {
      sensorReadings := [];
      history := [];
    }

    /** `insertSensorReading`: compact, append, and return the stored reading. */
    method InsertSensorReading(deviceId: Json, deviceType: Json, location: Json,
                               data: map<string, Json>, now: string) returns (reading: Reading)
      requires Valid()
      modifies this
      ensures Valid()
      ensures reading == NewReading(deviceId, deviceType, location, data, now)
      ensures sensorReadings == Compact(old(sensorReadings)) + [reading]
      ensures sensorReadings[|sensorReadings| - 1] == reading
      ensures history == old(history) + [reading]
    {
      reading := NewReading(deviceId, deviceType, location, data, now);
      if |sensorReadings| > HighWatermark {
        sensorReadings := SliceFrom(sensorReadings, -LowWatermark);
      }
      SuffixTransitive(sensorReadings, old(sensorReadings), history);
      SuffixAppend(sensorReadings, history, reading);
      sensorReadings := sensorReadings + [reading];
      history := history + [reading];
    }

    /** `getDeviceSummary` of the in-memory variant is a constant. */
    function GetDeviceSummary(): (r: map<string, Json>)
      ensures r == map["total_devices" := JNum(0.0), "active_devices" := JNum(0.0)]
    {
      map["total_devices" := JNum(0.0), "active_devices" := JNum(0.0)]
    }

    /** `getAllLatestReadings`: the newest ten readings, oldest first. */
    function GetAllLatestReadings(): (r: seq<Reading>)
      reads this
      ensures |r| == Min(LatestCount, |sensorReadings|)
      ensures IsSuffix(r, sensorReadings)
    {
      SliceFrom(sensorReadings, -LatestCount)
    }

    /** `getLatestReadingsByType`: the newest ten readings of one type. */
    function GetLatestReadingsByType(deviceType: string): (r: seq<Reading>)
      reads this
      ensures |r| == Min(LatestCount, |OfType(sensorReadings, deviceType)|)
      ensures IsSuffix(r, OfType(sensorReadings, deviceType))
      ensures forall x :: x in r ==> x in sensorReadings && HasType(x, deviceType)
    {
      SliceFrom(OfType(sensorReadings, deviceType), -LatestCount)
    }

    /**
     * `getSensorReadings(deviceId, deviceType, startTime, endTime, limit)`:
     * the matching readings sliced with `slice(-limit)`; the time bounds are
     * ignored.  `limit` is `None` when the argument is omitted (100 applies);
     * `0` (like `null`) keeps every match, a negative limit drops that many
     * of the oldest matches.
     */
    function GetSensorReadings(deviceId: string, deviceType: string,
                               startTime: Json, endTime: Json, limit: Option<int>): (r: seq<Reading>)
      reads this
      ensures var m := Matching(sensorReadings, deviceId, deviceType);
        && (limit.None? ==> |r| == Min(DefaultLimit, |m|) && IsSuffix(r, m))
        && (limit == Some(0) ==> r == m)
        && (limit.Some? && limit.value > 0 ==> |r| == Min(limit.value, |m|) && IsSuffix(r, m))
        && (limit.Some? && limit.value < 0 ==> r == m[Min(-limit.value, |m|)..])
      ensures forall x :: x in r ==> x in sensorReadings && Matches(x, deviceId, deviceType)
    {
      var n := if limit.None? then DefaultLimit else limit.value;
      SliceFrom(Matching(sensorReadings, deviceId, deviceType), -n)
    }

    /** `getHourlyAverages` of the in-memory variant returns no rows. */
    function GetHourlyAverages(deviceType: Json, startTime: Json, endTime: Json): (r: seq<map<string, Json>>)
      ensures r == []
    {
      []
    }
  }

  /**
   * However many inserts have happened, the newest reading is last, and a
   * reading older than the newest 501 can only survive while the buffer has
   * not yet been compacted.
   */
  lemma {:induction false} NewestRetained(st: seq<Reading>, h: seq<Reading>, i: int)
    requires IsSuffix(st, h) && |st| >= Min(|h|, LowWatermark + 1)
    requires 0 <= i < |h| && i >= |h| - (LowWatermark + 1)
    ensures h[i] in st
  {
    assert h[i] == st[i - (|h| - |st|)];
  }
}
