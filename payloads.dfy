/**
 * How the subscriber (mqtt_services/mqtt_subscriber.js) reads one payload:
 * `JSON.parse`, then a dispatch on the fields of the parsed value, and, when
 * parsing or logging throws, a regular-expression classification of the
 * raw text.
 */
module Payloads {
  import opened Js

  /** The four outcomes of the raw-payload regular expressions, in the order they are tried. */
  datatype RawKind = Numeric | Boolean | Timestamp | Text

  /** Index of the first non-digit of `s` at or after `i`, or `|s|`. */
  function DigitsEnd(s: string, i: nat): (e: nat)
    requires i <= |s|
    ensures i <= e <= |s|
    ensures forall k :: i <= k < e ==> IsDigit(s[k])
    ensures e < |s| ==> !IsDigit(s[e])
    decreases |s| - i
  {
    if i < |s| && IsDigit(s[i]) then DigitsEnd(s, i + 1) else i
  }

  /** `/^\d+\.?\d*$/`, scanned left to right: digits, then optionally a dot followed by digits only. */
  predicate IsNumeric(s: string)
  {
    var e := DigitsEnd(s, 0);
    e >= 1 && (e == |s| || (s[e] == '.' && DigitsEnd(s, e + 1) == |s|))
  }

  /**
   * The language of `^\d+\.?\d*$` written out: either one or more digits, or
   * digits, a dot after at least one of them, and digits.  (Without the `m`
   * flag `$` matches only at the end of the input.)
   */
  ghost predicate NumericLanguage(s: string)
  {
    || (|s| >= 1 && AllDigits(s))
    || exists i :: 1 <= i < |s| && s[i] == '.' && AllDigits(s[..i]) && AllDigits(s[i + 1..])
  }

  /** Whatever the scanner accepts is in the language of the numeric regular expression. */
  lemma NumericSound(s: string)
    requires IsNumeric(s)
    ensures NumericLanguage(s)
  {
    var e := DigitsEnd(s, 0);
    if e == |s| {
      assert AllDigits(s);
    } else {
      assert AllDigits(s[..e]);
      assert forall k :: e + 1 <= k < |s| ==> s[e + 1..][k - e - 1] == s[k];
      assert AllDigits(s[e + 1..]);
    }
  }

  /** A dotted string in the language is accepted: the scan stops at its dot and then reads to the end. */
  lemma NumericCompleteDotted(s: string, i: nat)
    requires 1 <= i < |s| && s[i] == '.' && AllDigits(s[..i]) && AllDigits(s[i + 1..])
    ensures IsNumeric(s)
  {
    assert forall k :: 0 <= k < i ==> s[..i][k] == s[k];
    assert DigitsEnd(s, 0) == i;
    assert forall k :: i + 1 <= k < |s| ==> s[i + 1..][k - i - 1] == s[k];
    assert DigitsEnd(s, i + 1) == |s|;
  }

  /** The scanner accepts exactly the language of the numeric regular expression. */
  lemma NumericMatchesRegex(s: string)
    ensures IsNumeric(s) <==> NumericLanguage(s)
  {
    if IsNumeric(s) {
      NumericSound(s);
    }
    if |s| >= 1 && AllDigits(s) {
      assert DigitsEnd(s, 0) == |s|;
    }
    if exists i :: 1 <= i < |s| && s[i] == '.' && AllDigits(s[..i]) && AllDigits(s[i + 1..]) {
      var i :| 1 <= i < |s| && s[i] == '.' && AllDigits(s[..i]) && AllDigits(s[i + 1..]);
      NumericCompleteDotted(s, i);
    }
  }

  /** A numeric payload holds digits and dots only. */
  lemma NumericChars(s: string)
    requires IsNumeric(s)
    ensures forall k :: 0 <= k < |s| ==> IsDigit(s[k]) || s[k] == '.'
  {
  }

  /** ASCII lower-casing, the only folding `/i` does on the letters of `true|false`. */
  function Lower(c: char): char
  {
    if 'A' <= c <= 'Z' then (c as int + 32) as char else c
  }

  /**
   * Equality under the `/i` flag.  Without the `u` flag a character folds by
   * upper-casing, and a non-ASCII character never folds onto an ASCII one, so
   * on these ASCII patterns the fold is ASCII lower-casing.
   */
  predicate SameIgnoringCase(a: string, b: string)
  {
    |a| == |b| && forall i :: 0 <= i < |a| ==> Lower(a[i]) == Lower(b[i])
  }

  /** `/^(true|false)$/i`. */
  predicate IsBoolean(s: string)
  {
    SameIgnoringCase(s, "true") || SameIgnoringCase(s, "false")
  }

  /** `/^\d{4}-\d{2}-\d{2}/`: a date at the start, anything after it. */
  predicate IsDatePrefix(s: string)
  {
    && |s| >= 10
    && IsDigit(s[0]) && IsDigit(s[1]) && IsDigit(s[2]) && IsDigit(s[3])
    && s[4] == '-'
    && IsDigit(s[5]) && IsDigit(s[6])
    && s[7] == '-'
    && IsDigit(s[8]) && IsDigit(s[9])
  }

  /** The `if`/`else if` chain of the `catch` block, in its precedence order. */
  function Classify(s: string): RawKind
  {
    if IsNumeric(s) then Numeric
    else if IsBoolean(s) then Boolean
    else if IsDatePrefix(s) then Timestamp
    else Text
  }

  /** A boolean payload starts with a letter. */
  lemma BooleanStartsWithLetter(s: string)
    requires IsBoolean(s)
    ensures |s| >= 4 && !IsDigit(s[0]) && s[0] != '.'
  {
    assert Lower(s[0]) == 't' || Lower(s[0]) == 'f';
  }

  /** At most one of the three patterns matches any payload. */
  lemma RawPatternsDisjoint(s: string)
    ensures !(IsNumeric(s) && IsBoolean(s))
    ensures !(IsNumeric(s) && IsDatePrefix(s))
    ensures !(IsBoolean(s) && IsDatePrefix(s))
  {
    if IsNumeric(s) {
      NumericChars(s);
      if |s| >= 5 {
        assert IsDigit(s[4]) || s[4] == '.';
      }
    }
    if IsBoolean(s) {
      BooleanStartsWithLetter(s);
    }
  }

  /**
   * Because the patterns are disjoint, the precedence of the chain never
   * decides anything: each class is exactly the payloads its pattern matches.
   */
  lemma ClassifyExact(s: string)
    ensures Classify(s) == Numeric <==> NumericLanguage(s)
    ensures Classify(s) == Boolean <==> IsBoolean(s)
    ensures Classify(s) == Timestamp <==> IsDatePrefix(s)
    ensures Classify(s) == Text <==> !NumericLanguage(s) && !IsBoolean(s) && !IsDatePrefix(s)
  {
    NumericMatchesRegex(s);
    RawPatternsDisjoint(s);
  }

  /** What the `message` handler made of a payload, once it stopped logging. */
  datatype MessageKind =
    | DeviceReading(key: string, deviceType: Json, deviceId: Json, location: Option<Json>)
    | PublisherStatus
    | GenericJson
    | Raw(kind: RawKind)

  /** `data.deviceId && data.deviceType`. */
  predicate IsDeviceMessage(data: Json)
  {
    Present(Get(data, "deviceId")) && Present(Get(data, "deviceType"))
  }

  /** `data.publisherId && data.hostname`. */
  predicate IsPublisherMessage(data: Json)
  {
    Present(Get(data, "publisherId")) && Present(Get(data, "hostname"))
  }

  /**
   * The template literals of the device branch do not throw.  A falsy value
   * prints without throwing, so the `x || 'Unknown'` forms and the
   * truthiness-guarded metadata lines need only their own value printable.
   */
  predicate DeviceLogPrintable(data: Json, rt: Runtime)
  {
    var metadata := Get(data, "metadata");
    && Printable(Get(data, "deviceId"), rt)
    && Printable(Get(data, "deviceType"), rt)
    && Printable(Get(data, "location"), rt)
    && Printable(Get(data, "timestamp"), rt)
    && (Get(data, "value").Some? ==>
          Printable(Get(data, "value"), rt) && Printable(Get(data, "unit"), rt) && Printable(Get(data, "quality"), rt))
    && Printable(Get(data, "status"), rt)
    && Printable(Get(data, "batteryLevel"), rt)
    && Printable(Get(data, "signalStrength"), rt)
    && (Present(metadata) ==>
          && Printable(GetOpt(metadata, "publisherHost"), rt)
          && Printable(GetOpt(metadata, "publisherIP"), rt)
          && Printable(GetOpt(metadata, "messageNumber"), rt)
          && Printable(GetOpt(metadata, "firmware"), rt)
          && Printable(GetOpt(metadata, "serialNumber"), rt))
  }

  /** The template literals of the publisher-status branch do not throw. */
  predicate PublisherLogPrintable(data: Json, rt: Runtime)
  {
    && Printable(Get(data, "publisherId"), rt)
    && Printable(Get(data, "hostname"), rt)
    && Printable(Get(data, "platform"), rt)
    && Printable(Get(data, "ip"), rt)
    && Printable(Get(data, "status"), rt)
    && Printable(Get(data, "deviceCount"), rt)
    && Printable(Get(data, "messagesSent"), rt)
  }

  /** `${deviceType}:${deviceId}`, the key of the device's statistics entry. */
  function DeviceKey(deviceType: Json, deviceId: Json, rt: Runtime): Option<string>
  {
    var t := JsString(deviceType, rt);
    var i := JsString(deviceId, rt);
    if t.Some? && i.Some? then Some(t.value + ":" + i.value) else None
  }

  /**
   * The `try` block and its `catch`.  `parsed` is the result of
   * `JSON.parse(message.toString())`, `None` when it throws, and `payload`
   * is `message.toString()`.  Reading a property of `null` throws, as does
   * a template literal over an object with an own `toString` field; both
   * end in the `catch` block.  The generic branch cannot throw:
   * `JSON.stringify` of a parsed value always succeeds.
   */
  function Dispatch(parsed: Option<Json>, payload: string, rt: Runtime): MessageKind
  {
    if parsed.None? || parsed.value.JNull? then Raw(Classify(payload))
    else
      var data := parsed.value;
      if IsDeviceMessage(data) then
        var deviceType := Get(data, "deviceType").value;
        var deviceId := Get(data, "deviceId").value;
        if DeviceLogPrintable(data, rt) then
          DeviceReading(DeviceKey(deviceType, deviceId, rt).value, deviceType, deviceId, Get(data, "location"))
        else Raw(Classify(payload))
      else if IsPublisherMessage(data) then
        if PublisherLogPrintable(data, rt) then PublisherStatus else Raw(Classify(payload))
      else GenericJson
  }

  /**
   * Each outcome with the conditions on the payload that lead to it: a device
   * reading exactly for a parsed object with truthy `deviceId` and
   * `deviceType` whose log lines print, keyed `deviceType:deviceId`; the raw
   * classification exactly when parsing, a `null` property read or a log
   * line throws.
   */
  lemma DispatchCases(parsed: Option<Json>, payload: string, rt: Runtime)
    ensures var r := Dispatch(parsed, payload, rt);
      && (r.DeviceReading? <==>
            parsed.Some? && IsDeviceMessage(parsed.value) && DeviceLogPrintable(parsed.value, rt))
      && (r.DeviceReading? ==>
            && r.deviceType == parsed.value.fields["deviceType"]
            && r.deviceId == parsed.value.fields["deviceId"]
            && DeviceKey(r.deviceType, r.deviceId, rt) == Some(r.key)
            && r.location == Get(parsed.value, "location"))
      && (r.PublisherStatus? <==>
            && parsed.Some? && !IsDeviceMessage(parsed.value)
            && IsPublisherMessage(parsed.value) && PublisherLogPrintable(parsed.value, rt))
      && (r.GenericJson? <==>
            && parsed.Some? && parsed.value != JNull
            && !IsDeviceMessage(parsed.value) && !IsPublisherMessage(parsed.value))
      && (r.Raw? <==>
            || parsed.None? || parsed.value == JNull
            || (IsDeviceMessage(parsed.value) && !DeviceLogPrintable(parsed.value, rt))
            || (!IsDeviceMessage(parsed.value) && IsPublisherMessage(parsed.value)
                && !PublisherLogPrintable(parsed.value, rt)))
      && (r.Raw? ==> r.kind == Classify(payload))
  {
  }

  /** Two different devices can share one statistics entry: the key does not separate `:` in the parts. */
  lemma DeviceKeyCollides(rt: Runtime)
    ensures DeviceKey(JStr("a:b"), JStr("c"), rt) == DeviceKey(JStr("a"), JStr("b:c"), rt)
  {
    assert "a:b" + ":" + "c" == "a" + ":" + "b:c";
  }
}
