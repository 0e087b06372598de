/**
 * The MQTT-to-dashboard bridge (mqtt_services/server.js): the `deviceData`
 * snapshot and the `deviceStatus` registry, updated only by batches on the
 * topic `sensors/combined`, and what it broadcasts and serves.
 *
 * Emits are appended to a trace.  A number the handler stores as the text
 * `toFixed` produced is kept as the number that text denotes, and `'--'` as
 * `Unset`.  The clock is a parameter, read once per event.
 */
module Bridge {
  import opened Js

  /** The only topic the handler processes. */
  const CombinedTopic := "sensors/combined"

  /** A `deviceData` reading: `'--'` until set, then the text of `toFixed`. */
  datatype Reading = Unset | Value(n: Number)

  /** `parseFloat` of a reading: `parseFloat('--')` is `NaN`. */
  function ParseReading(r: Reading): Number
  {
    if r.Unset? then NaN else r.n
  }

  /** The `deviceData` object. */
  datatype DataSnapshot = DataSnapshot(flowRate: Reading, orpLevel: Reading, pHLevel: Reading,
                                       powerConsumption: Reading, lastUpdate: Json)

  datatype Status = Offline | Operational

  /** One entry of a category's `devices` array. */
  datatype Device = Device(id: string, status: Status, lastReading: Number)

  /** One category of `deviceStatus`: `{ total, active, devices }`. */
  datatype CategorySnap = CategorySnap(total: nat, active: nat, devices: seq<Device>)

  /** The `deviceStatus` object. */
  datatype StatusSnapshot = StatusSnapshot(flowRateDevices: CategorySnap, orpDevices: CategorySnap,
                                           pHDevices: CategorySnap, powerMeters: CategorySnap)

  /** The activity-log entry; its `message` text prints these four readings. */
  datatype LogEntry = LogEntry(flowRate: Reading, orpLevel: Reading, pHLevel: Reading,
                               powerConsumption: Reading, timestamp: string, id: int)

  /** What `io.emit` and `socket.emit` send. */
  datatype Event =
    | DeviceData(data: DataSnapshot)
    | DeviceStatus(status: StatusSnapshot)
    | MqttSensorData(topic: string, payload: Json, timestamp: string)
    | ActivityLog(entry: LogEntry)

  /** The index multipliers of `updateDeviceStatusFromMQTT`; the power meters add none. */
  const FlowStep: real := 2.0
  const OrpStep: real := 5.0
  const PhStep: real := 0.1
  const PowerStep: real := 0.0

  /** How many devices are `operational`. */
  function OperationalCount(s: seq<Device>): (n: nat)
    ensures n <= |s|
  {
    if s == [] then 0
    else OperationalCount(s[..|s| - 1]) + (if s[|s| - 1].status == Operational then 1 else 0)
  }

  /** A category whose `active` field counts its operational devices and whose `total` counts its devices. */
  predicate Consistent(c: CategorySnap)
  {
    c.total == |c.devices| && c.active == OperationalCount(c.devices)
  }

  /** Device `i` of a category after the `forEach`: operational, reading `base + i × step`. */
  function ActivatedDevice(d: Device, i: nat, base: Number, step: real): Device
  {
    Device(d.id, Operational, Add(base, Fin(i as real * step)))
  }

  /** The `forEach` of one category: every device operational, reading `base + index × step`. */
  function Activated(c: CategorySnap, base: Number, step: real): CategorySnap
  {
    CategorySnap(c.total, |c.devices|,
                 seq(|c.devices|, i requires 0 <= i < |c.devices| => ActivatedDevice(c.devices[i], i, base, step)))
  }

  lemma {:induction false} AllOperationalCount(s: seq<Device>)
    requires forall i :: 0 <= i < |s| ==> s[i].status == Operational
    ensures OperationalCount(s) == |s|
  {
    if s != [] {
      AllOperationalCount(s[..|s| - 1]);
    }
  }

  lemma {:induction false} AllOfflineCount(s: seq<Device>)
    requires forall i :: 0 <= i < |s| ==> s[i].status == Offline
    ensures OperationalCount(s) == 0
  {
    if s != [] {
      AllOfflineCount(s[..|s| - 1]);
    }
  }

  /**
   * Activating a consistent category keeps it consistent, with every device
   * operational, its id kept, and its reading the base plus its offset.
   */
  lemma ActivatedSpec(c: CategorySnap, base: Number, step: real)
    requires Consistent(c)
    ensures var r := Activated(c, base, step);
      && Consistent(r)
      && r.active == r.total
      && |r.devices| == |c.devices|
      && forall i :: 0 <= i < |r.devices| ==>
           && r.devices[i].id == c.devices[i].id
           && r.devices[i].status == Operational
           && (base.Fin? ==> r.devices[i].lastReading == Fin(base.r + i as real * step))
           && (base.NaN? ==> r.devices[i].lastReading == NaN)
  {
    var r := Activated(c, base, step);
    forall i | 0 <= i < |r.devices|
      ensures r.devices[i] == ActivatedDevice(c.devices[i], i, base, step)
    {
    }
    AllOperationalCount(r.devices);
  }

  /** The seeded devices of a category: one per id, each `offline` with reading 0. */
  function Seeded(ids: seq<string>): (r: seq<Device>)
    ensures |r| == |ids|
    ensures forall i :: 0 <= i < |r| ==> r[i] == Device(ids[i], Offline, Fin(0.0))
  {
    seq(|ids|, i requires 0 <= i < |ids| => Device(ids[i], Offline, Fin(0.0)))
  }

  /** A category of the registry, whose devices the batches update in place. */
  class Category {
    const total: nat
    var active: nat
    const devices: array<Device>
    /** The multiplier of the device index in this category's readings. */
    const step: real

    ghost predicate Valid()
      reads this, devices
    {
      Consistent(Snap())
    }

    function Snap(): CategorySnap
      reads this, devices
    {
      CategorySnap(total, active, devices[..])
    }

    /** The seed: every device `offline` with reading 0, and `active: 0`. */
    constructor (ids: seq<string>, step: real)
      ensures Valid() && fresh(devices)
      ensures this.step == step && total == |ids| && active == 0
      ensures devices[..] == Seeded(ids)
    {
      total := |ids|;
      active := 0;
      this.step := step;
      devices := new Device[|ids|](i requires 0 <= i < |ids| => Device(ids[i], Offline, Fin(0.0)));
      new;
      AllOfflineCount(devices[..]);
    }

    /**
     * `devices.forEach((device, index) => { device.lastReading = base + index * step;
     * device.status = 'operational' })`, then `active = activeCount`, the
     * literal the source writes for this category.
     */
    method Activate(base: Number, activeCount: nat)
      requires Valid() && activeCount == devices.Length
      modifies this, devices
      ensures Valid()
      ensures Snap() == Activated(old(Snap()), base, step)
    {
      var i := 0;
      while i < devices.Length
        invariant 0 <= i <= devices.Length
        invariant forall j :: 0 <= j < i ==> devices[j] == ActivatedDevice(old(devices[j]), j, base, step)
        invariant forall j :: i <= j < devices.Length ==> devices[j] == old(devices[j])
      {
        devices[i] := ActivatedDevice(devices[i], i, base, step);
        i := i + 1;
      }
      active := activeCount;
      ghost var c := old(Snap());
      ActivatedSpec(c, base, step);
      assert devices[..] == Activated(c, base, step).devices;
    }
  }

  /** `parseFloat(devices.<name>.<field>)`; `None` is a thrown TypeError. */
  function ProbeReading(devices: Json, name: string, field: string, rt: Runtime): Option<Number>
  {
    ParseFloat(GetOpt(Get(devices, name), field), rt)
  }

  /** The handler reads probe `name` (it is truthy) and that read throws. */
  predicate Throws(devices: Json, name: string, field: string, rt: Runtime)
  {
    Present(Get(devices, name)) && ProbeReading(devices, name, field, rt).None?
  }

  /**
   * How many of the six probe reads (power, flow, ORP_01, ORP_02, pH_01,
   * pH_02) complete before one throws; 6 when none does.
   */
  function ProbesRead(devices: Json, rt: Runtime): (n: nat)
    ensures n <= 6
  {
    if Throws(devices, "power_meter_01", "power", rt) then 0
    else if Throws(devices, "flow_rate_01", "value", rt) then 1
    else if Throws(devices, "ORP_01", "value", rt) then 2
    else if Throws(devices, "ORP_02", "value", rt) then 3
    else if Throws(devices, "pH_01", "value", rt) then 4
    else if Throws(devices, "pH_02", "value", rt) then 5
    else 6
  }

  /** `(parseFloat(power) / 1000).toFixed(2)`: watts to kilowatts. */
  function PowerValue(devices: Json, rt: Runtime): Number
    requires !Throws(devices, "power_meter_01", "power", rt) && Present(Get(devices, "power_meter_01"))
  {
    ToFixed(Scale(ProbeReading(devices, "power_meter_01", "power", rt).value, 1.0 / 1000.0), 2)
  }

  /** `(parseFloat(value) * 60).toFixed(1)`: litres per minute to litres per hour. */
  function FlowValue(devices: Json, rt: Runtime): Number
    requires !Throws(devices, "flow_rate_01", "value", rt) && Present(Get(devices, "flow_rate_01"))
  {
    ToFixed(Scale(ProbeReading(devices, "flow_rate_01", "value", rt).value, 60.0), 1)
  }

  /** The `push` of a probe that is present. */
  function Pushed(devices: Json, name: string, rt: Runtime): seq<Number>
    requires !Throws(devices, name, "value", rt)
  {
    if Present(Get(devices, name)) then [ProbeReading(devices, name, "value", rt).value] else []
  }

  /** `orpValues`: the readings of whichever of `ORP_01`, `ORP_02` are present. */
  function OrpValues(devices: Json, rt: Runtime): seq<Number>
    requires ProbesRead(devices, rt) >= 4
  {
    Pushed(devices, "ORP_01", rt) + Pushed(devices, "ORP_02", rt)
  }

  /** `pHValues`: the readings of whichever of `pH_01`, `pH_02` are present. */
  function PhValues(devices: Json, rt: Runtime): seq<Number>
    requires ProbesRead(devices, rt) == 6
  {
    Pushed(devices, "pH_01", rt) + Pushed(devices, "pH_02", rt)
  }

  /** `values.reduce((a, b) => a + b, 0)`. */
  function Total(values: seq<Number>): Number
  {
    if values == [] then Fin(0.0) else Add(Total(values[..|values| - 1]), values[|values| - 1])
  }

  /** `values.reduce((a, b) => a + b, 0) / values.length`. */
  function Mean(values: seq<Number>): Number
    requires values != []
  {
    Scale(Total(values), 1.0 / |values| as real)
  }

  /** The mean of one probe is its reading, of two their midpoint; a `NaN` reading makes it `NaN`. */
  lemma MeanOfProbes(a: Number, b: Number)
    ensures Mean([a]) == a
    ensures Mean([a, b]) == if a.Fin? && b.Fin? then Fin((a.r + b.r) / 2.0) else NaN
  {
    assert [a][..0] == [];
    assert [a, b][..1] == [a];
    assert Total([a]) == Add(Fin(0.0), a);
    assert Total([a, b]) == Add(Add(Fin(0.0), a), b);
  }

  /** `data.timestamp || new Date().toISOString()`. */
  function LastUpdate(data: Json, clock: Clock): Json
  {
    var ts := Get(data, "timestamp");
    if Present(ts) then ts.value else JStr(clock.iso)
  }

  /** The batches the handler processes, up to the first statement that can throw on a probe. */
  predicate Accepted(topic: string, parsed: Option<Json>, rt: Runtime)
  {
    && parsed.Some? && topic == CombinedTopic
    && parsed.value != JNull
    && Present(Get(parsed.value, "devices"))
    && Printable(Get(parsed.value, "batch"), rt)
  }

  /** `deviceStatus` after `updateDeviceStatusFromMQTT`, given the updated `deviceData`. */
  function StatusAfter(s: StatusSnapshot, devices: Json, orpRead: bool, pHRead: bool, d: DataSnapshot): StatusSnapshot
  {
    StatusSnapshot(
      if Present(Get(devices, "flow_rate_01")) then Activated(s.flowRateDevices, ParseReading(d.flowRate), FlowStep)
      else s.flowRateDevices,
      if orpRead then Activated(s.orpDevices, ParseReading(d.orpLevel), OrpStep) else s.orpDevices,
      if pHRead then Activated(s.pHDevices, ParseReading(d.pHLevel), PhStep) else s.pHDevices,
      if Present(Get(devices, "power_meter_01")) then Activated(s.powerMeters, ParseReading(d.powerConsumption), PowerStep)
      else s.powerMeters)
  }

  /** `emitActivityLog`: nothing while `flowRate` is still `'--'`. */
  function ActivityLogEvents(d: DataSnapshot, clock: Clock): seq<Event>
  {
    if d.flowRate.Unset? then []
    else [ActivityLog(LogEntry(d.flowRate, d.orpLevel, d.pHLevel, d.powerConsumption, clock.iso, clock.ms))]
  }

  /** The broadcasts of a processed batch, in order. */
  function BatchEvents(topic: string, data: Json, d: DataSnapshot, s: StatusSnapshot, clock: Clock): seq<Event>
  {
    [DeviceData(d), DeviceStatus(s), MqttSensorData(topic, data, clock.iso)] + ActivityLogEvents(d, clock)
  }

  /** No device that was operational is offline afterwards. */
  predicate StaysOperational(before: CategorySnap, after: CategorySnap)
  {
    |after.devices| == |before.devices|
    && forall i :: 0 <= i < |before.devices| && before.devices[i].status == Operational ==>
         after.devices[i].status == Operational
  }

  predicate AllStayOperational(before: StatusSnapshot, after: StatusSnapshot)
  {
    && StaysOperational(before.flowRateDevices, after.flowRateDevices)
    && StaysOperational(before.orpDevices, after.orpDevices)
    && StaysOperational(before.pHDevices, after.pHDevices)
    && StaysOperational(before.powerMeters, after.powerMeters)
  }

  /**
   * A batch keeps every category consistent and never takes a device back
   * offline.
   */
  lemma StatusAfterSpec(s: StatusSnapshot, devices: Json, orpRead: bool, pHRead: bool, d: DataSnapshot)
    requires Consistent(s.flowRateDevices) && Consistent(s.orpDevices)
    requires Consistent(s.pHDevices) && Consistent(s.powerMeters)
    ensures var r := StatusAfter(s, devices, orpRead, pHRead, d);
      && Consistent(r.flowRateDevices) && Consistent(r.orpDevices)
      && Consistent(r.pHDevices) && Consistent(r.powerMeters)
      && AllStayOperational(s, r)
  {
    ActivatedSpec(s.flowRateDevices, ParseReading(d.flowRate), FlowStep);
    ActivatedSpec(s.orpDevices, ParseReading(d.orpLevel), OrpStep);
    ActivatedSpec(s.pHDevices, ParseReading(d.pHLevel), PhStep);
    ActivatedSpec(s.powerMeters, ParseReading(d.powerConsumption), PowerStep);
  }

  /**
   * `deviceData` after the probe statements of a batch: each reading whose
   * statement ran before the first read that throws, and whose source is
   * present, is replaced; the others keep their value.
   */
  function ReadAll(d: DataSnapshot, devices: Json, rt: Runtime): DataSnapshot
  {
    var read := ProbesRead(devices, rt);
    DataSnapshot(
      if read >= 2 && Present(Get(devices, "flow_rate_01")) then Value(FlowValue(devices, rt)) else d.flowRate,
      if read >= 4 && OrpValues(devices, rt) != [] then Value(ToFixed(Mean(OrpValues(devices, rt)), 1)) else d.orpLevel,
      if read == 6 && PhValues(devices, rt) != [] then Value(ToFixed(Mean(PhValues(devices, rt)), 2)) else d.pHLevel,
      if read >= 1 && Present(Get(devices, "power_meter_01")) then Value(PowerValue(devices, rt)) else d.powerConsumption,
      d.lastUpdate)
  }

  /** The state a message leaves and the broadcasts it makes. */
  datatype Outcome = Outcome(data: DataSnapshot, status: StatusSnapshot, events: seq<Event>)

  /**
   * The `message` handler on `deviceData` `d` and `deviceStatus` `s`.
   * Anything but an accepted batch changes nothing.  A probe read that throws
   * ends the handler with the readings stored so far.  A batch read in full
   * stamps `lastUpdate`, updates the categories and broadcasts.
   */
  function Handle(d: DataSnapshot, s: StatusSnapshot, topic: string, parsed: Option<Json>, clock: Clock, rt: Runtime): Outcome
  {
    if !Accepted(topic, parsed, rt) then Outcome(d, s, [])
    else
      var devices := Get(parsed.value, "devices").value;
      var d1 := ReadAll(d, devices, rt);
      if ProbesRead(devices, rt) < 6 then Outcome(d1, s, [])
      else
        var d2 := d1.(lastUpdate := LastUpdate(parsed.value, clock));
        var s2 := StatusAfter(s, devices, OrpValues(devices, rt) != [], PhValues(devices, rt) != [], d2);
        Outcome(d2, s2, BatchEvents(topic, parsed.value, d2, s2, clock))
  }

  predicate AllConsistent(s: StatusSnapshot)
  {
    Consistent(s.flowRateDevices) && Consistent(s.orpDevices) && Consistent(s.pHDevices) && Consistent(s.powerMeters)
  }

  /**
   * Every message keeps the categories consistent, never takes a device back
   * offline, and never resets a flow rate that was set; the registry changes
   * only on a batch read in full.
   */
  lemma HandleKeepsRegistry(d: DataSnapshot, s: StatusSnapshot, topic: string, parsed: Option<Json>, clock: Clock, rt: Runtime)
    requires AllConsistent(s)
    ensures var o := Handle(d, s, topic, parsed, clock, rt);
      && AllConsistent(o.status)
      && AllStayOperational(s, o.status)
      && (d.flowRate.Value? ==> o.data.flowRate.Value?)
      && (o.status != s ==> Accepted(topic, parsed, rt) && ProbesRead(Get(parsed.value, "devices").value, rt) == 6)
  {
    if Accepted(topic, parsed, rt) {
      var devices := Get(parsed.value, "devices").value;
      if ProbesRead(devices, rt) == 6 {
        var o := Handle(d, s, topic, parsed, clock, rt);
        StatusAfterSpec(s, devices, OrpValues(devices, rt) != [], PhValues(devices, rt) != [], o.data);
      }
    }
  }

  /**
   * A message broadcasts exactly when it is a batch read in full: the new
   * `deviceData`, the new `deviceStatus`, the raw batch, and then an activity
   * log entry exactly when the flow rate has been set.
   */
  lemma HandleEvents(d: DataSnapshot, s: StatusSnapshot, topic: string, parsed: Option<Json>, clock: Clock, rt: Runtime)
    ensures var o := Handle(d, s, topic, parsed, clock, rt);
      && (o.events != [] <==> Accepted(topic, parsed, rt) && ProbesRead(Get(parsed.value, "devices").value, rt) == 6)
      && (o.events == [] ==> o.data.lastUpdate == d.lastUpdate && o.status == s)
      && (o.events != [] ==>
            && o.events[..3] == [DeviceData(o.data), DeviceStatus(o.status), MqttSensorData(topic, parsed.value, clock.iso)]
            && (|o.events| == 4 <==> o.data.flowRate.Value?)
            && (|o.events| == 3 <==> o.data.flowRate.Unset?))
      && (!Accepted(topic, parsed, rt) ==> o.data == d)
  {
  }

  /**
   * The power reading is the meter's watts in kilowatts to within half a unit
   * of the second decimal place, and (below 10^21 kW) has two decimals.
   */
  lemma PowerConversion(devices: Json, rt: Runtime)
    requires !Throws(devices, "power_meter_01", "power", rt) && Present(Get(devices, "power_meter_01"))
    requires ProbeReading(devices, "power_meter_01", "power", rt).value.Fin?
    ensures var watts := ProbeReading(devices, "power_meter_01", "power", rt).value.r;
      var kw := PowerValue(devices, rt);
      && kw.Fin? && -0.005 <= kw.r - watts / 1000.0 <= 0.005
      && (-FixedLimit < watts * (1.0 / 1000.0) < FixedLimit ==> Whole(kw.r * 100.0))
  {
    var watts := ProbeReading(devices, "power_meter_01", "power", rt).value;
    ToFixedIsNearest(Scale(watts, 1.0 / 1000.0), 2);
    if -FixedLimit < watts.r * (1.0 / 1000.0) < FixedLimit {
      ToFixedHasDecimals(Scale(watts, 1.0 / 1000.0), 2);
    }
    assert Pow10(2) == 100;
  }

  /**
   * The flow reading is the probe's litres per minute in litres per hour to
   * within half a unit of the first decimal place, and (below 10^21 L/h) has
   * one decimal.
   */
  lemma FlowConversion(devices: Json, rt: Runtime)
    requires !Throws(devices, "flow_rate_01", "value", rt) && Present(Get(devices, "flow_rate_01"))
    requires ProbeReading(devices, "flow_rate_01", "value", rt).value.Fin?
    ensures var perMinute := ProbeReading(devices, "flow_rate_01", "value", rt).value.r;
      var perHour := FlowValue(devices, rt);
      && perHour.Fin? && -0.05 <= perHour.r - perMinute * 60.0 <= 0.05
      && (-FixedLimit < perMinute * 60.0 < FixedLimit ==> Whole(perHour.r * 10.0))
  {
    var perMinute := ProbeReading(devices, "flow_rate_01", "value", rt).value;
    ToFixedIsNearest(Scale(perMinute, 60.0), 1);
    if -FixedLimit < perMinute.r * 60.0 < FixedLimit {
      ToFixedHasDecimals(Scale(perMinute, 60.0), 1);
    }
    assert Pow10(1) == 10;
  }

  /** The bridge's module-level state. */
  class Bridge {
    /** The engine's number printing and parsing, fixed for the process. */
    const rt: Runtime
    var flowRate: Reading
    var orpLevel: Reading
    var pHLevel: Reading
    var powerConsumption: Reading
    var lastUpdate: Json
    const flowRateDevices: Category
    const orpDevices: Category
    const pHDevices: Category
    const powerMeters: Category
    /** Every broadcast so far, in order. */
    var emitted: seq<Event>

    /** The four categories are separate objects of the seeded sizes and offsets. */
    ghost predicate Separate()
      reads this
    {
      && flowRateDevices != orpDevices && flowRateDevices != pHDevices && flowRateDevices != powerMeters
      && orpDevices != pHDevices && orpDevices != powerMeters && pHDevices != powerMeters
      && flowRateDevices.devices != orpDevices.devices && flowRateDevices.devices != pHDevices.devices
      && flowRateDevices.devices != powerMeters.devices && orpDevices.devices != pHDevices.devices
      && orpDevices.devices != powerMeters.devices && pHDevices.devices != powerMeters.devices
      && flowRateDevices.devices.Length == 3 && orpDevices.devices.Length == 6
      && pHDevices.devices.Length == 6 && powerMeters.devices.Length == 1
      && flowRateDevices.step == FlowStep && orpDevices.step == OrpStep
      && pHDevices.step == PhStep && powerMeters.step == PowerStep
    }

    /** Separate categories, each consistent. */
    ghost predicate Valid()
      reads this, flowRateDevices, orpDevices, pHDevices, powerMeters
      reads flowRateDevices.devices, orpDevices.devices, pHDevices.devices, powerMeters.devices
    {
      Separate() && flowRateDevices.Valid() && orpDevices.Valid() && pHDevices.Valid() && powerMeters.Valid()
    }

    function Data(): DataSnapshot
      reads this
    {
      DataSnapshot(flowRate, orpLevel, pHLevel, powerConsumption, lastUpdate)
    }

    function Status(): StatusSnapshot
      reads this, flowRateDevices, orpDevices, pHDevices, powerMeters
      reads flowRateDevices.devices, orpDevices.devices, pHDevices.devices, powerMeters.devices
    {
      StatusSnapshot(flowRateDevices.Snap(), orpDevices.Snap(), pHDevices.Snap(), powerMeters.Snap())
    }

    /** The module's initial `deviceData` (all `'--'`, `lastUpdate: null`) and seeded `deviceStatus`. */
    constructor (rt: Runtime)
      ensures Valid()
      ensures Data() == DataSnapshot(Unset, Unset, Unset, Unset, JNull)
      ensures Status().flowRateDevices == CategorySnap(3, 0, Seeded(["FR001", "FR002", "FR003"]))
      ensures Status().orpDevices == CategorySnap(6, 0, Seeded(["ORP001", "ORP002", "ORP003", "ORP004", "ORP005", "ORP006"]))
      ensures Status().pHDevices == CategorySnap(6, 0, Seeded(["PH001", "PH002", "PH003", "PH004", "PH005", "PH006"]))
      ensures Status().powerMeters == CategorySnap(1, 0, Seeded(["PM001"]))
      ensures emitted == []
    {
      this.rt := rt;
      flowRate, orpLevel, pHLevel, powerConsumption := Unset, Unset, Unset, Unset;
      lastUpdate := JNull;
      flowRateDevices := new Category(["FR001", "FR002", "FR003"], FlowStep);
      orpDevices := new Category(["ORP001", "ORP002", "ORP003", "ORP004", "ORP005", "ORP006"], OrpStep);
      pHDevices := new Category(["PH001", "PH002", "PH003", "PH004", "PH005", "PH006"], PhStep);
      powerMeters := new Category(["PM001"], PowerStep);
      emitted := [];
    }

    /**
     * The `message` handler.  `parsed` is `JSON.parse(message.toString())`,
     * `None` when it throws.
     */
    method HandleMessage(topic: string, parsed: Option<Json>, clock: Clock)
      requires Valid()
      modifies this, flowRateDevices, orpDevices, pHDevices, powerMeters
      modifies flowRateDevices.devices, orpDevices.devices, pHDevices.devices, powerMeters.devices
      ensures Valid()
      ensures var o := Handle(old(Data()), old(Status()), topic, parsed, clock, rt);
        Data() == o.data && Status() == o.status && emitted == old(emitted) + o.events
    {
      if parsed.None? || topic != CombinedTopic {
        return;
      }
      var data := parsed.value;
      if data.JNull? {
        return;
      }
      var devicesField := Get(data, "devices");
      if !Present(devicesField) || !Printable(Get(data, "batch"), rt) {
        return;
      }
      var devices := devicesField.value;
      var read, orpValues, pHValues := ReadProbes(devices);
      if read < 6 {
        return;
      }
      CompleteBatch(topic, data, devices, orpValues != [], pHValues != [], clock);
    }

    /**
     * The end of a batch read in full: stamp `lastUpdate`, update the
     * registry, broadcast.
     */
    method CompleteBatch(topic: string, data: Json, devices: Json, orpRead: bool, pHRead: bool, clock: Clock)
      requires Valid()
      modifies this, flowRateDevices, orpDevices, pHDevices, powerMeters
      modifies flowRateDevices.devices, orpDevices.devices, pHDevices.devices, powerMeters.devices
      ensures Valid()
      ensures Data() == old(Data()).(lastUpdate := LastUpdate(data, clock))
      ensures Status() == StatusAfter(old(Status()), devices, orpRead, pHRead, Data())
      ensures emitted == old(emitted) + BatchEvents(topic, data, Data(), Status(), clock)
    {
      lastUpdate := LastUpdate(data, clock);
      UpdateDeviceStatus(devices, orpRead, pHRead);
      emitted := emitted + [DeviceData(Data()), DeviceStatus(Status()), MqttSensorData(topic, data, clock.iso)];
      EmitActivityLog(clock);
    }

    /**
     * The conversions and averages of the handler, statement by statement,
     * stopping at the first probe read that throws.
     */
    method ReadProbes(devices: Json) returns (read: nat, orpValues: seq<Number>, pHValues: seq<Number>)
      modifies this`powerConsumption, this`flowRate, this`orpLevel, this`pHLevel
      ensures read == ProbesRead(devices, rt)
      ensures Data() == ReadAll(old(Data()), devices, rt)
      ensures read >= 4 ==> orpValues == OrpValues(devices, rt)
      ensures read == 6 ==> pHValues == PhValues(devices, rt)
    {
      orpValues, pHValues := [], [];
      if Present(Get(devices, "power_meter_01")) {
        var power := ProbeReading(devices, "power_meter_01", "power", rt);
        if power.None? {
          return 0, orpValues, pHValues;
        }
        powerConsumption := Value(ToFixed(Scale(power.value, 1.0 / 1000.0), 2));
      }
      if Present(Get(devices, "flow_rate_01")) {
        var flow := ProbeReading(devices, "flow_rate_01", "value", rt);
        if flow.None? {
          return 1, orpValues, pHValues;
        }
        flowRate := Value(ToFixed(Scale(flow.value, 60.0), 1));
      }
      read, orpValues := PushProbes(devices, "ORP_01", "ORP_02", 2);
      if read < 4 {
        return;
      }
      if orpValues != [] {
        orpLevel := Value(ToFixed(Mean(orpValues), 1));
      }
      read, pHValues := PushProbes(devices, "pH_01", "pH_02", 4);
      if read < 6 {
        return;
      }
      if pHValues != [] {
        pHLevel := Value(ToFixed(Mean(pHValues), 2));
      }
    }

    /**
     * `if (devices.<first>) values.push(parseFloat(devices.<first>.value))`
     * and the same for `second`; `read` counts, from `done`, the reads
     * completed before one throws.
     */
    method PushProbes(devices: Json, first: string, second: string, done: nat) returns (read: nat, values: seq<Number>)
      ensures read == done + (if Throws(devices, first, "value", rt) then 0
                              else if Throws(devices, second, "value", rt) then 1 else 2)
      ensures read == done + 2 ==> values == Pushed(devices, first, rt) + Pushed(devices, second, rt)
    {
      values := [];
      if Present(Get(devices, first)) {
        var v := ProbeReading(devices, first, "value", rt);
        if v.None? {
          return done, values;
        }
        values := values + [v.value];
      }
      if Present(Get(devices, second)) {
        var v := ProbeReading(devices, second, "value", rt);
        if v.None? {
          return done + 1, values;
        }
        values := values + [v.value];
      }
      read := done + 2;
    }

    /** `updateDeviceStatusFromMQTT(devices, orpValues, pHValues)`. */
    method UpdateDeviceStatus(devices: Json, orpRead: bool, pHRead: bool)
      requires Valid()
      modifies flowRateDevices, orpDevices, pHDevices, powerMeters
      modifies flowRateDevices.devices, orpDevices.devices, pHDevices.devices, powerMeters.devices
      ensures Valid()
      ensures Status() == StatusAfter(old(Status()), devices, orpRead, pHRead, Data())
    {
      UpdateMeters(devices);
      UpdateProbes(orpRead, pHRead);
    }

    /** The power-meter and flow-rate steps of `updateDeviceStatusFromMQTT`. */
    method UpdateMeters(devices: Json)
      requires Valid()
      modifies flowRateDevices, powerMeters, flowRateDevices.devices, powerMeters.devices
      ensures Valid()
      ensures powerMeters.Snap() == if Present(Get(devices, "power_meter_01"))
        then Activated(old(powerMeters.Snap()), ParseReading(powerConsumption), PowerStep) else old(powerMeters.Snap())
      ensures flowRateDevices.Snap() == if Present(Get(devices, "flow_rate_01"))
        then Activated(old(flowRateDevices.Snap()), ParseReading(flowRate), FlowStep) else old(flowRateDevices.Snap())
    {
      if Present(Get(devices, "power_meter_01")) {
        powerMeters.Activate(ParseReading(powerConsumption), 1);
      }
      if Present(Get(devices, "flow_rate_01")) {
        flowRateDevices.Activate(ParseReading(flowRate), 3);
      }
    }

    /** The ORP and pH steps of `updateDeviceStatusFromMQTT`, taken when their probes reported. */
    method UpdateProbes(orpRead: bool, pHRead: bool)
      requires Valid()
      modifies orpDevices, pHDevices, orpDevices.devices, pHDevices.devices
      ensures Valid()
      ensures orpDevices.Snap() == if orpRead
        then Activated(old(orpDevices.Snap()), ParseReading(orpLevel), OrpStep) else old(orpDevices.Snap())
      ensures pHDevices.Snap() == if pHRead
        then Activated(old(pHDevices.Snap()), ParseReading(pHLevel), PhStep) else old(pHDevices.Snap())
    {
      if orpRead {
        orpDevices.Activate(ParseReading(orpLevel), 6);
      }
      if pHRead {
        pHDevices.Activate(ParseReading(pHLevel), 6);
      }
    }

    /** `emitActivityLog`: returns at once while `flowRate` is `'--'`. */
    method EmitActivityLog(clock: Clock)
      modifies this`emitted
      ensures emitted == old(emitted) + ActivityLogEvents(Data(), clock)
    {
      if flowRate.Unset? {
        return;
      }
      emitted := emitted + [ActivityLog(LogEntry(flowRate, orpLevel, pHLevel, powerConsumption, clock.iso, clock.ms))];
    }

    /** A new socket receives `deviceData`, then `deviceStatus`. */
    method OnConnection() returns (sent: seq<Event>)
      requires Valid()
      ensures sent == [DeviceData(Data()), DeviceStatus(Status())]
    {
      sent := [DeviceData(Data()), DeviceStatus(Status())];
    }

    /** `requestDeviceStatus`: the asking socket receives `deviceStatus`. */
    method OnRequestDeviceStatus() returns (sent: seq<Event>)
      requires Valid()
      ensures sent == [DeviceStatus(Status())]
    {
      sent := [DeviceStatus(Status())];
    }
  }

  /** The four per-sensor endpoints. */
  datatype Sensor = FlowRate | Orp | PH | Power

  /** The body of `GET /api/devices`. */
  datatype DevicesResponse = DevicesResponse(data: DataSnapshot, status: StatusSnapshot, timestamp: string)

  /** The body of a per-sensor endpoint: `{ value, unit, devices, timestamp }`. */
  datatype SensorResponse = SensorResponse(value: Reading, unit: string, devices: CategorySnap, timestamp: Json)

  function DevicesEndpoint(d: DataSnapshot, s: StatusSnapshot, clock: Clock): DevicesResponse
  {
    DevicesResponse(d, s, clock.iso)
  }

  /** `GET /api/devices/flow-rate`, `/orp`, `/ph` and `/power`. */
  function SensorEndpoint(d: DataSnapshot, s: StatusSnapshot, sensor: Sensor): SensorResponse
  {
    match sensor
    case FlowRate => SensorResponse(d.flowRate, "L/h", s.flowRateDevices, d.lastUpdate)
    case Orp => SensorResponse(d.orpLevel, "mV", s.orpDevices, d.lastUpdate)
    case PH => SensorResponse(d.pHLevel, "pH", s.pHDevices, d.lastUpdate)
    case Power => SensorResponse(d.powerConsumption, "kW", s.powerMeters, d.lastUpdate)
  }

  /**
   * Each per-sensor endpoint is the projection of `/api/devices` at the same
   * moment onto its own sensor: the reading and the category of that sensor,
   * its unit, and `lastUpdate` as its timestamp.  No two endpoints share a
   * unit.
   */
  lemma EndpointsAgree(d: DataSnapshot, s: StatusSnapshot, clock: Clock, sensor: Sensor)
    ensures var all := DevicesEndpoint(d, s, clock);
      var one := SensorEndpoint(d, s, sensor);
      && one.timestamp == all.data.lastUpdate
      && (sensor == FlowRate ==>
            one.value == all.data.flowRate && one.devices == all.status.flowRateDevices && one.unit == "L/h")
      && (sensor == Orp ==>
            one.value == all.data.orpLevel && one.devices == all.status.orpDevices && one.unit == "mV")
      && (sensor == PH ==>
            one.value == all.data.pHLevel && one.devices == all.status.pHDevices && one.unit == "pH")
      && (sensor == Power ==>
            one.value == all.data.powerConsumption && one.devices == all.status.powerMeters && one.unit == "kW")
      && (forall other: Sensor :: other != sensor ==> SensorEndpoint(d, s, other).unit != one.unit)
  {
  }
}
