/**
 * The statistics of the universal subscriber
 * (mqtt_services/mqtt_subscriber.js): the message counter, the per-topic and
 * per-device `Map`s the `message` handler updates, the device-type summary
 * built from them, and the rankings and labels of the periodic reports.
 *
 * `new Date()` is the parameter `now`, in milliseconds, read once per event.
 */
module Subscriber {
  import opened Js
  import opened Payloads
  import opened OrderedMaps
  import opened Sorting

  /** The value of a `topicStats` entry. */
  datatype TopicStat = TopicStat(count: nat, firstSeen: int, lastSeen: int)

  /** The value of a `deviceStats` entry; type, id and location are those of the reading that created it. */
  datatype DeviceStat = DeviceStat(count: nat, firstSeen: int, lastSeen: int,
                                   deviceType: Json, deviceId: Json, location: Option<Json>)

  function TopicCount(s: TopicStat): nat
  {
    s.count
  }

  function DeviceCount(s: DeviceStat): nat
  {
    s.count
  }

  /** A topic's entry after one more message: created with `count: 0` when missing, then counted and stamped. */
  function TopicAfter(m: map<string, TopicStat>, topic: string, now: int): TopicStat
  {
    if topic in m then m[topic].(count := m[topic].count + 1, lastSeen := now)
    else TopicStat(1, now, now)
  }

  /** A device's entry after one more reading, created from that reading when missing. */
  function DeviceAfter(m: map<string, DeviceStat>, r: MessageKind, now: int): DeviceStat
    requires r.DeviceReading?
  {
    if r.key in m then m[r.key].(count := m[r.key].count + 1, lastSeen := now)
    else DeviceStat(1, now, now, r.deviceType, r.deviceId, r.location)
  }

  /** The subscriber's module-level statistics. */
  class Subscriber {
    /** The engine's number printing and parsing, fixed for the process. */
    const rt: Runtime
    var messageCount: nat
    var topicStats: map<string, TopicStat>
    /** The iteration order of `topicStats`. */
    var topicOrder: seq<string>
    var deviceStats: map<string, DeviceStat>
    /** The iteration order of `deviceStats`. */
    var deviceOrder: seq<string>
    /** The topic of every message received, in order. */
    ghost var received: seq<string>
    /** The key of every device reading counted, in order. */
    ghost var readings: seq<string>

    ghost predicate TopicsValid()
      reads this`messageCount, this`topicStats, this`topicOrder, this`received
    {
      TopicTable(messageCount, topicOrder, topicStats, received)
    }

    ghost predicate DevicesValid()
      reads this`deviceStats, this`deviceOrder, this`readings
    {
      DeviceTable(deviceOrder, deviceStats, readings, rt)
    }

    ghost predicate Valid()
      reads this
    {
      TopicsValid() && DevicesValid()
    }

    /** No topic entry was first seen after it was last seen, nor last seen after `now`. */
    ghost predicate TopicsSeenBy(now: int)
      reads this`topicStats
    {
      TopicsSeen(topicStats, now)
    }

    /** The same for the device entries. */
    ghost predicate DevicesSeenBy(now: int)
      reads this`deviceStats
    {
      forall k :: k in deviceStats ==> deviceStats[k].firstSeen <= deviceStats[k].lastSeen <= now
    }

    /** The module's initialisation: a zero counter and two empty `Map`s. */
    constructor (rt: Runtime)
      ensures Valid()
      ensures this.rt == rt
      ensures messageCount == 0 && topicStats == map[] && deviceStats == map[]
      ensures topicOrder == [] && deviceOrder == []
    {
      this.rt := rt;
      messageCount := 0;
      topicStats := map[];
      topicOrder := [];
      deviceStats := map[];
      deviceOrder := [];
      received := [];
      readings := [];
    }

    /**
     * The `message` handler.  `parsed` is `JSON.parse` of `payload`, `None`
     * when it throws.  Every message is counted under its topic; only a
     * device reading touches `deviceStats`, and only its own entry.
     */
    method HandleMessage(topic: string, payload: string, parsed: Option<Json>, now: int)
      returns (kind: MessageKind)
      requires Valid()
      modifies this
      ensures Valid()
      ensures kind == Dispatch(parsed, payload, rt)
      ensures messageCount == old(messageCount) + 1
      ensures received == old(received) + [topic]
      ensures topicOrder == Placed(old(topicOrder), topic)
      ensures topicStats == old(topicStats)[topic := TopicAfter(old(topicStats), topic, now)]
      ensures kind.DeviceReading? ==>
        && readings == old(readings) + [kind.key]
        && deviceOrder == Placed(old(deviceOrder), kind.key)
        && deviceStats == old(deviceStats)[kind.key := DeviceAfter(old(deviceStats), kind, now)]
      ensures !kind.DeviceReading? ==>
        readings == old(readings) && deviceOrder == old(deviceOrder) && deviceStats == old(deviceStats)
      ensures old(TopicsSeenBy(now)) ==> TopicsSeenBy(now)
      ensures old(DevicesSeenBy(now)) ==> DevicesSeenBy(now)
    {
      CountMessage(topic, now);
      kind := Dispatch(parsed, payload, rt);
      if kind.DeviceReading? {
        DispatchCases(parsed, payload, rt);
        CountReading(kind, now);
      }
    }

    /** `messageCount++` and the `topicStats` update that open the handler. */
    method CountMessage(topic: string, now: int)
      requires TopicsValid()
      modifies this`messageCount, this`topicStats, this`topicOrder, this`received
      ensures TopicsValid()
      ensures messageCount == old(messageCount) + 1
      ensures received == old(received) + [topic]
      ensures topicOrder == Placed(old(topicOrder), topic)
      ensures topicStats == old(topicStats)[topic := TopicAfter(old(topicStats), topic, now)]
      ensures old(TopicsSeenBy(now)) ==> TopicsSeenBy(now)
    {
      var stats, order := CountTopic(topicStats, topicOrder, topic, now);
      TopicTableStep(messageCount, topicOrder, topicStats, received, topic, now);
      messageCount, received, topicStats, topicOrder := messageCount + 1, received + [topic], stats, order;
    }

    /** The `deviceStats` update of the device branch. */
    method CountReading(kind: MessageKind, now: int)
      requires DevicesValid()
      requires kind.DeviceReading? && DeviceKey(kind.deviceType, kind.deviceId, rt) == Some(kind.key)
      modifies this`deviceStats, this`deviceOrder, this`readings
      ensures DevicesValid()
      ensures readings == old(readings) + [kind.key]
      ensures deviceOrder == Placed(old(deviceOrder), kind.key)
      ensures deviceStats == old(deviceStats)[kind.key := DeviceAfter(old(deviceStats), kind, now)]
      ensures old(DevicesSeenBy(now)) ==> DevicesSeenBy(now)
    {
      var key := kind.key;
      ghost var keys0, devices0, readings0 := deviceOrder, deviceStats, readings;
      readings := readings + [key];
      if key !in deviceStats {
        deviceStats := deviceStats[key := DeviceStat(0, now, now, kind.deviceType, kind.deviceId, kind.location)];
        deviceOrder := deviceOrder + [key];
      }
      var deviceStat := deviceStats[key];
      deviceStats := deviceStats[key := deviceStat.(count := deviceStat.count + 1, lastSeen := now)];
      assert deviceStats == devices0[key := DeviceAfter(devices0, kind, now)];
      DeviceTableStep(keys0, devices0, readings0, rt, kind, now);
    }
  }

  /**
   * The `topicStats` update of the handler: create the topic's entry with
   * count 0 if missing, then count the message and stamp `lastSeen`.
   */
  method CountTopic(stats: map<string, TopicStat>, order: seq<string>, topic: string, now: int)
    returns (stats': map<string, TopicStat>, order': seq<string>)
    requires Lists(order, stats)
    ensures stats' == stats[topic := TopicAfter(stats, topic, now)]
    ensures order' == Placed(order, topic)
    ensures TopicsSeen(stats, now) ==> TopicsSeen(stats', now)
  {
    stats', order' := stats, order;
    if topic !in stats' {
      stats' := stats'[topic := TopicStat(0, now, now)];
      order' := order' + [topic];
    }
    var topicStat := stats'[topic];
    assert topicStat.(count := topicStat.count + 1, lastSeen := now) == TopicAfter(stats, topic, now);
    stats' := stats'[topic := topicStat.(count := topicStat.count + 1, lastSeen := now)];
  }

  /** Every entry was first seen no later than last seen, and last seen no later than `now`. */
  ghost predicate TopicsSeen(m: map<string, TopicStat>, now: int)
  {
    forall t :: t in m ==> m[t].firstSeen <= m[t].lastSeen <= now
  }

  /**
   * The topic table is consistent with the messages received: every message
   * is counted once, overall and under its topic, and the topic counts add
   * up to the total.
   */
  ghost predicate TopicTable(messageCount: nat, order: seq<string>, stats: map<string, TopicStat>, received: seq<string>)
  {
    && Lists(order, stats)
    && messageCount == |received|
    && (forall t :: t in stats <==> t in received)
    && (forall t :: t in stats ==> stats[t].count == multiset(received)[t])
    && Sum(order, stats, TopicCount) == messageCount
  }

  /**
   * The device table is consistent with the readings counted: each once,
   * under the key `deviceType:deviceId` printed from the entry's own type
   * and id.
   */
  ghost predicate DeviceTable(order: seq<string>, stats: map<string, DeviceStat>, readings: seq<string>, rt: Runtime)
  {
    && Lists(order, stats)
    && (forall k :: k in stats <==> k in readings)
    && (forall k :: k in stats ==> stats[k].count == multiset(readings)[k])
    && (forall k :: k in stats ==> DeviceKey(stats[k].deviceType, stats[k].deviceId, rt) == Some(k))
  }

  /** One more message keeps the topic order a listing and adds one to the sum of the counts. */
  lemma TopicSumStep(order: seq<string>, stats: map<string, TopicStat>, topic: string, now: int)
    requires Lists(order, stats)
    ensures Lists(Placed(order, topic), stats[topic := TopicAfter(stats, topic, now)])
    ensures Sum(Placed(order, topic), stats[topic := TopicAfter(stats, topic, now)], TopicCount)
            == Sum(order, stats, TopicCount) + 1
  {
    var entry := TopicAfter(stats, topic, now);
    PlacedLists(order, stats, topic, entry);
    SumSet(order, stats, topic, entry, TopicCount);
  }

  /** One more message on `topic` keeps each count the number of its messages. */
  lemma TopicCountStep(stats: map<string, TopicStat>, received: seq<string>, topic: string, now: int)
    requires forall t :: t in stats <==> t in received
    requires forall t :: t in stats ==> stats[t].count == multiset(received)[t]
    ensures var stats' := stats[topic := TopicAfter(stats, topic, now)];
      && (forall t :: t in stats' <==> t in received + [topic])
      && (forall t :: t in stats' ==> stats'[t].count == multiset(received + [topic])[t])
  {
    assert multiset(received + [topic]) == multiset(received) + multiset{topic};
  }

  /** One more message keeps the topic table consistent. */
  lemma TopicTableStep(messageCount: nat, order: seq<string>, stats: map<string, TopicStat>,
                       received: seq<string>, topic: string, now: int)
    requires TopicTable(messageCount, order, stats, received)
    ensures TopicTable(messageCount + 1, Placed(order, topic), stats[topic := TopicAfter(stats, topic, now)],
                       received + [topic])
  {
    TopicSumStep(order, stats, topic, now);
    TopicCountStep(stats, received, topic, now);
  }

  /** One more device reading keeps the device table consistent. */
  lemma DeviceTableStep(order: seq<string>, stats: map<string, DeviceStat>, readings: seq<string>,
                        rt: Runtime, kind: MessageKind, now: int)
    requires DeviceTable(order, stats, readings, rt)
    requires kind.DeviceReading? && DeviceKey(kind.deviceType, kind.deviceId, rt) == Some(kind.key)
    ensures DeviceTable(Placed(order, kind.key), stats[kind.key := DeviceAfter(stats, kind, now)],
                        readings + [kind.key], rt)
  {
    var readings' := readings + [kind.key];
    var stats' := stats[kind.key := DeviceAfter(stats, kind, now)];
    PlacedLists(order, stats, kind.key, DeviceAfter(stats, kind, now));
    assert multiset(readings') == multiset(readings) + multiset{kind.key};
    forall k | k in stats'
      ensures stats'[k].count == multiset(readings')[k]
    {
    }
  }

  /**
   * The device-type summary of the 30-second report: a `Map` from each
   * `deviceType` to `{ count, devices }`, filled in `deviceStats` order.
   * For every type, `devices` is the number of device entries of that type
   * and `count` the sum of their message counts.
   */
  method DeviceTypeSummary(deviceOrder: seq<string>, deviceStats: map<string, DeviceStat>)
    returns (types: map<TypeKey, TypeStat>, typeOrder: seq<TypeKey>)
    requires Covers(deviceOrder, deviceStats)
    ensures types == TypeSummary(deviceOrder, deviceStats)
    ensures typeOrder == TypeOrder(deviceOrder, deviceStats)
    ensures Lists(typeOrder, types)
    ensures forall t :: t in types <==> DevicesOfType(deviceOrder, deviceStats, t) > 0
    ensures forall t :: t in types ==>
      types[t] == TypeStat(MessagesOfType(deviceOrder, deviceStats, t), DevicesOfType(deviceOrder, deviceStats, t))
  {
    types, typeOrder := map[], [];
    var i := 0;
    while i < |deviceOrder|
      invariant 0 <= i <= |deviceOrder|
      invariant Covers(deviceOrder[..i], deviceStats)
      invariant types == TypeSummary(deviceOrder[..i], deviceStats)
      invariant typeOrder == TypeOrder(deviceOrder[..i], deviceStats)
    {
      TypeOrderLists(deviceOrder[..i], deviceStats);
      types, typeOrder := CountType(types, typeOrder, deviceOrder[i], deviceStats[deviceOrder[i]]);
      TypeSummaryStep(deviceOrder, deviceStats, i);
      i := i + 1;
    }
    assert deviceOrder[..i] == deviceOrder;
    TypeOrderLists(deviceOrder, deviceStats);
    TypeSummaryExact(deviceOrder, deviceStats);
  }

  /** One turn of the summary's `forEach`: create the type's entry if missing, then add the device to it. */
  method CountType(types: map<TypeKey, TypeStat>, typeOrder: seq<TypeKey>, deviceKey: string, stats: DeviceStat)
    returns (types': map<TypeKey, TypeStat>, typeOrder': seq<TypeKey>)
    requires Lists(typeOrder, types)
    ensures var t := TypeKeyOf(deviceKey, stats);
      types' == WithDevice(types, t, stats.count) && typeOrder' == Placed(typeOrder, t)
  {
    var t := TypeKeyOf(deviceKey, stats);
    types', typeOrder' := types, typeOrder;
    if t !in types' {
      types' := types'[t := TypeStat(0, 0)];
      typeOrder' := typeOrder' + [t];
    }
    var typeStats := types'[t];
    types' := types'[t := TypeStat(typeStats.count + stats.count, typeStats.devices + 1)];
  }

  /** Every listed key has an entry. */
  predicate Covers(order: seq<string>, m: map<string, DeviceStat>)
  {
    forall k :: k in order ==> k in m
  }

  /**
   * A key of the summary `Map`.  `Map` compares keys by SameValueZero, so a
   * primitive `deviceType` is grouped by value, while an object or array one
   * is its own key: each entry holds the object parsed from its own message.
   */
  datatype TypeKey = Value(v: Json) | Identity(device: string)

  function TypeKeyOf(deviceKey: string, stats: DeviceStat): TypeKey
  {
    if stats.deviceType.JObj? || stats.deviceType.JArr? then Identity(deviceKey) else Value(stats.deviceType)
  }

  /** A value of the summary `Map`: `{ count, devices }`. */
  datatype TypeStat = TypeStat(count: nat, devices: nat)

  function TypeMessages(s: TypeStat): nat
  {
    s.count
  }

  function TypeDevices(s: TypeStat): nat
  {
    s.devices
  }

  /** How many of the listed devices have type `t`. */
  function DevicesOfType(order: seq<string>, m: map<string, DeviceStat>, t: TypeKey): nat
    requires Covers(order, m)
  {
    if order == [] then 0
    else
      var last := order[|order| - 1];
      DevicesOfType(order[..|order| - 1], m, t) + (if TypeKeyOf(last, m[last]) == t then 1 else 0)
  }

  /** The messages counted for the listed devices of type `t`. */
  function MessagesOfType(order: seq<string>, m: map<string, DeviceStat>, t: TypeKey): nat
    requires Covers(order, m)
  {
    if order == [] then 0
    else
      var last := order[|order| - 1];
      MessagesOfType(order[..|order| - 1], m, t) + (if TypeKeyOf(last, m[last]) == t then m[last].count else 0)
  }

  /** The summary after adding one device of type `t` with `c` messages to its type's entry. */
  function WithDevice(prev: map<TypeKey, TypeStat>, t: TypeKey, c: nat): map<TypeKey, TypeStat>
  {
    var s := if t in prev then prev[t] else TypeStat(0, 0);
    prev[t := TypeStat(s.count + c, s.devices + 1)]
  }

  /** The summary `Map` after visiting the listed devices in order. */
  function TypeSummary(order: seq<string>, m: map<string, DeviceStat>): map<TypeKey, TypeStat>
    requires Covers(order, m)
  {
    if order == [] then map[]
    else
      var last := order[|order| - 1];
      WithDevice(TypeSummary(order[..|order| - 1], m), TypeKeyOf(last, m[last]), m[last].count)
  }

  /** The key order of that `Map`: each type where its first device stands. */
  function TypeOrder(order: seq<string>, m: map<string, DeviceStat>): seq<TypeKey>
    requires Covers(order, m)
  {
    if order == [] then []
    else
      var last := order[|order| - 1];
      Placed(TypeOrder(order[..|order| - 1], m), TypeKeyOf(last, m[last]))
  }

  /** Visiting the device at index `i` updates its type's entry and places its type. */
  lemma TypeSummaryStep(order: seq<string>, m: map<string, DeviceStat>, i: nat)
    requires Covers(order, m) && i < |order|
    ensures Covers(order[..i], m) && Covers(order[..i + 1], m)
    ensures var t := TypeKeyOf(order[i], m[order[i]]);
      && TypeSummary(order[..i + 1], m) == WithDevice(TypeSummary(order[..i], m), t, m[order[i]].count)
      && TypeOrder(order[..i + 1], m) == Placed(TypeOrder(order[..i], m), t)
  {
    assert order[..i + 1][..i] == order[..i];
  }

  /** A type is in the summary exactly when a device has it, with its device and message totals. */
  lemma {:induction false} TypeSummarySpec(order: seq<string>, m: map<string, DeviceStat>, t: TypeKey)
    requires Covers(order, m)
    ensures t in TypeSummary(order, m) <==> DevicesOfType(order, m, t) > 0
    ensures t in TypeSummary(order, m) ==>
      TypeSummary(order, m)[t] == TypeStat(MessagesOfType(order, m, t), DevicesOfType(order, m, t))
    ensures DevicesOfType(order, m, t) == 0 ==> MessagesOfType(order, m, t) == 0
  {
    if order != [] {
      var init := order[..|order| - 1];
      var last := order[|order| - 1];
      assert Covers(init, m);
      TypeSummarySpec(init, m, t);
      var prev := TypeSummary(init, m);
      var u := TypeKeyOf(last, m[last]);
      var s := if u in prev then prev[u] else TypeStat(0, 0);
      assert TypeSummary(order, m) == WithDevice(prev, u, m[last].count);
      assert TypeSummary(order, m) == prev[u := TypeStat(s.count + m[last].count, s.devices + 1)];
    }
  }

  /** The summary holds exactly the types of the listed devices, each with its totals. */
  lemma TypeSummaryExact(order: seq<string>, m: map<string, DeviceStat>)
    requires Covers(order, m)
    ensures forall t :: t in TypeSummary(order, m) <==> DevicesOfType(order, m, t) > 0
    ensures forall t :: t in TypeSummary(order, m) ==>
      TypeSummary(order, m)[t] == TypeStat(MessagesOfType(order, m, t), DevicesOfType(order, m, t))
  {
    forall t
      ensures t in TypeSummary(order, m) <==> DevicesOfType(order, m, t) > 0
      ensures t in TypeSummary(order, m) ==>
        TypeSummary(order, m)[t] == TypeStat(MessagesOfType(order, m, t), DevicesOfType(order, m, t))
    {
      TypeSummarySpec(order, m, t);
    }
  }

  /** One step of the summary: the last device adds itself to its type's entry and places its type. */
  lemma TypeSummaryUnfold(order: seq<string>, m: map<string, DeviceStat>)
    requires Covers(order, m) && order != []
    ensures Covers(order[..|order| - 1], m)
    ensures TypeSummary(order, m)
      == WithDevice(TypeSummary(order[..|order| - 1], m), TypeKeyOf(order[|order| - 1], m[order[|order| - 1]]), m[order[|order| - 1]].count)
    ensures TypeOrder(order, m)
      == Placed(TypeOrder(order[..|order| - 1], m), TypeKeyOf(order[|order| - 1], m[order[|order| - 1]]))
  {
    assert Covers(order[..|order| - 1], m);
  }

  /** The summary's key order lists each of its types once. */
  lemma {:induction false} TypeOrderLists(order: seq<string>, m: map<string, DeviceStat>)
    requires Covers(order, m)
    ensures Lists(TypeOrder(order, m), TypeSummary(order, m))
  {
    if order != [] {
      var init := order[..|order| - 1];
      var last := order[|order| - 1];
      TypeSummaryUnfold(order, m);
      TypeOrderLists(init, m);
      var prev := TypeSummary(init, m);
      var t := TypeKeyOf(last, m[last]);
      var s := if t in prev then prev[t] else TypeStat(0, 0);
      PlacedLists(TypeOrder(init, m), prev, t, TypeStat(s.count + m[last].count, s.devices + 1));
    }
  }

  /** Counting one more device of type `t` with `c` messages adds one device and `c` messages to the totals. */
  lemma AddToType(o: seq<TypeKey>, prev: map<TypeKey, TypeStat>, t: TypeKey, c: nat)
    requires Lists(o, prev)
    ensures Lists(Placed(o, t), WithDevice(prev, t, c))
    ensures Sum(Placed(o, t), WithDevice(prev, t, c), TypeDevices) == Sum(o, prev, TypeDevices) + 1
    ensures Sum(Placed(o, t), WithDevice(prev, t, c), TypeMessages) == Sum(o, prev, TypeMessages) + c
  {
    var s := if t in prev then prev[t] else TypeStat(0, 0);
    var v := TypeStat(s.count + c, s.devices + 1);
    assert WithDevice(prev, t, c) == prev[t := v];
    PlacedLists(o, prev, t, v);
    SumSet(o, prev, t, v, TypeDevices);
    SumSet(o, prev, t, v, TypeMessages);
  }

  /** Over the whole summary every device is counted once. */
  lemma {:induction false} TypeDevicesTotal(order: seq<string>, m: map<string, DeviceStat>)
    requires Covers(order, m)
    ensures Lists(TypeOrder(order, m), TypeSummary(order, m))
    ensures Sum(TypeOrder(order, m), TypeSummary(order, m), TypeDevices) == |order|
  {
    if order == [] {
      TypeOrderLists(order, m);
    } else {
      var init := order[..|order| - 1];
      var last := order[|order| - 1];
      TypeSummaryUnfold(order, m);
      TypeDevicesTotal(init, m);
      AddToType(TypeOrder(init, m), TypeSummary(init, m), TypeKeyOf(last, m[last]), m[last].count);
    }
  }

  /** Over the whole summary every device message is counted once. */
  lemma {:induction false} TypeMessagesTotal(order: seq<string>, m: map<string, DeviceStat>)
    requires Covers(order, m)
    ensures Lists(TypeOrder(order, m), TypeSummary(order, m))
    ensures Sum(TypeOrder(order, m), TypeSummary(order, m), TypeMessages) == Sum(order, m, DeviceCount)
  {
    if order == [] {
      TypeOrderLists(order, m);
    } else {
      var init := order[..|order| - 1];
      var last := order[|order| - 1];
      TypeSummaryUnfold(order, m);
      TypeMessagesTotal(init, m);
      AddToType(TypeOrder(init, m), TypeSummary(init, m), TypeKeyOf(last, m[last]), m[last].count);
    }
  }

  /** How many topics the 30-second report ranks ... */
  const PeriodicTopCount := 5
  /** ... and how many the shutdown summary ranks. */
  const ShutdownTopCount := 10

  /**
   * The 30-second report ranks the first five topics and the shutdown summary
   * the first ten, of the same ordering: the periodic ranking is the head of
   * the shutdown one.
   */
  lemma ReportRankings(order: seq<string>, m: map<string, TopicStat>)
    requires Lists(order, m)
    ensures var periodic, shutdown := TopTopics(order, m, PeriodicTopCount), TopTopics(order, m, ShutdownTopCount);
      && |periodic| == (if |order| < 5 then |order| else 5)
      && |shutdown| == (if |order| < 10 then |order| else 10)
      && periodic <= shutdown
  {
    TopTopicsSpec(order, m, PeriodicTopCount);
    TopTopicsSpec(order, m, ShutdownTopCount);
  }

  /** `Array.from(topicStats.entries())`. */
  function TopicEntries(order: seq<string>, m: map<string, TopicStat>): (r: seq<(string, TopicStat)>)
    requires forall t :: t in order ==> t in m
    ensures |r| == |order|
  {
    seq(|order|, i requires 0 <= i < |order| => (order[i], m[order[i]]))
  }

  /** The comparator's key, `b[1].count - a[1].count` being descending count order. */
  function EntryCount(e: (string, TopicStat)): int
  {
    e.1.count
  }

  /** `.sort((a, b) => b[1].count - a[1].count).slice(0, n)`. */
  function TopTopics(order: seq<string>, m: map<string, TopicStat>, n: nat): seq<(string, TopicStat)>
    requires forall t :: t in order ==> t in m
  {
    TopN(TopicEntries(order, m), EntryCount, n)
  }

  /**
   * The ranking lists `min(n, topics)` entries of the table, each topic at
   * most once, by count descending, and no topic left out has more messages
   * than one listed.
   */
  lemma TopTopicsSpec(order: seq<string>, m: map<string, TopicStat>, n: nat)
    requires Lists(order, m)
    ensures var r := TopTopics(order, m, n);
      && |r| == (if n < |order| then n else |order|)
      && Descending(r, EntryCount)
      && multiset(r) <= multiset(TopicEntries(order, m))
      && (forall e :: e in r ==> e.0 in m && e.1 == m[e.0])
      && (forall i, j :: 0 <= i < j < |r| ==> r[i].0 != r[j].0)
      && (forall t, e :: t in m && (t, m[t]) !in r && e in r ==> e.1.count >= m[t].count)
  {
    var entries := TopicEntries(order, m);
    var r := TopTopics(order, m, n);
    TopNSpec(entries, EntryCount, n);
    forall e | e in r
      ensures e.0 in m && e.1 == m[e.0]
    {
      assert e in multiset(r);
      assert e in multiset(entries);
    }
    assert Distinct(entries) by {
      forall i, j | 0 <= i < j < |entries|
        ensures entries[i] != entries[j]
      {
        assert entries[i].0 == order[i] && entries[j].0 == order[j];
      }
    }
    forall i, j | 0 <= i < j < |r|
      ensures r[i].0 != r[j].0
    {
      assert r[i] in r && r[j] in r;
      RepeatCountsTwice(r, i, j);
      DistinctOnce(entries, r[i]);
    }
    forall t, e | t in m && (t, m[t]) !in r && e in r
      ensures e.1.count >= m[t].count
    {
      var i :| 0 <= i < |order| && order[i] == t;
      assert entries[i] == (t, m[t]);
      TopNLeftOut(entries, EntryCount, n, (t, m[t]));
    }
  }

  /** The status of a device in the 60-second report. */
  datatype Activity = Active | Quiet | Inactive

  /** `Math.floor((to - from) / 1000)`: whole seconds between two clock readings. */
  function ElapsedSeconds(from: int, to: int): int
  {
    (to - from) / 1000
  }

  /** `timeSinceLastMsg < 60 ? Active : timeSinceLastMsg < 300 ? Quiet : Inactive`. */
  function ActivityLabel(seconds: int): Activity
  {
    if seconds < 60 then Active else if seconds < 300 then Quiet else Inactive
  }

  /** The labels in order of staleness. */
  function Staleness(a: Activity): nat
  {
    match a
    case Active => 0
    case Quiet => 1
    case Inactive => 2
  }

  /** On the clock itself: Active below one minute, Quiet below five, Inactive from then on. */
  lemma ActivityThresholds(lastSeen: int, now: int)
    ensures ActivityLabel(ElapsedSeconds(lastSeen, now)) == Active <==> now - lastSeen < 60000
    ensures ActivityLabel(ElapsedSeconds(lastSeen, now)) == Quiet <==> 60000 <= now - lastSeen < 300000
    ensures ActivityLabel(ElapsedSeconds(lastSeen, now)) == Inactive <==> now - lastSeen >= 300000
  {
    var d := now - lastSeen;
    assert d == 1000 * (d / 1000) + d % 1000 && 0 <= d % 1000 < 1000;
  }

  /** Whole seconds never decrease as the interval grows. */
  lemma ElapsedMonotone(from: int, from': int, to: int)
    requires from' <= from
    ensures ElapsedSeconds(from, to) <= ElapsedSeconds(from', to)
  {
    var d, d' := to - from, to - from';
    assert d == 1000 * (d / 1000) + d % 1000 && 0 <= d % 1000 < 1000;
    assert d' == 1000 * (d' / 1000) + d' % 1000 && 0 <= d' % 1000 < 1000;
  }

  /** One device of the 60-second report. */
  datatype ReportLine = ReportLine(key: string, activity: Activity, secondsSince: int, secondsActive: int,
                                   count: nat, deviceType: Json, deviceId: Json, location: Option<Json>)

  /** `Array.from(deviceStats.entries())`. */
  function DeviceEntries(order: seq<string>, m: map<string, DeviceStat>): (r: seq<(string, DeviceStat)>)
    requires Covers(order, m)
    ensures |r| == |order|
  {
    seq(|order|, i requires 0 <= i < |order| => (order[i], m[order[i]]))
  }

  /** The comparator's key, `b[1].lastSeen - a[1].lastSeen` being most recent first. */
  function LastSeen(e: (string, DeviceStat)): int
  {
    e.1.lastSeen
  }

  function Line(e: (string, DeviceStat), now: int): ReportLine
  {
    var since := ElapsedSeconds(e.1.lastSeen, now);
    ReportLine(e.0, ActivityLabel(since), since, ElapsedSeconds(e.1.firstSeen, e.1.lastSeen),
               e.1.count, e.1.deviceType, e.1.deviceId, e.1.location)
  }

  /** The 60-second report: every device, most recently seen first. */
  function DeviceReport(order: seq<string>, m: map<string, DeviceStat>, now: int): seq<ReportLine>
    requires Covers(order, m)
  {
    var sorted := SortDescending(DeviceEntries(order, m), LastSeen);
    seq(|sorted|, i requires 0 <= i < |sorted| => Line(sorted[i], now))
  }

  /**
   * The report lists every device exactly once, each line printing its own
   * device's entry, most recently seen first; so going down it the time since
   * the last message never shrinks, no Active device follows a Quiet one and
   * no Quiet device follows an Inactive one.
   */
  lemma DeviceReportSpec(order: seq<string>, m: map<string, DeviceStat>, now: int)
    requires Lists(order, m)
    ensures var r := DeviceReport(order, m, now);
      && |r| == |order|
      && (forall k :: k in m ==> exists i :: 0 <= i < |r| && r[i].key == k)
      && (forall i :: 0 <= i < |r| ==> r[i].key in m && r[i] == Line((r[i].key, m[r[i].key]), now))
      && (forall i, j :: 0 <= i < j < |r| ==> r[i].key != r[j].key)
      && (forall i, j :: 0 <= i < j < |r| ==> m[r[i].key].lastSeen >= m[r[j].key].lastSeen)
      && (forall i, j :: 0 <= i < j < |r| ==>
            r[i].secondsSince <= r[j].secondsSince && Staleness(r[i].activity) <= Staleness(r[j].activity))
  {
    DeviceReportLines(order, m, now);
    DeviceReportKeys(order, m, now);
    DeviceReportOrder(order, m, now);
  }

  /** Each line of the report is its own device's entry. */
  lemma DeviceReportLines(order: seq<string>, m: map<string, DeviceStat>, now: int)
    requires Lists(order, m)
    ensures var r := DeviceReport(order, m, now);
      && |r| == |order|
      && (forall i :: 0 <= i < |r| ==> r[i].key in m && r[i] == Line((r[i].key, m[r[i].key]), now))
  {
    var sorted := SortDescending(DeviceEntries(order, m), LastSeen);
    var r := DeviceReport(order, m, now);
    SortedDevices(order, m);
    forall i | 0 <= i < |r|
      ensures r[i].key in m && r[i] == Line((r[i].key, m[r[i].key]), now)
    {
      assert r[i] == Line(sorted[i], now);
    }
  }

  /** Every device has exactly one line in the report. */
  lemma DeviceReportKeys(order: seq<string>, m: map<string, DeviceStat>, now: int)
    requires Lists(order, m)
    ensures var r := DeviceReport(order, m, now);
      && (forall k :: k in m ==> exists i :: 0 <= i < |r| && r[i].key == k)
      && (forall i, j :: 0 <= i < j < |r| ==> r[i].key != r[j].key)
  {
    var sorted := SortDescending(DeviceEntries(order, m), LastSeen);
    var r := DeviceReport(order, m, now);
    SortedDevicesCover(order, m);
    SortedDevicesDistinct(order, m);
    assert |r| == |sorted|;
    forall k | k in m
      ensures exists i :: 0 <= i < |r| && r[i].key == k
    {
      var i :| 0 <= i < |sorted| && sorted[i].0 == k;
      assert r[i].key == k;
    }
    forall i, j | 0 <= i < j < |r|
      ensures r[i].key != r[j].key
    {
      assert r[i].key == sorted[i].0 && r[j].key == sorted[j].0;
    }
  }

  /** Down the report, `lastSeen` never grows, so neither do the seconds since it nor the staleness. */
  lemma DeviceReportOrder(order: seq<string>, m: map<string, DeviceStat>, now: int)
    requires Lists(order, m)
    ensures var r := DeviceReport(order, m, now);
      && (forall i, j :: 0 <= i < j < |r| ==> r[i].key in m && r[j].key in m && m[r[i].key].lastSeen >= m[r[j].key].lastSeen)
      && (forall i, j :: 0 <= i < j < |r| ==>
            r[i].secondsSince <= r[j].secondsSince && Staleness(r[i].activity) <= Staleness(r[j].activity))
  {
    var sorted := SortDescending(DeviceEntries(order, m), LastSeen);
    var r := DeviceReport(order, m, now);
    SortedDevices(order, m);
    forall i, j | 0 <= i < j < |r|
      ensures r[i].key in m && r[j].key in m && m[r[i].key].lastSeen >= m[r[j].key].lastSeen
    {
      assert r[i].key == sorted[i].0 && r[j].key == sorted[j].0;
    }
    forall i, j | 0 <= i < j < |r|
      ensures r[i].secondsSince <= r[j].secondsSince && Staleness(r[i].activity) <= Staleness(r[j].activity)
    {
      ElapsedMonotone(sorted[i].1.lastSeen, sorted[j].1.lastSeen, now);
    }
  }

  /** The sorted entries are the table's, each device present, most recently seen first. */
  lemma SortedDevices(order: seq<string>, m: map<string, DeviceStat>)
    requires Lists(order, m)
    ensures var sorted := SortDescending(DeviceEntries(order, m), LastSeen);
      && |sorted| == |order|
      && (forall i :: 0 <= i < |sorted| ==> sorted[i].0 in m && sorted[i] == (sorted[i].0, m[sorted[i].0]))
      && (forall i, j :: 0 <= i < j < |sorted| ==> sorted[i].1.lastSeen >= sorted[j].1.lastSeen)
  {
    var entries := DeviceEntries(order, m);
    var sorted := SortDescending(entries, LastSeen);
    SortDescendingSpec(entries, LastSeen);
    assert |sorted| == |entries| by {
      assert |multiset(sorted)| == |multiset(entries)|;
    }
    forall i | 0 <= i < |sorted|
      ensures sorted[i].0 in m && sorted[i] == (sorted[i].0, m[sorted[i].0])
    {
      assert sorted[i] in multiset(entries);
    }
    forall i, j | 0 <= i < j < |sorted|
      ensures sorted[i].1.lastSeen >= sorted[j].1.lastSeen
    {
      assert LastSeen(sorted[i]) >= LastSeen(sorted[j]);
    }
  }

  /** Every device of the table is among the sorted entries. */
  lemma SortedDevicesCover(order: seq<string>, m: map<string, DeviceStat>)
    requires Lists(order, m)
    ensures var sorted := SortDescending(DeviceEntries(order, m), LastSeen);
      forall k :: k in m ==> exists i :: 0 <= i < |sorted| && sorted[i].0 == k
  {
    var entries := DeviceEntries(order, m);
    var sorted := SortDescending(entries, LastSeen);
    SortDescendingSpec(entries, LastSeen);
    forall k | k in m
      ensures exists i :: 0 <= i < |sorted| && sorted[i].0 == k
    {
      var p :| 0 <= p < |order| && order[p] == k;
      assert entries[p] in multiset(sorted);
      var i :| 0 <= i < |sorted| && sorted[i] == entries[p];
    }
  }

  /** No device appears twice among the sorted entries. */
  lemma SortedDevicesDistinct(order: seq<string>, m: map<string, DeviceStat>)
    requires Lists(order, m)
    ensures forall i, j :: 0 <= i < j < |SortDescending(DeviceEntries(order, m), LastSeen)| ==>
      SortDescending(DeviceEntries(order, m), LastSeen)[i].0 != SortDescending(DeviceEntries(order, m), LastSeen)[j].0
  {
    var entries := DeviceEntries(order, m);
    var sorted := SortDescending(entries, LastSeen);
    SortedDevices(order, m);
    SortDescendingSpec(entries, LastSeen);
    assert Distinct(entries) by {
      forall i, j | 0 <= i < j < |entries|
        ensures entries[i] != entries[j]
      {
        assert entries[i].0 == order[i] && entries[j].0 == order[j];
      }
    }
    forall i, j | 0 <= i < j < |sorted|
      ensures sorted[i].0 != sorted[j].0
    {
      RepeatCountsTwice(sorted, i, j);
      DistinctOnce(entries, sorted[i]);
    }
  }
}
