/**
 * The bookkeeping of the MQTT broker (mqtt_services/mqtt-broker.js): the
 * `connectedClients` map the aedes event handlers maintain, the totals its
 * reports reduce from it, and the authentication and authorisation hooks.
 *
 * The aedes broker is an event source: each handler is a method here, called
 * with what the event carries.  The clock is the parameter `now`.
 */
module Broker {
  import opened Js
  import opened OrderedMaps

  datatype ConnectionType = Tcp | WebSocket

  /** What an aedes `client` object tells the handlers. */
  datatype Client = Client(id: string, remoteAddress: Option<string>, hasRequest: bool)

  /** A value of `connectedClients`. */
  datatype ClientInfo = ClientInfo(id: string, ip: string, kind: ConnectionType, connectedAt: int, messageCount: nat)

  function MessageCount(c: ClientInfo): nat
  {
    c.messageCount
  }

  /** `client.conn?.remoteAddress || 'unknown'`: a missing or empty address reads `unknown`. */
  function ClientIP(c: Client): (ip: string)
    ensures ip == "unknown" <==> c.remoteAddress.None? || c.remoteAddress.value in {"", "unknown"}
    ensures ip != "unknown" ==> c.remoteAddress == Some(ip)
  {
    if c.remoteAddress.Some? && c.remoteAddress.value != "" then c.remoteAddress.value else "unknown"
  }

  /** The entry stored on connect: a fresh record with no messages. */
  function NewEntry(c: Client, now: int): ClientInfo
  {
    ClientInfo(c.id, ClientIP(c), if c.hasRequest then WebSocket else Tcp, now, 0)
  }

  /**
   * `packet.topic.startsWith('$SYS/')`: the broker's own topics, which by
   * section 4.7.2 of OASIS MQTT 3.1.1 begin with `$` and are skipped.
   */
  predicate IsSystemTopic(topic: string)
  {
    "$SYS/" <= topic
  }

  /** The count a publish leaves for entry `id`. */
  function CountAfterPublish(m: map<string, ClientInfo>, topic: string, sender: Option<string>, id: string): nat
    requires id in m
  {
    if !IsSystemTopic(topic) && sender == Some(id) then m[id].messageCount + 1 else m[id].messageCount
  }

  /** `Array.from(connectedClients.values()).reduce((sum, c) => sum + c.messageCount, 0)`. */
  function TotalMessages(order: seq<string>, m: map<string, ClientInfo>): nat
    requires forall id :: id in order ==> id in m
  {
    Sum(order, m, MessageCount)
  }

  /** Every entry is stored under its own id. */
  predicate KeyedById(m: map<string, ClientInfo>)
  {
    forall id :: id in m ==> m[id].id == id
  }

  /** A connect keeps the key order a listing and moves the total by the replaced count. */
  lemma ConnectKeepsTable(order: seq<string>, m: map<string, ClientInfo>, entry: ClientInfo)
    requires Lists(order, m) && KeyedById(m)
    ensures Lists(Placed(order, entry.id), m[entry.id := entry]) && KeyedById(m[entry.id := entry])
    ensures TotalMessages(Placed(order, entry.id), m[entry.id := entry])
            + (if entry.id in m then m[entry.id].messageCount else 0)
            == TotalMessages(order, m) + entry.messageCount
  {
    var m' := m[entry.id := entry];
    PlacedLists(order, m, entry.id, entry);
    forall id | id in m'
      ensures m'[id].id == id
    {
      if id != entry.id {
        assert m'[id] == m[id];
      }
    }
    SumSet(order, m, entry.id, entry, MessageCount);
    assert TotalMessages(Placed(order, entry.id), m') == Sum(Placed(order, entry.id), m', MessageCount);
  }

  class Broker {
    var connectedClients: map<string, ClientInfo>
    /** The iteration order of `connectedClients`. */
    var clientOrder: seq<string>

    /** The order lists the keys, and every entry is stored under its own id. */
    ghost predicate Valid()
      reads this
    {
      Lists(clientOrder, connectedClients) && KeyedById(connectedClients)
    }

    constructor ()
      ensures Valid()
      ensures connectedClients == map[] && clientOrder == []
    {
      connectedClients := map[];
      clientOrder := [];
    }

    /** "Total messages processed" in both reports. */
    function Total(): nat
      reads this
      requires Valid()
    {
      TotalMessages(clientOrder, connectedClients)
    }

    /** "Total clients served" at shutdown: the clients connected right now. */
    function ClientsServed(): nat
      reads this
    {
      |connectedClients|
    }

    /**
     * The `client` handler: store a fresh entry with `messageCount: 0`,
     * replacing any entry of the same id, whose count is then lost.
     */
    method OnClient(client: Client, now: int)
      requires Valid()
      modifies this
      ensures Valid()
      ensures connectedClients == old(connectedClients)[client.id := NewEntry(client, now)]
      ensures clientOrder == Placed(old(clientOrder), client.id)
      ensures connectedClients[client.id].messageCount == 0
      ensures Total() + (if client.id in old(connectedClients) then old(connectedClients)[client.id].messageCount else 0)
              == old(Total())
    {
      ConnectKeepsTable(clientOrder, connectedClients, NewEntry(client, now));
      connectedClients := connectedClients[client.id := NewEntry(client, now)];
      if client.id !in clientOrder {
        clientOrder := clientOrder + [client.id];
      }
    }

    /**
     * The `clientDisconnect` handler: delete that id's entry, with its count,
     * and leave every other entry as it was.
     */
    method OnClientDisconnect(id: string)
      requires Valid()
      modifies this
      ensures Valid()
      ensures connectedClients == old(connectedClients) - {id}
      ensures clientOrder == Without(old(clientOrder), id)
      ensures forall other :: other != id && other in old(connectedClients) ==>
        other in connectedClients && connectedClients[other] == old(connectedClients)[other]
      ensures ClientsServed() == old(ClientsServed()) - (if id in old(connectedClients) then 1 else 0)
      ensures Total() + (if id in old(connectedClients) then old(connectedClients)[id].messageCount else 0)
              == old(Total())
    {
      ghost var order0, clients0 := clientOrder, connectedClients;
      connectedClients := connectedClients - {id};
      clientOrder := Without(clientOrder, id);
      WithoutLists(order0, clients0, id);
      SumDelete(order0, clients0, id, MessageCount);
    }

    /**
     * The `publish` handler: a `$SYS/` topic, a publish without a client and
     * one from an unregistered id change nothing; otherwise exactly the
     * sender's count goes up by one.
     */
    method OnPublish(topic: string, sender: Option<string>)
      requires Valid()
      modifies this
      ensures Valid()
      ensures clientOrder == old(clientOrder)
      ensures connectedClients.Keys == old(connectedClients).Keys
      ensures forall id :: id in connectedClients ==>
        connectedClients[id] == old(connectedClients)[id].(messageCount := CountAfterPublish(old(connectedClients), topic, sender, id))
      ensures Total() == old(Total())
        + (if !IsSystemTopic(topic) && sender.Some? && sender.value in old(connectedClients) then 1 else 0)
    {
      if "$SYS/" <= topic {
        return;
      }
      if sender.Some? {
        var id := sender.value;
        if id in connectedClients {
          var info := connectedClients[id];
          var updated := info.(messageCount := info.messageCount + 1);
          SumSet(clientOrder, connectedClients, id, updated, MessageCount);
          connectedClients := connectedClients[id := updated];
        }
      }
    }
  }

  /** What an authentication hook hands its callback: an error, and whether the client is admitted. */
  datatype AuthReply = AuthReply(error: Option<string>, success: bool)

  /** `aedes.authenticate`: `callback(null, true)` for every client and credential. */
  function Authenticate(client: Client, username: Option<string>, password: Option<string>): (r: AuthReply)
    ensures r.error.None? && r.success
  {
    AuthReply(None, true)
  }

  /** `aedes.authorizePublish`: `callback(null)`, no error for any packet. */
  function AuthorizePublish(client: Client, topic: string): (error: Option<string>)
    ensures error.None?
  {
    None
  }

  /** A subscription request: a topic filter and its quality of service. */
  datatype Subscription = Subscription(topic: string, qos: nat)

  /** `aedes.authorizeSubscribe`: `callback(null, sub)`, granting the subscription as asked. */
  function AuthorizeSubscribe(client: Client, sub: Subscription): (r: (Option<string>, Subscription))
    ensures r.0.None? && r.1 == sub
  {
    (None, sub)
  }
}
