/**
 * The interface scan shared by the broker's `getServerIPs`
 * (mqtt_services/mqtt-broker.js) and the subscriber's `getLocalIP`
 * (mqtt_services/mqtt_subscriber.js): walk `os.networkInterfaces()` in key
 * order and keep the IPv4 addresses that are not internal.
 *
 * The operating system's table is a parameter: a sequence of
 * (interface name, addresses) pairs in the order `Object.keys` lists them.
 */
module Network {

  /** One address entry of an interface. */
  datatype Iface = Iface(address: string, family: string, internal: bool)

  /** The table `os.networkInterfaces()` returns, in key order. */
  type Interfaces = seq<(string, seq<Iface>)>

  /** One entry of `getServerIPs`' result: `{ interface: name, ip: address }`. */
  datatype ServerIP = ServerIP(name: string, ip: string)

  const Localhost := "localhost"

  /** The address test both functions apply. */
  predicate IsExternal(a: Iface)
  {
    a.family == "IPv4" && !a.internal
  }

  /** The external addresses of one interface, in order. */
  function ExternalOf(name: string, addrs: seq<Iface>): seq<ServerIP>
  {
    if addrs == [] then []
    else
      var last := addrs[|addrs| - 1];
      ExternalOf(name, addrs[..|addrs| - 1]) + (if IsExternal(last) then [ServerIP(name, last.address)] else [])
  }

  /** The external addresses of every interface, interface by interface, in order. */
  function External(ifs: Interfaces): seq<ServerIP>
  {
    if ifs == [] then []
    else
      var last := ifs[|ifs| - 1];
      External(ifs[..|ifs| - 1]) + ExternalOf(last.0, last.1)
  }

  /** An entry is listed for an interface exactly when one of its addresses passes the test. */
  lemma {:induction false} ExternalOfMembers(name: string, addrs: seq<Iface>, e: ServerIP)
    ensures e in ExternalOf(name, addrs)
      <==> e.name == name && exists j :: 0 <= j < |addrs| && IsExternal(addrs[j]) && addrs[j].address == e.ip
  {
    if addrs != [] {
      var init := addrs[..|addrs| - 1];
      ExternalOfMembers(name, init, e);
      if e.name == name && exists j :: 0 <= j < |addrs| && IsExternal(addrs[j]) && addrs[j].address == e.ip {
        var j :| 0 <= j < |addrs| && IsExternal(addrs[j]) && addrs[j].address == e.ip;
        if j < |init| {
          assert init[j] == addrs[j];
        }
      }
      if e in ExternalOf(name, init) {
        var j :| 0 <= j < |init| && IsExternal(init[j]) && init[j].address == e.ip;
        assert addrs[j] == init[j];
      }
    }
  }

  /**
   * `getServerIPs` lists exactly the IPv4, non-internal addresses, each with
   * the name of its interface.
   */
  lemma {:induction false} ExternalMembers(ifs: Interfaces, e: ServerIP)
    ensures e in External(ifs)
      <==> exists i, j :: 0 <= i < |ifs| && 0 <= j < |ifs[i].1| && ifs[i].0 == e.name
             && IsExternal(ifs[i].1[j]) && ifs[i].1[j].address == e.ip
  {
    if ifs != [] {
      var init := ifs[..|ifs| - 1];
      var last := ifs[|ifs| - 1];
      ExternalMembers(init, e);
      ExternalOfMembers(last.0, last.1, e);
      if exists i, j :: 0 <= i < |ifs| && 0 <= j < |ifs[i].1| && ifs[i].0 == e.name
                        && IsExternal(ifs[i].1[j]) && ifs[i].1[j].address == e.ip {
        var i, j :| 0 <= i < |ifs| && 0 <= j < |ifs[i].1| && ifs[i].0 == e.name
                    && IsExternal(ifs[i].1[j]) && ifs[i].1[j].address == e.ip;
        if i < |init| {
          assert init[i] == ifs[i];
        }
      }
      if e in External(init) {
        var i, j :| 0 <= i < |init| && 0 <= j < |init[i].1| && init[i].0 == e.name
                    && IsExternal(init[i].1[j]) && init[i].1[j].address == e.ip;
        assert ifs[i] == init[i];
      }
    }
  }

  /**
   * `getServerIPs`: two nested loops push `{ interface, ip }` for every
   * IPv4, non-internal address, in enumeration order.
   */
  method GetServerIPs(ifs: Interfaces) returns (ips: seq<ServerIP>)
    ensures ips == External(ifs)
  {
    ips := [];
    var i := 0;
    while i < |ifs|
      invariant 0 <= i <= |ifs|
      invariant ips == External(ifs[..i])
    {
      var name := ifs[i].0;
      var addrs := ifs[i].1;
      ghost var before := ips;
      var j := 0;
      while j < |addrs|
        invariant 0 <= j <= |addrs|
        invariant ips == before + ExternalOf(name, addrs[..j])
      {
        var a := addrs[j];
        if a.family == "IPv4" && !a.internal {
          ips := ips + [ServerIP(name, a.address)];
        }
        assert addrs[..j + 1][..j] == addrs[..j];
        j := j + 1;
      }
      assert addrs[..j] == addrs;
      assert ifs[..i + 1][..i] == ifs[..i];
      i := i + 1;
    }
    assert ifs[..i] == ifs;
  }

  /** The first address `getServerIPs` would list, or `"localhost"` when there is none. */
  function FirstExternal(ifs: Interfaces): string
  {
    var all := External(ifs);
    if all == [] then Localhost else all[0].ip
  }

  /**
   * `getLocalIP` answers `"localhost"` when no address passes the test, and
   * otherwise an address that passes it.
   */
  lemma FirstExternalSpec(ifs: Interfaces)
    ensures (forall i, j :: 0 <= i < |ifs| && 0 <= j < |ifs[i].1| ==> !IsExternal(ifs[i].1[j]))
      ==> FirstExternal(ifs) == Localhost
    ensures (exists i, j :: 0 <= i < |ifs| && 0 <= j < |ifs[i].1| && IsExternal(ifs[i].1[j]))
      ==> exists i, j :: 0 <= i < |ifs| && 0 <= j < |ifs[i].1| && IsExternal(ifs[i].1[j])
            && ifs[i].1[j].address == FirstExternal(ifs)
  {
    var all := External(ifs);
    if all != [] {
      ExternalMembers(ifs, all[0]);
    } else if exists i, j :: 0 <= i < |ifs| && 0 <= j < |ifs[i].1| && IsExternal(ifs[i].1[j]) {
      var i, j :| 0 <= i < |ifs| && 0 <= j < |ifs[i].1| && IsExternal(ifs[i].1[j]);
      ExternalMembers(ifs, ServerIP(ifs[i].0, ifs[i].1[j].address));
    }
  }

  /**
   * `getLocalIP`: the same walk, returning the first IPv4, non-internal
   * address it meets, or `"localhost"` after an unsuccessful scan.
   */
  method GetLocalIP(ifs: Interfaces) returns (ip: string)
    ensures ip == FirstExternal(ifs)
  {
    var i := 0;
    while i < |ifs|
      invariant 0 <= i <= |ifs|
      invariant External(ifs[..i]) == []
    {
      var name := ifs[i].0;
      var addrs := ifs[i].1;
      var j := 0;
      while j < |addrs|
        invariant 0 <= j <= |addrs|
        invariant ExternalOf(name, addrs[..j]) == []
      {
        var a := addrs[j];
        if a.family == "IPv4" && !a.internal {
          ip := a.address;
          FirstFound(ifs, i, j);
          return;
        }
        assert addrs[..j + 1][..j] == addrs[..j];
        j := j + 1;
      }
      assert addrs[..j] == addrs;
      assert ifs[..i + 1][..i] == ifs[..i];
      i := i + 1;
    }
    assert ifs[..i] == ifs;
    ip := Localhost;
  }

  /** Once no address before `(i, j)` passed, the one at `(i, j)` heads the list. */
  lemma FirstFound(ifs: Interfaces, i: nat, j: nat)
    requires i < |ifs| && j < |ifs[i].1|
    requires External(ifs[..i]) == []
    requires ExternalOf(ifs[i].0, ifs[i].1[..j]) == []
    requires IsExternal(ifs[i].1[j])
    ensures FirstExternal(ifs) == ifs[i].1[j].address
  {
    var name := ifs[i].0;
    var addrs := ifs[i].1;
    var head := ExternalOf(name, addrs[..j + 1]);
    assert addrs[..j + 1][..j] == addrs[..j];
    assert head == [ServerIP(name, addrs[j].address)];
    PrefixExternalOf(name, addrs, j + 1);
    assert ifs[..i + 1][..i] == ifs[..i];
    assert External(ifs[..i + 1]) == ExternalOf(name, addrs);
    PrefixExternal(ifs, i + 1);
  }

  /** The scan of a prefix of an interface's addresses is a prefix of its full scan. */
  lemma {:induction false} PrefixExternalOf(name: string, addrs: seq<Iface>, k: nat)
    requires k <= |addrs|
    ensures var p := ExternalOf(name, addrs[..k]);
      p <= ExternalOf(name, addrs)
  {
    if k < |addrs| {
      PrefixExternalOf(name, addrs[..|addrs| - 1], k);
      assert addrs[..|addrs| - 1][..k] == addrs[..k];
    } else {
      assert addrs[..k] == addrs;
    }
  }

  /** The scan of a prefix of the table is a prefix of the full scan. */
  lemma {:induction false} PrefixExternal(ifs: Interfaces, k: nat)
    requires k <= |ifs|
    ensures External(ifs[..k]) <= External(ifs)
  {
    if k < |ifs| {
      PrefixExternal(ifs[..|ifs| - 1], k);
      assert ifs[..|ifs| - 1][..k] == ifs[..k];
    } else {
      assert ifs[..k] == ifs;
    }
  }
}
