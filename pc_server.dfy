/** Connection management of the `pc` push server (`pc.Server`): admission under the
    connection limit, trusting, removal, the device key used to keep one connection per
    device, filter composition and targeted sends. A connection is a value carrying what the
    server reads of it (id, client info, connect time, whether it is active); the socket,
    the read/write loops, the `run` goroutine and the HTTP endpoints are not modelled. */
module PcServer {
  import opened Wrappers
  import MapUtil
  import opened PcDefine

  /** The part of `ClientProxyInfo` the device key is built from. */
  datatype ClientInfo = ClientInfo(
    remoteAddr: string, publicIP: seq<string>, internalIP: seq<string>,
    serviceName: string, namespaceTag: string, envTag: string)

  /** What the server reads of a `Connection`. */
  datatype Conn = Conn(id: string, info: Option<ClientInfo>, connectTime: int, active: bool)

  const ErrServerNotRunning: string := "server is not running"
  const ErrClientNotActive: string := "client is not active"

  /** The address part of the device key: the first internal IP when it is set, else the
      first public IP when it is set, else the remote address. */
  function DeviceAddress(info: ClientInfo): (a: string)
    ensures |info.internalIP| > 0 && info.internalIP[0] != "" ==> a == info.internalIP[0]
    ensures !(|info.internalIP| > 0 && info.internalIP[0] != "") && |info.publicIP| > 0 && info.publicIP[0] != "" ==>
      a == info.publicIP[0]
    ensures !(|info.internalIP| > 0 && info.internalIP[0] != "") && !(|info.publicIP| > 0 && info.publicIP[0] != "") ==>
      a == info.remoteAddr
  {
    if |info.internalIP| > 0 && info.internalIP[0] != "" then info.internalIP[0]
    else if |info.publicIP| > 0 && info.publicIP[0] != "" then info.publicIP[0]
    else info.remoteAddr
  }

  /** `generateDeviceKey`: address, service, namespace and environment joined by ':'. */
  function GenerateDeviceKey(info: ClientInfo): (k: string)
    ensures k == DeviceAddress(info) + ":" + info.serviceName + ":" + info.namespaceTag + ":" + info.envTag
  {
    DeviceAddress(info) + ":" + info.serviceName + ":" + info.namespaceTag + ":" + info.envTag
  }

  /** Two connections of one service from the same machine share a key, whatever their
      remote addresses, as long as the first internal IP is reported. */
  lemma SameMachineSameKey(a: ClientInfo, b: ClientInfo)
    requires |a.internalIP| > 0 && a.internalIP[0] != ""
    requires |b.internalIP| > 0 && b.internalIP == a.internalIP
    requires a.serviceName == b.serviceName && a.namespaceTag == b.namespaceTag && a.envTag == b.envTag
    ensures GenerateDeviceKey(a) == GenerateDeviceKey(b)
  {
  }

  /** `AndFilter`: every filter accepts; no filters accept everything. */
  function AndFilter(filters: seq<Conn -> bool>, c: Conn): (r: bool)
    decreases |filters|
  {
    if filters == [] then true
    else if !filters[0](c) then false
    else AndFilter(filters[1..], c)
  }

  /** The combined filter accepts exactly when each filter does. */
  lemma {:induction false} AndFilterMeaning(filters: seq<Conn -> bool>, c: Conn)
    ensures AndFilter(filters, c) <==> forall i :: 0 <= i < |filters| ==> filters[i](c)
    decreases |filters|
  {
    if filters != [] {
      AndFilterMeaning(filters[1..], c);
      assert forall i :: 1 <= i < |filters| ==> filters[i] == filters[1..][i - 1];
    }
  }

  /** A connection a filter lets through (no filter lets everything through). */
  predicate Passes(filter: Option<Conn -> bool>, c: Conn) {
    filter.None? || filter.value(c)
  }

  /** A trusted connection `getUniqueDeviceConnections` considers. */
  predicate Eligible(filter: Option<Conn -> bool>, c: Conn) {
    c.active && Passes(filter, c) && c.info.Some?
  }

  /** The device key of a connection with client info (connections without one are never
      eligible). */
  function KeyOf(c: Conn): string {
    if c.info.Some? then GenerateDeviceKey(c.info.value) else ""
  }

  /** The device map the first loop of `getUniqueDeviceConnections` builds after visiting
      `ids`: per device key the eligible connection with the latest connect time, the first
      one seen on a tie. */
  function Latest(trusted: map<string, Conn>, ids: seq<string>, filter: Option<Conn -> bool>): map<string, Conn>
    requires forall id :: id in ids ==> id in trusted
    decreases |ids|
  {
    if ids == [] then map[]
    else
      var d := Latest(trusted, ids[..|ids| - 1], filter);
      var c := trusted[ids[|ids| - 1]];
      if !Eligible(filter, c) then d
      else if KeyOf(c) !in d || c.connectTime > d[KeyOf(c)].connectTime then d[KeyOf(c) := c]
      else d
  }

  /** Every entry of the device map is an eligible trusted connection filed under its own
      key. */
  lemma {:induction false} LatestSound(trusted: map<string, Conn>, ids: seq<string>, filter: Option<Conn -> bool>)
    requires forall id :: id in ids ==> id in trusted
    ensures forall k :: k in Latest(trusted, ids, filter) ==>
      var c := Latest(trusted, ids, filter)[k];
      c in trusted.Values && Eligible(filter, c) && KeyOf(c) == k
    decreases |ids|
  {
    if ids != [] {
      LatestSound(trusted, ids[..|ids| - 1], filter);
    }
  }

  /** Every eligible connection visited is matched by an entry of its device that is at
      least as recent. */
  lemma {:induction false} LatestNewest(trusted: map<string, Conn>, ids: seq<string>, filter: Option<Conn -> bool>)
    requires forall id :: id in ids ==> id in trusted
    ensures forall id :: id in ids && Eligible(filter, trusted[id]) ==>
      KeyOf(trusted[id]) in Latest(trusted, ids, filter)
      && Latest(trusted, ids, filter)[KeyOf(trusted[id])].connectTime >= trusted[id].connectTime
    decreases |ids|
  {
    if ids != [] {
      var prefix := ids[..|ids| - 1];
      LatestNewest(trusted, prefix, filter);
      assert forall id :: id in ids ==> id in prefix || id == ids[|ids| - 1];
    }
  }

  /** The first loop of `getUniqueDeviceConnections`. */
  method DeviceMap(trusted: map<string, Conn>, ids: seq<string>, filter: Option<Conn -> bool>)
    returns (devices: map<string, Conn>)
    requires forall id :: id in ids ==> id in trusted
    ensures devices == Latest(trusted, ids, filter)
  {
    devices := map[];
    for i := 0 to |ids|
      invariant devices == Latest(trusted, ids[..i], filter)
    {
      assert ids[..i + 1][..i] == ids[..i];
      var c := trusted[ids[i]];
      if !c.active || !Passes(filter, c) || c.info.None? {
        continue;
      }
      var key := GenerateDeviceKey(c.info.value);
      if key !in devices || c.connectTime > devices[key].connectTime {
        devices := devices[key := c];
      }
    }
    assert ids[..|ids|] == ids;
  }

  /** The second loop of `getUniqueDeviceConnections`: the map's connections in the order of
      a listing of its keys. */
  method DeviceList(devices: map<string, Conn>) returns (keys: seq<string>, result: seq<Conn>)
    ensures forall k :: k in keys <==> k in devices
    ensures MapUtil.Distinct(keys)
    ensures |result| == |keys| && forall j :: 0 <= j < |keys| ==> result[j] == devices[keys[j]]
  {
    keys := MapUtil.Keys(devices);
    result := [];
    for i := 0 to |keys|
      invariant |result| == i
      invariant forall j :: 0 <= j < i ==> result[j] == devices[keys[j]]
    {
      result := result + [devices[keys[i]]];
    }
  }

  /** Listing a device map's entries gives one connection per key, and all of them. */
  lemma ListedDevices(devices: map<string, Conn>, keys: seq<string>, result: seq<Conn>)
    requires forall k :: k in devices ==> KeyOf(devices[k]) == k
    requires forall k :: k in keys <==> k in devices
    requires MapUtil.Distinct(keys)
    requires |result| == |keys| && forall j :: 0 <= j < |keys| ==> result[j] == devices[keys[j]]
    ensures forall c :: c in result <==> c in devices.Values
    ensures forall i, j :: 0 <= i < j < |result| ==> KeyOf(result[i]) != KeyOf(result[j])
  {
    forall c | c in devices.Values ensures c in result {
      var k :| k in devices && devices[k] == c;
      var j :| 0 <= j < |keys| && keys[j] == k;
      assert result[j] == c;
    }
  }

  class Server {
    var clients: map<string, Conn>
    var trusted: map<string, Conn>
    var isRunning: bool
    const maxConnections: int

    /** Only admitted connections are trusted, and the limit is kept. */
    ghost predicate Valid()
      reads this
    {
      trusted.Keys <= clients.Keys && |clients| <= if maxConnections < 0 then 0 else maxConnections
    }

    /** `NewServer`: no connections, not running. */
    constructor (maxConnections: int)
      ensures Valid() && clients == map[] && trusted == map[] && !isRunning
      ensures this.maxConnections == maxConnections
    {
      clients := map[];
      trusted := map[];
      isRunning := false;
      this.maxConnections := maxConnections;
    }

    /** `Start`: starting a running server is an error. */
    method Start() returns (r: Outcome)
      modifies this
      ensures old(isRunning) ==> r == Fail("server is already running") && isRunning
      ensures !old(isRunning) ==> r == Pass && isRunning
      ensures clients == old(clients) && trusted == old(trusted)
    {
      if isRunning {
        return Fail("server is already running");
      }
      isRunning := true;
      return Pass;
    }

    /** `Stop`: stopping a server that is not running is an error; otherwise every client is
        closed as an external close (their removal follows through the unregister channel)
        and a failed HTTP shutdown leaves the server marked running. */
    method Stop(shutdown: Outcome) returns (r: Outcome, closing: set<string>, reason: DisconnectReason)
      modifies this
      ensures !old(isRunning) ==> r == Fail(ErrServerNotRunning) && closing == {} && isRunning == old(isRunning)
      ensures old(isRunning) ==> closing == old(clients).Keys && reason == ReasonExternalClose
      ensures old(isRunning) ==> r == shutdown && isRunning == shutdown.Fail?
      ensures clients == old(clients) && trusted == old(trusted)
    {
      reason := ReasonExternalClose;
      if !isRunning {
        return Fail(ErrServerNotRunning), {}, reason;
      }
      closing := clients.Keys;
      if shutdown.Fail? {
        return shutdown, closing, reason;
      }
      isRunning := false;
      return Pass, closing, reason;
    }

    /** The register branch of `run`: at the limit the connection is kicked and not
        managed; otherwise it is managed (not yet trusted). */
    method Admit(conn: Conn) returns (admitted: bool)
      requires Valid()
      modifies this
      ensures Valid()
      ensures admitted <==> |old(clients)| < maxConnections
      ensures admitted ==> clients == old(clients)[conn.id := conn]
      ensures !admitted ==> clients == old(clients)
      ensures trusted == old(trusted) && isRunning == old(isRunning)
    {
      if |clients| >= maxConnections {
        return false;
      }
      assert |clients.Keys + {conn.id}| <= |clients.Keys| + 1;
      assert clients[conn.id := conn].Keys == clients.Keys + {conn.id};
      clients := clients[conn.id := conn];
      return true;
    }

    /** `removeConnection`: a managed id leaves both maps; an unknown id changes nothing. */
    method RemoveConnection(id: string)
      requires Valid()
      modifies this
      ensures Valid()
      ensures id in old(clients) ==> clients == old(clients) - {id} && trusted == old(trusted) - {id}
      ensures id !in old(clients) ==> clients == old(clients) && trusted == old(trusted)
      ensures isRunning == old(isRunning)
    {
      if id in clients {
        assert |clients - {id}| <= |clients|;
        clients := clients - {id};
        trusted := trusted - {id};
      }
    }

    /** `TrustedClient`: only a managed connection can be trusted. */
    method TrustedClient(id: string) returns (r: Outcome)
      requires Valid()
      modifies this
      ensures Valid()
      ensures id !in old(clients) ==>
        r == Fail("connection " + id + " is not found from server.clients") && trusted == old(trusted)
      ensures id in old(clients) ==> r == Pass && trusted == old(trusted)[id := old(clients)[id]]
      ensures clients == old(clients) && isRunning == old(isRunning)
    {
      if id !in clients {
        return Fail("connection " + id + " is not found from server.clients");
      }
      trusted := trusted[id := clients[id]];
      return Pass;
    }

    /** `IsTrustedClient`. */
    predicate IsTrustedClient(id: string)
      reads this
    {
      id in trusted
    }

    /** `getTrustedActiveConnections`: the active trusted connections the filter accepts. */
    method TrustedActiveConnections(filter: Option<Conn -> bool>) returns (conns: seq<Conn>)
      ensures forall c :: c in conns <==> c in trusted.Values && c.active && Passes(filter, c)
    {
      var ids := MapUtil.Keys(trusted);
      conns := [];
      for i := 0 to |ids|
        invariant forall c :: c in conns <==>
          exists j :: 0 <= j < i && c == trusted[ids[j]] && c.active && Passes(filter, c)
      {
        var c := trusted[ids[i]];
        if c.active && Passes(filter, c) {
          conns := conns + [c];
        }
      }
      forall c | c in trusted.Values && c.active && Passes(filter, c) ensures c in conns {
        var k :| k in trusted && trusted[k] == c;
        var j :| 0 <= j < |ids| && ids[j] == k;
      }
    }

    /** `getUniqueDeviceConnections`: one eligible trusted connection per device key, the
        latest of that device. */
    method UniqueDeviceConnections(filter: Option<Conn -> bool>) returns (result: seq<Conn>)
      ensures forall c :: c in result ==> c in trusted.Values && Eligible(filter, c)
      ensures forall i, j :: 0 <= i < j < |result| ==> KeyOf(result[i]) != KeyOf(result[j])
      ensures forall id :: id in trusted && Eligible(filter, trusted[id]) ==>
        exists c :: c in result && KeyOf(c) == KeyOf(trusted[id]) && c.connectTime >= trusted[id].connectTime
    {
      var ids := MapUtil.Keys(trusted);
      var devices := DeviceMap(trusted, ids, filter);
      var keys;
      keys, result := DeviceList(devices);
      LatestSound(trusted, ids, filter);
      LatestNewest(trusted, ids, filter);
      ListedDevices(devices, keys, result);
      forall id | id in trusted && Eligible(filter, trusted[id])
        ensures exists c :: c in result && KeyOf(c) == KeyOf(trusted[id]) && c.connectTime >= trusted[id].connectTime
      {
        var k := KeyOf(trusted[id]);
        assert devices[k] in devices.Values;
      }
    }

    /** `SendToClient`: the client must be trusted and active; then the send's outcome. */
    function SendToClient(clientID: string, send: Conn -> Outcome): (r: Outcome)
      reads this
      ensures clientID !in trusted ==> r == Fail("client " + clientID + " is not trusted or not found")
      ensures clientID in trusted && !trusted[clientID].active ==> r == Fail(ErrClientNotActive)
      ensures clientID in trusted && trusted[clientID].active ==> r == send(trusted[clientID])
    {
      if clientID !in trusted then Fail("client " + clientID + " is not trusted or not found")
      else if !trusted[clientID].active then Fail(ErrClientNotActive)
      else send(trusted[clientID])
    }

    /** `GetClientCount`. */
    function GetClientCount(): nat
      reads this
    {
      |clients|
    }

    /** `GetClient`. */
    function GetClient(clientID: string): (r: Option<Conn>)
      reads this
      ensures r.Some? <==> clientID in clients
      ensures r.Some? ==> r.value == clients[clientID]
    {
      if clientID in clients then Some(clients[clientID]) else None
    }
  }
}
