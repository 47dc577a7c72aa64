/** The media servers of app.js: which servers of the account are kept
    (`storeServers`) and the connection record made from a server
    (`getServerTemplate`). */
module Servers {
  import opened Builtins

  /** A server as the account lists it (the `attributes` of the app's server object). */
  datatype ServerDevice = ServerDevice(
    name: string, machineIdentifier: string, accessToken: string, host: string,
    port: string, owned: string, localAddresses: string)

  /** The servers of `s` the account owns, in order. */
  function OwnedServers(s: seq<ServerDevice>): (r: seq<ServerDevice>)
    ensures |r| <= |s|
    ensures forall x :: x in r <==> x in s && x.owned == "1"
  {
    if |s| == 0 then []
    else
      var last := s[|s| - 1];
      assert s == s[..|s| - 1] + [last];
      OwnedServers(s[..|s| - 1]) + (if last.owned == "1" then [last] else [])
  }

  /** Keeping the owned servers of a list of owned servers keeps them all. */
  lemma {:induction false} OwnedServersIdempotent(s: seq<ServerDevice>)
    ensures OwnedServers(OwnedServers(s)) == OwnedServers(s)
  {
    if |s| > 0 {
      var r := OwnedServers(s[..|s| - 1]);
      OwnedServersIdempotent(s[..|s| - 1]);
      OwnedServersAppend(r, if s[|s| - 1].owned == "1" then [s[|s| - 1]] else []);
    }
  }

  /** Keeping the owned servers of a concatenation keeps those of each part. */
  lemma {:induction false} OwnedServersAppend(a: seq<ServerDevice>, b: seq<ServerDevice>)
    ensures OwnedServers(a + b) == OwnedServers(a) + OwnedServers(b)
    decreases |b|
  {
    if |b| == 0 {
      assert a + b == a;
    } else {
      assert (a + b)[..|a + b| - 1] == a + b[..|b| - 1];
      OwnedServersAppend(a, b[..|b| - 1]);
    }
  }

  /** The app settings that hold the chosen servers. */
  class Settings {
    var servers: seq<ServerDevice>

    constructor()
      ensures servers == []
    {
      servers := [];
    }

    /** `storeServers(serverObject)`: keeps the owned servers. */
    method StoreServers(serverObject: seq<ServerDevice>)
      modifies this
      ensures servers == OwnedServers(serverObject)
    {
      var ownedServers := [];
      for a := 0 to |serverObject|
        invariant ownedServers == OwnedServers(serverObject[..a])
      {
        var currentServer := serverObject[a];
        assert serverObject[..a + 1][..a] == serverObject[..a];
        if currentServer.owned == "1" {
          ownedServers := ownedServers + [currentServer];
        }
      }
      assert serverObject[..|serverObject|] == serverObject;
      servers := ownedServers;
    }
  }

  /** The record the app connects to a server with. */
  datatype ServerTemplate = ServerTemplate(
    name: string, machineIdentifier: string, token: string, hostname: string,
    port: string, owned: string, local: string)

  /** `getServerTemplate(device)`: the account's fields under the app's names, and as
      local address the first of the comma-separated local addresses: a prefix of
      them holding no comma, followed by a comma unless it is all of them. */
  function GetServerTemplate(device: ServerDevice): (t: ServerTemplate)
    ensures t.name == device.name && t.machineIdentifier == device.machineIdentifier
    ensures t.token == device.accessToken && t.hostname == device.host
    ensures t.port == device.port && t.owned == device.owned
    ensures ',' !in t.local
    ensures |t.local| <= |device.localAddresses| && t.local == device.localAddresses[..|t.local|]
    ensures t.local == device.localAddresses || device.localAddresses[|t.local|] == ','
  {
    SplitParts(device.localAddresses, ',');
    var local := Split(device.localAddresses, ',')[0];
    ServerTemplate(device.name, device.machineIdentifier, device.accessToken, device.host,
                   device.port, device.owned, local)
  }
}
