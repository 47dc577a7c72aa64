/** The Chromecast driver (drivers/chromecast/driver.js): the players installed on
    the home controller, the casts discovered on the network, the session last
    started, and how a player command becomes an action on a cast. */
module Chromecast {
  import opened Wrappers
  import opened Media

  /** An installed player as the controller stores it (`device.data`); `driver` is
      its `type`, the key of the driver that plays on it ("chromecast" here). */
  datatype Player = Player(id: string, ip: string, driver: string, name: string)

  /** A cast discovered on the network: its configured name (the driver tolerates a
      missing `config`) and its host. */
  datatype Cast = Cast(configName: Option<string>, host: string)

  /** What the driver asks of a cast. */
  datatype CastAction = Load(cast: Cast, url: string) | StopPlayback(cast: Cast) | PausePlayback(cast: Cast)

  /** The outcome of `getDevice`: the cast, or the error handed to the caller. */
  datatype DeviceLookup = Found(cast: Cast) | NotFound(message: string)

  /** What the app passes to the driver's `process`: the item and command, the name
      of the first target device, and the selected server and account token. */
  datatype PlayOptions = PlayOptions(
    mediaItem: Option<MediaItem>, command: string, deviceName: string,
    hostname: string, port: string, serverToken: string)

  // ---------------------------------------------------------------------------
  // Installed players

  /** Some installed player has the id. */
  predicate HasId(players: seq<Player>, id: string)
  {
    exists p :: p in players && p.id == id
  }

  /** No two installed players share an id. */
  predicate UniqueIds(players: seq<Player>)
  {
    forall i, j :: 0 <= i < j < |players| ==> players[i].id != players[j].id
  }

  /** The list after adding `device` unless a player with its id is installed. */
  function AddIfAbsent(players: seq<Player>, device: Player): seq<Player>
  {
    if HasId(players, device.id) then players else players + [device]
  }

  /** Adding keeps ids unique, makes the id installed and never drops a player. */
  lemma AddIfAbsentProperties(players: seq<Player>, device: Player)
    ensures UniqueIds(players) ==> UniqueIds(AddIfAbsent(players, device))
    ensures HasId(AddIfAbsent(players, device), device.id)
    ensures forall p :: p in players ==> p in AddIfAbsent(players, device)
    ensures |AddIfAbsent(players, device)| <= |players| + 1
  {
    var r := AddIfAbsent(players, device);
    if !HasId(players, device.id) {
      assert r[|players|] == device;
      assert forall i :: 0 <= i < |players| ==> r[i] == players[i];
    }
  }

  /** Adding the same device twice is adding it once. */
  lemma AddIfAbsentIdempotent(players: seq<Player>, device: Player)
    ensures AddIfAbsent(AddIfAbsent(players, device), device) == AddIfAbsent(players, device)
  {
    AddIfAbsentProperties(players, device);
  }

  /** The players without those with the given id, in order. */
  function RemoveId(players: seq<Player>, id: string): (r: seq<Player>)
    ensures forall p :: p in r <==> p in players && p.id != id
  {
    if |players| == 0 then []
    else (if players[0].id == id then [] else [players[0]]) + RemoveId(players[1..], id)
  }

  /** Removing from a concatenation removes from each part: the others keep their order. */
  lemma {:induction false} RemoveIdAppend(a: seq<Player>, b: seq<Player>, id: string)
    ensures RemoveId(a + b, id) == RemoveId(a, id) + RemoveId(b, id)
    decreases |a|
  {
    if |a| == 0 {
      assert a + b == b;
    } else {
      assert (a + b)[1..] == a[1..] + b;
      RemoveIdAppend(a[1..], b, id);
    }
  }

  /** What `deleted` leaves: it walks the indices of the list while removing from it,
      so the player that moves into a removed player's place is not inspected. */
  function DeleteSkipping(players: seq<Player>, id: string): seq<Player>
  {
    if |players| == 0 then []
    else if players[0].id == id then
      if |players| == 1 then [] else [players[1]] + DeleteSkipping(players[2..], id)
    else [players[0]] + DeleteSkipping(players[1..], id)
  }

  /** One step of that walk, taken at position `k`. */
  lemma DeleteSkippingAt(s: seq<Player>, k: nat, id: string)
    requires k < |s|
    ensures s[k].id == id && k + 1 < |s| ==> DeleteSkipping(s[k..], id) == [s[k + 1]] + DeleteSkipping(s[k + 2..], id)
    ensures s[k].id == id && k + 1 == |s| ==> DeleteSkipping(s[k..], id) == []
    ensures s[k].id != id ==> DeleteSkipping(s[k..], id) == [s[k]] + DeleteSkipping(s[k + 1..], id)
  {
    assert s[k..][1..] == s[k + 1..];
    if k + 1 < |s| {
      assert s[k..][2..] == s[k + 2..];
    }
  }

  /** With unique ids, `deleted` removes exactly the player with the id and keeps the
      order of the others. */
  lemma {:induction false} DeleteSkippingUnique(players: seq<Player>, id: string)
    requires UniqueIds(players)
    ensures DeleteSkipping(players, id) == RemoveId(players, id)
    decreases |players|
  {
    if |players| > 0 {
      if players[0].id == id {
        if |players| > 1 {
          assert players[1].id != id;
          NoIdRemoveNothing(players[2..], id);
          NoIdDeleteNothing(players[2..], id);
          assert players[1..][1..] == players[2..];
        }
      } else {
        DeleteSkippingUnique(players[1..], id);
      }
    }
  }

  lemma {:induction false} NoIdRemoveNothing(players: seq<Player>, id: string)
    requires forall p :: p in players ==> p.id != id
    ensures RemoveId(players, id) == players
    decreases |players|
  {
    if |players| > 0 {
      NoIdRemoveNothing(players[1..], id);
      assert players == [players[0]] + players[1..];
    }
  }

  lemma {:induction false} NoIdDeleteNothing(players: seq<Player>, id: string)
    requires forall p :: p in players ==> p.id != id
    ensures DeleteSkipping(players, id) == players
    decreases |players|
  {
    if |players| > 0 {
      NoIdDeleteNothing(players[1..], id);
      assert players == [players[0]] + players[1..];
    }
  }

  /** Without unique ids, two adjacent players with the id are not both removed. */
  lemma DeleteSkipsNeighbour(a: Player, b: Player)
    requires a.id == b.id
    ensures DeleteSkipping([a, b], a.id) == [b]
  {
  }

  // ---------------------------------------------------------------------------
  // Discovered casts

  /** The casts configured under `name`, in order (the filter inside `getDevice`). */
  function Named(casts: seq<Cast>, name: string): (r: seq<Cast>)
    ensures forall c :: c in r <==> c in casts && c.configName == Some(name)
  {
    if |casts| == 0 then []
    else (if casts[0].configName == Some(name) then [casts[0]] else []) + Named(casts[1..], name)
  }

  /** `getDevice(name, …)`: the first cast with that name, or the error message. */
  function FindDevice(casts: seq<Cast>, name: string): (r: DeviceLookup)
    ensures r.NotFound? <==> forall c :: c in casts ==> c.configName != Some(name)
    ensures r.NotFound? ==> r.message == "Sorry, I couldn't find Chromecast device " + name
    ensures r.Found? ==> r.cast in casts && r.cast.configName == Some(name)
  {
    var named := Named(casts, name);
    if |named| > 0 then
      assert named[0] in named;
      Found(named[0])
    else NotFound("Sorry, I couldn't find Chromecast device " + name)
  }

  /** The cast found is the FIRST one with that name. */
  lemma {:induction false} FindDeviceFirst(casts: seq<Cast>, name: string, i: nat)
    requires i < |casts| && casts[i].configName == Some(name)
    requires forall j :: 0 <= j < i ==> casts[j].configName != Some(name)
    ensures FindDevice(casts, name) == Found(casts[i])
    decreases i
  {
    if i > 0 {
      FindDeviceFirst(casts[1..], name, i - 1);
    }
  }

  // ---------------------------------------------------------------------------
  // The stream address

  const TranscodeParameters: string :=
    "&mediaIndex=0&partIndex=0&protocol=http&offset=0&fastSeek=1&directPlay=0&directStream=1"
    + "&subtitleSize=100&audioBoost=100&subtitles=burn&copyts=1&Accept-Language=en&X-Plex-Chunked=1"
    + "&X-Plex-Product=Plex%20Web&X-Plex-Version=2.6.1&X-Plex-Client-Identifier=ChromeCastMike"
    + "&X-Plex-Platform=Chrome&X-Plex-Platform-Version=50.0&X-Plex-Device=OSX"
    + "&X-Plex-Device-Name=Plex%20Web%20%28Chrome%29"

  /** `buildPlexUrl(options)`: the server's universal transcoder, given the item's
      direct address (escaped by `encode`, the app's `encodeURIComponent`) as its
      path, the fixed transcoding parameters and the account token last. */
  function BuildPlexUrl(hostname: string, port: string, key: string, serverToken: string,
                        encode: string -> string): (url: string)
    ensures var start := "http://" + hostname + ":" + port + "/video/:/transcode/universal/start?path=";
            var path := encode("http://" + hostname + ":" + port + key);
            && |start| + |path| + 14 + |serverToken| <= |url|
            && url[..|start|] == start
            && url[|start|..|start| + |path|] == path
            && url[|url| - |serverToken|..] == serverToken
            && url[|url| - |serverToken| - 14..|url| - |serverToken|] == "&X-Plex-Token="
  {
    var start := "http://" + hostname + ":" + port + "/video/:/transcode/universal/start?path=";
    var path := encode("http://" + hostname + ":" + port + key);
    var url := start + path + TranscodeParameters + "&X-Plex-Token=" + serverToken;
    assert url[..|start|] == start;
    assert url[|start|..|start| + |path|] == path;
    assert url[|url| - |serverToken|..] == serverToken;
    assert url[|url| - |serverToken| - 14..|url| - |serverToken|] == "&X-Plex-Token=";
    url
  }

  // ---------------------------------------------------------------------------
  // The driver

  /** Where the walk of `deleted` stands before visiting index `x`: `done` is the
      part of the list already final, followed by the untouched rest of the
      original from `k`. */
  ghost predicate WalkState(original: seq<Player>, id: string, players: seq<Player>,
                            done: seq<Player>, k: nat, x: nat)
  {
    && k <= |original|
    && players == done + original[k..]
    && (x == |done| || (x == |done| + 1 && k == |original|))
    && DeleteSkipping(original, id) == done + DeleteSkipping(original[k..], id)
  }

  /** One visit of the walk: splices out the player at `x` when it has the id. */
  method VisitIndex(ghost original: seq<Player>, id: string, players: seq<Player>,
                    ghost done: seq<Player>, ghost k: nat, x: nat)
    returns (players': seq<Player>, ghost done': seq<Player>, ghost k': nat)
    requires WalkState(original, id, players, done, k, x) && x < |players|
    ensures WalkState(original, id, players', done', k', x + 1)
    ensures players' == if players[x].id == id then players[..x] + players[x + 1..] else players
    ensures |players'| - (x + 1) < |players| - x
  {
    assert players[x] == original[k];
    DeleteSkippingAt(original, k, id);
    players' := players;
    if players[x].id == id {
      players' := players[..x] + players[x + 1..];
      if k + 1 < |original| {
        assert players' == done + [original[k + 1]] + original[k + 2..];
        done' := done + [original[k + 1]];
        k' := k + 2;
      } else {
        assert players' == done;
        done' := done;
        k' := |original|;
      }
    } else {
      done' := done + [original[k]];
      k' := k + 1;
    }
  }

  class Driver {
    var installedPlayers: seq<Player>
    var devices: seq<Cast>
    var lastSession: Option<MediaItem>

    /** `init(devices_data, …)`: the controller hands over the installed players;
        discovery starts with no cast known and no session. */
    constructor Init(devicesData: seq<Player>)
      ensures installedPlayers == devicesData && devices == [] && lastSession == None
    {
      installedPlayers := devicesData;
      devices := [];
      lastSession := None;
    }

    /** `addInstalledDevice(device)`. */
    method AddInstalledDevice(device: Player)
      modifies this
      ensures installedPlayers == AddIfAbsent(old(installedPlayers), device)
      ensures devices == old(devices) && lastSession == old(lastSession)
    {
      var currentDeviceId := device.id;
      var alreadyInstalled := false;
      for i := 0 to |installedPlayers|
        invariant alreadyInstalled <==> exists j :: 0 <= j < i && installedPlayers[j].id == currentDeviceId
      {
        if installedPlayers[i].id == currentDeviceId {
          alreadyInstalled := true;
        }
      }
      if !alreadyInstalled {
        installedPlayers := installedPlayers + [device];
      } else {
        var j :| 0 <= j < |installedPlayers| && installedPlayers[j].id == currentDeviceId;
        assert installedPlayers[j] in installedPlayers;
      }
    }

    method GetInstalledPlayers() returns (players: seq<Player>)
      ensures players == installedPlayers
    {
      return installedPlayers;
    }

    method GetLastSession() returns (session: Option<MediaItem>)
      ensures session == lastSession
    {
      return lastSession;
    }

    /** `deleted(device_data, …)`: a `for…in` over the list's indices that splices
        out each player with the id; an index past the shortened end is no longer
        visited. */
    method Deleted(deviceData: Player)
      modifies this
      ensures installedPlayers == DeleteSkipping(old(installedPlayers), deviceData.id)
      ensures devices == old(devices) && lastSession == old(lastSession)
    {
      var players := installedPlayers;
      ghost var original := players;
      ghost var done: seq<Player> := [];
      ghost var k: nat := 0;
      var x: nat := 0;
      while x < |players|
        invariant WalkState(original, deviceData.id, players, done, k, x)
        invariant devices == old(devices) && lastSession == old(lastSession)
        decreases |players| - x
      {
        players, done, k := VisitIndex(original, deviceData.id, players, done, k, x);
        x := x + 1;
      }
      assert k == |original| && original[k..] == [];
      installedPlayers := players;
    }

    /** The `deviceOn` handler of discovery: the first cast a rediscovery reports
        replaces the list; every cast is appended. Returns the handler's new
        `resetList` flag. */
    method DeviceOn(device: Cast, resetList: bool) returns (stillResetting: bool)
      modifies this
      ensures devices == (if resetList then [] else old(devices)) + [device]
      ensures !stillResetting
      ensures installedPlayers == old(installedPlayers) && lastSession == old(lastSession)
    {
      if resetList {
        devices := [];
      }
      devices := devices + [device];
      return false;
    }

    /** `process(options, callback)`: find the cast named like the first target
        device; load the stream of an item to play, or stop or pause it. A cast not
        found reports its error message, which the app says. `playStarted` tells
        whether the cast confirms the load, on which the driver records the session
        and says "Enjoy watching" with the item's title. */
    method Process(options: PlayOptions, encode: string -> string, playStarted: bool)
      returns (actions: seq<CastAction>, said: seq<string>)
      modifies this
      ensures installedPlayers == old(installedPlayers) && devices == old(devices)
      ensures FindDevice(devices, options.deviceName).NotFound? ==>
                && actions == [] && said == [FindDevice(devices, options.deviceName).message]
                && lastSession == old(lastSession)
      ensures FindDevice(devices, options.deviceName).Found? ==>
                var cast := FindDevice(devices, options.deviceName).cast;
                var playing := options.mediaItem.Some? && options.command == "playItem";
                && actions == (if playing then [Load(cast, BuildPlexUrl(options.hostname, options.port,
                                                       options.mediaItem.value.key, options.serverToken, encode))]
                               else if options.command == "stop" then [StopPlayback(cast)]
                               else if options.command == "pause" then [PausePlayback(cast)]
                               else [])
                && (playing && playStarted ==>
                      lastSession == options.mediaItem && said == ["Enjoy watching " + options.mediaItem.value.title])
                && (!(playing && playStarted) ==> lastSession == old(lastSession) && said == [])
    {
      actions := [];
      said := [];
      var lookup := FindDevice(devices, options.deviceName);
      if lookup.NotFound? {
        said := [lookup.message];
        return;
      }
      var device := lookup.cast;
      if options.mediaItem.Some? && options.command == "playItem" {
        var url := BuildPlexUrl(options.hostname, options.port, options.mediaItem.value.key, options.serverToken, encode);
        actions := actions + [Load(device, url)];
        if playStarted {
          lastSession := options.mediaItem;
          said := said + ["Enjoy watching " + options.mediaItem.value.title];
        }
      }
      if options.command == "stop" {
        actions := actions + [StopPlayback(device)];
      }
      if options.command == "pause" {
        actions := actions + [PausePlayback(device)];
      }
    }
  }
}
