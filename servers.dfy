/** `insertServersToPostgres` without the database: the loop that maps every
    server entry of the lobby's list to one flat record, in order, before the
    batch goes to the upsert. */
module Servers {
  import opened Json

  /** One row of the `servers` table, as the loop builds it. A field the entry
      lacks is undefined (None). */
  datatype ServerRecord = ServerRecord(
    guid: Option<Json>,
    port: Option<Json>,
    address: Option<Json>,
    playerCount: Option<Json>,
    maxPlayerCount: Option<Json>,
    serverName: Option<Json>,
    gameModule: Option<Json>,
    gameType: Option<Json>,
    mapName: Option<Json>,
    isOfficial: Option<Json>,
    passwordProtected: Option<Json>,
    crossplayEnabled: Option<Json>,
    hostId: Option<Json>,
    hostName: Option<Json>,
    loadedModules: Option<Json>,
    allowsOptionalModules: Option<Json>,
    updatedAt: string)

  /** The natural key of the upsert, `(address, port)`. */
  function Key(r: ServerRecord): (Option<Json>, Option<Json>)
  {
    (r.address, r.port)
  }

  /** One iteration of the loop body: the record for `server`, stamped with
      the clock reading `now`. `server.id.guid` and `server.hostId._playerId`
      throw when `id` or `hostId` is null or undefined (also when the entry
      itself is not an object); then there is no record (None). */
  function MapServer(server: Json, now: string): (r: Option<ServerRecord>)
    ensures r.None? <==> Nullish(Get(server, "id")) || Nullish(Get(server, "hostId"))
    ensures r.Some? ==> Key(r.value) == (Get(server, "address"), Get(server, "port"))
    ensures r.Some? ==> r.value.guid == Path(server, ["id", "guid"])
    ensures r.Some? ==> r.value.hostId == Path(server, ["hostId", "_playerId"])
    ensures r.Some? ==> r.value.playerCount == Get(server, "playerCount") && r.value.updatedAt == now
    ensures r.Some? ==>
              r.value.maxPlayerCount == Get(server, "maxPlayerCount") &&
              r.value.serverName == Get(server, "serverName") &&
              r.value.gameModule == Get(server, "gameModule") &&
              r.value.gameType == Get(server, "gameType") &&
              r.value.mapName == Get(server, "map") &&
              r.value.isOfficial == Get(server, "isOfficial") &&
              r.value.passwordProtected == Get(server, "passwordProtected") &&
              r.value.crossplayEnabled == Get(server, "crossplayEnabled") &&
              r.value.hostName == Get(server, "hostName") &&
              r.value.loadedModules == Get(server, "loadedModules") &&
              r.value.allowsOptionalModules == Get(server, "allowsOptionalModules")
  {
    var id, hostId := Get(server, "id"), Get(server, "hostId");
    if Nullish(id) || Nullish(hostId) then None
    else Some(ServerRecord(
      guid := Get(id.value, "guid"),
      port := Get(server, "port"),
      address := Get(server, "address"),
      playerCount := Get(server, "playerCount"),
      maxPlayerCount := Get(server, "maxPlayerCount"),
      serverName := Get(server, "serverName"),
      gameModule := Get(server, "gameModule"),
      gameType := Get(server, "gameType"),
      mapName := Get(server, "map"),
      isOfficial := Get(server, "isOfficial"),
      passwordProtected := Get(server, "passwordProtected"),
      crossplayEnabled := Get(server, "crossplayEnabled"),
      hostId := Get(hostId.value, "_playerId"),
      hostName := Get(server, "hostName"),
      loadedModules := Get(server, "loadedModules"),
      allowsOptionalModules := Get(server, "allowsOptionalModules"),
      updatedAt := now))
  }

  /** The whole batch: one record per entry, or None as soon as one entry
      throws (the call then rejects and nothing is upserted). `clock[i]` is the
      `new Date().toISOString()` read while mapping entry `i`. */
  function MapServers(servers: seq<Json>, clock: seq<string>): (r: Option<seq<ServerRecord>>)
    requires |servers| <= |clock|
    ensures r.Some? ==> |r.value| == |servers|
    ensures r.None? ==> exists i :: 0 <= i < |servers| && MapServer(servers[i], clock[i]).None?
  {
    if servers == [] then Some([])
    else
      var head, tail := MapServer(servers[0], clock[0]), MapServers(servers[1..], clock[1..]);
      if head.None? || tail.None? then None else Some([head.value] + tail.value)
  }

  /** The batch exists exactly when every entry maps. */
  lemma {:induction false} MapServersTotal(servers: seq<Json>, clock: seq<string>)
    requires |servers| <= |clock|
    ensures MapServers(servers, clock).Some? <==>
              forall i :: 0 <= i < |servers| ==> MapServer(servers[i], clock[i]).Some?
    decreases |servers|
  {
    if servers != [] {
      var tail, rest := servers[1..], clock[1..];
      MapServersTotal(tail, rest);
      if forall i :: 0 <= i < |servers| ==> MapServer(servers[i], clock[i]).Some? {
        forall i | 0 <= i < |tail|
          ensures MapServer(tail[i], rest[i]).Some?
        {
          assert tail[i] == servers[i + 1] && rest[i] == clock[i + 1];
        }
      }
    }
  }

  /** A batch holds one record per entry, in input order. */
  lemma {:induction false} MapServersInOrder(servers: seq<Json>, clock: seq<string>)
    requires |servers| <= |clock|
    requires MapServers(servers, clock).Some?
    ensures |MapServers(servers, clock).value| == |servers|
    ensures forall i :: 0 <= i < |servers| ==>
              MapServer(servers[i], clock[i]) == Some(MapServers(servers, clock).value[i])
    decreases |servers|
  {
    if servers != [] {
      MapServersInOrder(servers[1..], clock[1..]);
    }
  }

  /** The keys of a batch are the entries' `(address, port)` pairs, in order. */
  lemma BatchKeys(servers: seq<Json>, clock: seq<string>, i: nat)
    requires |servers| <= |clock| && i < |servers|
    requires MapServers(servers, clock).Some?
    ensures |MapServers(servers, clock).value| == |servers|
    ensures Key(MapServers(servers, clock).value[i]) == (Get(servers[i], "address"), Get(servers[i], "port"))
  {
    MapServersInOrder(servers, clock);
  }

  /** `insertServersToPostgres(servers)` up to the `upsertServer` call: the
      `for` loop pushing one record per entry into `serverDataJsonArray`.
      Returns the batch handed to the upsert, or None when an entry throws. */
  method InsertServersToPostgres(servers: seq<Json>, clock: seq<string>) returns (batch: Option<seq<ServerRecord>>)
    requires |servers| <= |clock|
    ensures batch == MapServers(servers, clock)
  {
    var serverDataJsonArray: seq<ServerRecord> := [];
    for i := 0 to |servers|
      invariant |serverDataJsonArray| == i
      invariant forall j :: 0 <= j < i ==>
                  MapServer(servers[j], clock[j]).Some? &&
                  serverDataJsonArray[j] == MapServer(servers[j], clock[j]).value
    {
      var serverData := MapServer(servers[i], clock[i]);
      if serverData.None? {
        MapServersTotal(servers, clock);
        return None;
      }
      serverDataJsonArray := serverDataJsonArray + [serverData.value];
    }
    MapServersTotal(servers, clock);
    MapServersInOrder(servers, clock);
    assert serverDataJsonArray == MapServers(servers, clock).value;
    batch := Some(serverDataJsonArray);
  }
}
