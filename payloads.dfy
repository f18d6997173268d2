/** The three request bodies the agent posts to the lobby
    (`CreateUserCertification`, `getServerList`, `aliveMessage`), and a reader
    that classifies a request body and reads back the session credentials it
    carries. Each builder's contract is stated through the reader. */
module Payloads {
  import opened Json

  /** The environment strings the builders read: `STEADMID64`,
      `BANNERLORD_NAME`, `BANNERLORD_APPLICATION_VERSION`. */
  datatype Env = Env(steamId64: string, playerName: string, appVersion: string)

  /** The game's Steam application id, `appID` and the `AppId` field. */
  const AppId: int := 261550

  const RestRequestType := "TaleWorlds.Diamond.Rest.RestObjectRequestMessage"
  const AliveType := "TaleWorlds.Diamond.Rest.AliveMessage"
  const InitializeSessionType := "Messages.FromClient.ToLobbyServer.InitializeSession"
  const ServerListType := "Messages.FromClient.ToLobbyServer.RequestCustomGameServerListMessage"

  /** `"2.0.0." + STEADMID64`, the player id of the initialization request. */
  function PlayerId(env: Env): string
  {
    "2.0.0." + env.steamId64
  }

  /** `"2.0.0 ." + STEADMID64` (with the space), the peer id every request
      carries. */
  function PeerId(env: Env): string
  {
    "2.0.0 ." + env.steamId64
  }

  /** `JSON.stringify` leaves out a key whose value is undefined. */
  function WithOptional(fields: map<string, Json>, key: string, v: Option<Json>): map<string, Json>
  {
    if v.Some? then fields[key := v.value] else fields
  }

  // The reader.

  datatype RequestKind = InitializeSession | ServerListRequest | Alive

  /** What the lobby reads a request body as: an alive message by its
      `TypeName`; otherwise a REST object request told apart by its
      `MessageType` and its message's `_type`. */
  function KindOf(body: Json): Option<RequestKind>
  {
    var typeName := Get(body, "TypeName");
    var messageType := Get(body, "MessageType");
    var messageKind := Path(body, ["Message", "_type"]);
    if typeName == Some(JStr(AliveType)) then Some(Alive)
    else if typeName != Some(JStr(RestRequestType)) then None
    else if messageType == Some(JNum(0)) && messageKind == Some(JStr(InitializeSessionType)) then Some(InitializeSession)
    else if messageType == Some(JNum(2)) && messageKind == Some(JStr(ServerListType)) then Some(ServerListRequest)
    else None
  }

  /** The session key a request presents, `SessionCredentials.SessionKey._guid`. */
  function SessionKeyOf(body: Json): Option<Json>
  {
    Path(body, ["SessionCredentials", "SessionKey", "_guid"])
  }

  /** The peer id a request presents, `SessionCredentials.PeerId._peerId`. */
  function PeerIdOf(body: Json): Option<Json>
  {
    Path(body, ["SessionCredentials", "PeerId", "_peerId"])
  }

  /** The certificate a request presents; None when the key is absent. */
  function CertificateOf(body: Json): Option<Json>
  {
    Get(body, "UserCertificate")
  }

  // The builders.

  /** The `AccessObject` of the initialization request: the two Steam tokens
      and the application id. */
  function AccessObject(env: Env, externalAccessToken: string, appTicket: string): (r: Json)
    ensures Get(r, "ExternalAccessToken") == Some(JStr(externalAccessToken))
    ensures Get(r, "AppTicket") == Some(JStr(appTicket))
    ensures Get(r, "AppId") == Some(JNum(AppId))
    ensures Get(r, "UserName") == Some(JStr(env.playerName))
    ensures Get(r, "Type") == Some(JStr("Steam"))
  {
    JObj(map[
      "UserName" := JStr(env.playerName),
      "Type" := JStr("Steam"),
      "ExternalAccessToken" := JStr(externalAccessToken),
      "AppId" := JNum(AppId),
      "AppTicket" := JStr(appTicket)
    ])
  }

  /** `{ "_playerId": "2.0.0." + STEADMID64 }`. */
  function PlayerIdObject(env: Env): (r: Json)
    ensures Get(r, "_playerId") == Some(JStr(PlayerId(env)))
  {
    JObj(map["_playerId" := JStr(PlayerId(env))])
  }

  /** `{ "_peerId": "2.0.0 ." + STEADMID64 }`, in every request. */
  function PeerIdObject(env: Env): (r: Json)
    ensures Get(r, "_peerId") == Some(JStr(PeerId(env)))
  {
    JObj(map["_peerId" := JStr(PeerId(env))])
  }

  /** `{ "_version": BANNERLORD_APPLICATION_VERSION }`. */
  function VersionObject(env: Env): (r: Json)
    ensures Get(r, "_version") == Some(JStr(env.appVersion))
  {
    JObj(map["_version" := JStr(env.appVersion)])
  }

  /** The `Message` of the initialization request. */
  function InitializeSessionMessage(env: Env, externalAccessToken: string, appTicket: string): (r: Json)
    ensures Get(r, "_type") == Some(JStr(InitializeSessionType))
    ensures Get(r, "AccessObject") == Some(AccessObject(env, externalAccessToken, appTicket))
    ensures Get(r, "PlayerId") == Some(PlayerIdObject(env))
    ensures Get(r, "PeerId") == Some(PeerIdObject(env))
    ensures Get(r, "PlayerName") == Some(JStr(env.playerName))
    ensures Get(r, "ApplicationVersion") == Some(VersionObject(env))
    ensures Get(r, "LoadedModules") == Some(JArr([]))
  {
    JObj(map[
      "PlayerName" := JStr(env.playerName),
      "ApplicationVersion" := VersionObject(env),
      "LoadedModules" := JArr([]),
      "_type" := JStr(InitializeSessionType),
      "PlayerId" := PlayerIdObject(env),
      "AccessObject" := AccessObject(env, externalAccessToken, appTicket),
      "PeerId" := PeerIdObject(env)
    ])
  }

  /** The envelope of a REST object request: its message type, session
      credentials, message and certificate under their keys. */
  function RestRequest(messageType: int, credentials: Json, message: Json, userCertificate: Option<Json>): (r: Json)
    ensures Get(r, "TypeName") == Some(JStr(RestRequestType))
    ensures Get(r, "MessageType") == Some(JNum(messageType))
    ensures Get(r, "SessionCredentials") == Some(credentials)
    ensures Get(r, "Message") == Some(message)
    ensures Get(r, "UserCertificate") == userCertificate
  {
    JObj(WithOptional(map[
      "MessageType" := JNum(messageType),
      "SessionCredentials" := credentials,
      "Message" := message,
      "TypeName" := JStr(RestRequestType)
    ], "UserCertificate", userCertificate))
  }

  /** `CreateUserCertification(externalAccessToken, appTicket)`: the
      initialization request, the only one without session credentials. */
  function CreateUserCertification(env: Env, externalAccessToken: string, appTicket: string): (r: Json)
    ensures KindOf(r) == Some(InitializeSession)
    ensures Get(r, "SessionCredentials") == Some(JNull) && SessionKeyOf(r) == None
    ensures CertificateOf(r) == Some(JNull)
    ensures Get(r, "Message") == Some(InitializeSessionMessage(env, externalAccessToken, appTicket))
  {
    RestRequest(0, JNull, InitializeSessionMessage(env, externalAccessToken, appTicket), Some(JNull))
  }

  /** The session credentials both session requests carry. */
  function SessionCredentials(env: Env, sessionKey: Json): (r: Json)
    ensures Path(r, ["SessionKey", "_guid"]) == Some(sessionKey)
    ensures Path(r, ["PeerId", "_peerId"]) == Some(JStr(PeerId(env)))
  {
    JObj(map[
      "PeerId" := PeerIdObject(env),
      "SessionKey" := JObj(map["_guid" := sessionKey])
    ])
  }

  /** `getServerList(sessionKey, userCertificate)`: message type 2, carrying
      the session key and the certificate it was given. */
  function GetServerList(env: Env, sessionKey: Json, userCertificate: Option<Json>): (r: Json)
    ensures KindOf(r) == Some(ServerListRequest)
    ensures Get(r, "MessageType") == Some(JNum(2))
    ensures SessionKeyOf(r) == Some(sessionKey)
    ensures PeerIdOf(r) == Some(JStr(PeerId(env)))
    ensures CertificateOf(r) == userCertificate
  {
    RestRequest(2, SessionCredentials(env, sessionKey), JObj(map["_type" := JStr(ServerListType)]), userCertificate)
  }

  /** `aliveMessage(sessionKey, userCertificate)`: no message type at all,
      carrying the session key and the certificate it was given. */
  function AliveMessage(env: Env, sessionKey: Json, userCertificate: Option<Json>): (r: Json)
    ensures KindOf(r) == Some(Alive)
    ensures Get(r, "MessageType") == None
    ensures SessionKeyOf(r) == Some(sessionKey)
    ensures PeerIdOf(r) == Some(JStr(PeerId(env)))
    ensures CertificateOf(r) == userCertificate
  {
    JObj(WithOptional(map[
      "SessionCredentials" := SessionCredentials(env, sessionKey),
      "TypeName" := JStr(AliveType)
    ], "UserCertificate", userCertificate))
  }

  /** The two session requests built from the same session present the same
      credentials, and no two builders produce bodies of the same kind. */
  lemma SessionRequestsAgree(env: Env, sessionKey: Json, userCertificate: Option<Json>, token: string, ticket: string)
    ensures var list, alive := GetServerList(env, sessionKey, userCertificate), AliveMessage(env, sessionKey, userCertificate);
            SessionKeyOf(list) == SessionKeyOf(alive) && PeerIdOf(list) == PeerIdOf(alive) &&
            CertificateOf(list) == CertificateOf(alive)
    ensures var init := CreateUserCertification(env, token, ticket);
            KindOf(init) != KindOf(GetServerList(env, sessionKey, userCertificate)) &&
            KindOf(init) != KindOf(AliveMessage(env, sessionKey, userCertificate)) &&
            KindOf(GetServerList(env, sessionKey, userCertificate)) != KindOf(AliveMessage(env, sessionKey, userCertificate))
  {
  }
}
