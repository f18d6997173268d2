/** The session lifecycle: the bootstrap in `main`, one iteration of
    `getServerListRepeatedly` and one of `sendAliveMessagesConstantly`.

    Every `process.exit(0)` becomes an `Exit` outcome naming why; the exit
    code itself is always 0. The two loops share one `UserData` object: the
    alive step is its only writer, the server-list step reads it. */
module Session {
  import opened Json
  import opened Rotator
  import opened Dispatcher
  import opened Payloads
  import opened Tokens

  /** Why the process exits. */
  datatype Fatal =
    | AllUrlsFailed                 // every URL failed in one sendPostRequest
    | UnexpectedResponse            // bootstrap answer without functionResult._functionResult
    | SessionKeyNotFound            // bootstrap answer without a truthy SessionKey._guid
    | UnexpectedServerListResponse  // server-list answer without AvailableCustomGames
    | ServerListError               // customGameServerInfos[0] threw inside the try
    | AliveMessageFailed            // alive answer whose successful is not true

  /** A step either lets the process go on with a value or ends it. */
  datatype Outcome<+T> = Proceed(value: T) | Exit(reason: Fatal)

  /** What the bootstrap extracts: the session key and the certificate. */
  datatype Credentials = Credentials(sessionKey: Json, userCertificate: Option<Json>)

  // Shape checks on the lobby's answers.

  /** `main`'s check of the InitializeSession answer. */
  function CheckInitResponse(response: Json): (r: Outcome<Credentials>)
    ensures r == Exit(UnexpectedResponse) <==> !Truthy(Path(response, ["functionResult", "_functionResult"]))
    ensures r.Proceed? ==>
              Truthy(Some(r.value.sessionKey)) &&
              Path(response, ["functionResult", "_functionResult", "SessionKey", "_guid"]) == Some(r.value.sessionKey) &&
              r.value.userCertificate == Get(response, "userCertificate")
    ensures Truthy(Path(response, ["functionResult", "_functionResult"])) &&
            Truthy(Path(response, ["functionResult", "_functionResult", "SessionKey", "_guid"])) ==>
              r == Proceed(Credentials(Path(response, ["functionResult", "_functionResult", "SessionKey", "_guid"]).value,
                                       Get(response, "userCertificate")))
    ensures r == Exit(SessionKeyNotFound) <==>
              Truthy(Path(response, ["functionResult", "_functionResult"])) &&
              !Truthy(Path(response, ["functionResult", "_functionResult", "SessionKey", "_guid"]))
    ensures r.Exit? ==> r.reason == UnexpectedResponse || r.reason == SessionKeyNotFound
  {
    if !(Truthy(Some(response)) && Truthy(Get(response, "functionResult"))
         && Truthy(Path(response, ["functionResult", "_functionResult"]))) then
      Exit(UnexpectedResponse)
    else
      var result := Path(response, ["functionResult", "_functionResult"]).value;
      var sessionKey := Chain(Get(result, "SessionKey"), "_guid");
      if !Truthy(sessionKey) then Exit(SessionKeyNotFound)
      else Proceed(Credentials(sessionKey.value, Get(response, "userCertificate")))
  }

  /** The server-list loop's check: the answer must hold
      `functionResult._functionResult.AvailableCustomGames`, and logging
      `customGameServerInfos[0]` throws when that list is null or undefined.
      Proceeds with the list of server entries. */
  function CheckServerListResponse(response: Json): (r: Outcome<Json>)
    ensures r == Exit(UnexpectedServerListResponse) <==>
              !Truthy(Path(response, ["functionResult", "_functionResult", "AvailableCustomGames"]))
    ensures r == Exit(ServerListError) <==>
              Truthy(Path(response, ["functionResult", "_functionResult", "AvailableCustomGames"])) &&
              Nullish(Path(response, ["functionResult", "_functionResult", "AvailableCustomGames", "customGameServerInfos"]))
    ensures r.Proceed? ==>
              Path(response, ["functionResult", "_functionResult", "AvailableCustomGames", "customGameServerInfos"]) == Some(r.value)
    ensures Truthy(Path(response, ["functionResult", "_functionResult", "AvailableCustomGames"])) &&
            !Nullish(Path(response, ["functionResult", "_functionResult", "AvailableCustomGames", "customGameServerInfos"])) ==>
              r == Proceed(Path(response, ["functionResult", "_functionResult", "AvailableCustomGames", "customGameServerInfos"]).value)
    ensures r.Exit? ==> r.reason == UnexpectedServerListResponse || r.reason == ServerListError
  {
    if !(Truthy(Some(response)) && Truthy(Get(response, "functionResult"))
         && Truthy(Path(response, ["functionResult", "_functionResult"]))
         && Truthy(Path(response, ["functionResult", "_functionResult", "AvailableCustomGames"]))) then
      Exit(UnexpectedServerListResponse)
    else
      var games := Path(response, ["functionResult", "_functionResult", "AvailableCustomGames"]).value;
      var infos := Get(games, "customGameServerInfos");
      if Nullish(infos) then Exit(ServerListError) else Proceed(infos.value)
  }

  /** The alive loop's check: only `successful === true` (the boolean, not a
      truthy value) proceeds, with the answer's certificate. */
  function CheckAliveResponse(response: Json): (r: Outcome<Option<Json>>)
    ensures r.Proceed? <==> Get(response, "successful") == Some(JBool(true))
    ensures r.Proceed? ==> r.value == Get(response, "userCertificate")
    ensures r.Exit? ==> r.reason == AliveMessageFailed
  {
    if Truthy(Some(response)) && Get(response, "successful") == Some(JBool(true)) then
      Proceed(Get(response, "userCertificate"))
    else
      Exit(AliveMessageFailed)
  }

  // The answers a healthy lobby sends, for the round trips.

  function InitResponse(sessionKey: Json, userCertificate: Json): Json
  {
    JObj(map[
      "functionResult" := JObj(map[
        "_functionResult" := JObj(map["SessionKey" := JObj(map["_guid" := sessionKey])])]),
      "userCertificate" := userCertificate])
  }

  function ServerListResponse(infos: Json): Json
  {
    JObj(map[
      "functionResult" := JObj(map[
        "_functionResult" := JObj(map[
          "AvailableCustomGames" := JObj(map["customGameServerInfos" := infos])])])])
  }

  function AliveResponse(userCertificate: Json): Json
  {
    JObj(map["successful" := JBool(true), "userCertificate" := userCertificate])
  }

  /** A well-formed InitializeSession answer yields exactly its session key
      and certificate. */
  lemma InitResponseAccepted(sessionKey: Json, userCertificate: Json)
    requires Truthy(Some(sessionKey))
    ensures CheckInitResponse(InitResponse(sessionKey, userCertificate)) ==
              Proceed(Credentials(sessionKey, Some(userCertificate)))
  {
  }

  /** A well-formed server-list answer yields exactly its list of entries. */
  lemma ServerListResponseAccepted(infos: Json)
    requires !infos.JNull?
    ensures CheckServerListResponse(ServerListResponse(infos)) == Proceed(infos)
  {
  }

  /** A successful heartbeat answer yields exactly its new certificate. */
  lemma AliveResponseAccepted(userCertificate: Json)
    ensures CheckAliveResponse(AliveResponse(userCertificate)) == Proceed(Some(userCertificate))
  {
  }

  // One dispatch followed by one check.

  function InitRound(outcomes: seq<Attempt>): Outcome<Credentials>
  {
    match Dispatched(outcomes)
    case Exhausted => Exit(AllUrlsFailed)
    case Delivered(body) => CheckInitResponse(body)
  }

  function ServerListRound(outcomes: seq<Attempt>): Outcome<Json>
  {
    match Dispatched(outcomes)
    case Exhausted => Exit(AllUrlsFailed)
    case Delivered(body) => CheckServerListResponse(body)
  }

  function AliveRound(outcomes: seq<Attempt>): Outcome<Option<Json>>
  {
    match Dispatched(outcomes)
    case Exhausted => Exit(AllUrlsFailed)
    case Delivered(body) => CheckAliveResponse(body)
  }

  /** A round goes on only if some URL answered and the answer has the
      expected shape; the answer it checks is the first good one. */
  lemma RoundsNeedAnAnswer(outcomes: seq<Attempt>, k: nat)
    requires k < |outcomes| && Succeeds(outcomes[k])
    requires forall i :: 0 <= i < k ==> !Succeeds(outcomes[i])
    ensures InitRound(outcomes) == CheckInitResponse(outcomes[k].body.value)
    ensures ServerListRound(outcomes) == CheckServerListResponse(outcomes[k].body.value)
    ensures AliveRound(outcomes) == CheckAliveResponse(outcomes[k].body.value)
  {
    FirstGoodAttemptWins(outcomes, k);
  }

  /** The shared `userData` object; only the alive step writes it. */
  class UserData {
    var userCertificate: Option<Json>

    /** `let userData = { userCertificate }`. */
    constructor (userCertificate: Option<Json>)
      ensures this.userCertificate == userCertificate
    {
      this.userCertificate := userCertificate;
    }
  }

  /** What the bootstrap hands to both loops: the session key and the one
      shared `UserData`. */
  datatype ActiveSession = ActiveSession(sessionKey: Json, userData: UserData)

  /** `main` after the Steam calls: build the initialization request from the
      two tokens, dispatch it, check the answer and, on success, create the
      shared record both loops receive. */
  method StartSession(rot: EndpointRotator, env: Env, sessionTicket: seq<byte>, appTicket: seq<byte>,
                      outcomes: seq<Attempt>)
    returns (r: Outcome<ActiveSession>, ghost posts: seq<(string, Json)>)
    requires rot.Valid() && |rot.urls| <= |outcomes|
    modifies rot
    ensures rot.Valid()
    ensures rot.cursor == AdvanceTimes(old(rot.cursor), |rot.urls|, Switches(outcomes[..|rot.urls|]))
    ensures posts == Posts(rot.urls, old(rot.cursor),
                           CreateUserCertification(env, AccessToken(sessionTicket), AppTicket(appTicket)),
                           Attempts(outcomes[..|rot.urls|]))
    ensures InitRound(outcomes[..|rot.urls|]).Exit? ==> r == Exit(InitRound(outcomes[..|rot.urls|]).reason)
    ensures InitRound(outcomes[..|rot.urls|]).Proceed? ==>
              r.Proceed? && fresh(r.value.userData) &&
              r.value.sessionKey == InitRound(outcomes[..|rot.urls|]).value.sessionKey &&
              r.value.userData.userCertificate == InitRound(outcomes[..|rot.urls|]).value.userCertificate
  {
    var token := AccessToken(sessionTicket);
    var ticket := AppTicket(appTicket);
    var payload := CreateUserCertification(env, token, ticket);
    var response;
    response, posts := SendPostRequest(rot, payload, outcomes);
    if response.Exhausted? {
      return Exit(AllUrlsFailed), posts;
    }
    var checked := CheckInitResponse(response.body);
    if checked.Exit? {
      return Exit(checked.reason), posts;
    }
    var userData := new UserData(checked.value.userCertificate);
    r := Proceed(ActiveSession(checked.value.sessionKey, userData));
  }

  /** One iteration of `getServerListRepeatedly`: request the list with the
      certificate the shared record holds now, dispatch, check. The shared
      record is not written. */
  method ServerListStep(rot: EndpointRotator, env: Env, session: ActiveSession, outcomes: seq<Attempt>)
    returns (r: Outcome<Json>, ghost posts: seq<(string, Json)>)
    requires rot.Valid() && |rot.urls| <= |outcomes|
    modifies rot
    ensures rot.Valid()
    ensures rot.cursor == AdvanceTimes(old(rot.cursor), |rot.urls|, Switches(outcomes[..|rot.urls|]))
    ensures posts == Posts(rot.urls, old(rot.cursor),
                           GetServerList(env, session.sessionKey, session.userData.userCertificate),
                           Attempts(outcomes[..|rot.urls|]))
    ensures r == ServerListRound(outcomes[..|rot.urls|])
  {
    var payload := GetServerList(env, session.sessionKey, session.userData.userCertificate);
    var response;
    response, posts := SendPostRequest(rot, payload, outcomes);
    if response.Exhausted? {
      return Exit(AllUrlsFailed), posts;
    }
    r := CheckServerListResponse(response.body);
  }

  /** One iteration of `sendAliveMessagesConstantly`: send a heartbeat with
      the current certificate; on `successful === true` replace the shared
      certificate with the answer's, otherwise leave it alone and exit. */
  method AliveStep(rot: EndpointRotator, env: Env, session: ActiveSession, outcomes: seq<Attempt>)
    returns (r: Outcome<Option<Json>>, ghost posts: seq<(string, Json)>)
    requires rot.Valid() && |rot.urls| <= |outcomes|
    modifies rot, session.userData
    ensures rot.Valid()
    ensures rot.cursor == AdvanceTimes(old(rot.cursor), |rot.urls|, Switches(outcomes[..|rot.urls|]))
    ensures posts == Posts(rot.urls, old(rot.cursor),
                           AliveMessage(env, session.sessionKey, old(session.userData.userCertificate)),
                           Attempts(outcomes[..|rot.urls|]))
    ensures r == AliveRound(outcomes[..|rot.urls|])
    ensures r.Proceed? ==> session.userData.userCertificate == r.value
    ensures r.Exit? ==> session.userData.userCertificate == old(session.userData.userCertificate)
  {
    var payload := AliveMessage(env, session.sessionKey, session.userData.userCertificate);
    var response;
    response, posts := SendPostRequest(rot, payload, outcomes);
    if response.Exhausted? {
      return Exit(AllUrlsFailed), posts;
    }
    r := CheckAliveResponse(response.body);
    if r.Proceed? {
      session.userData.userCertificate := r.value;
    }
  }

  /** A heartbeat followed by a server-list poll on the same session: when the
      heartbeat succeeds, every server-list request carries the certificate
      the heartbeat received, and the session key never changes. */
  method AliveThenServerList(rot: EndpointRotator, env: Env, session: ActiveSession,
                             aliveOutcomes: seq<Attempt>, listOutcomes: seq<Attempt>)
    returns (alive: Outcome<Option<Json>>, list: Outcome<Json>, ghost listPosts: seq<(string, Json)>)
    requires rot.Valid() && |rot.urls| <= |aliveOutcomes| && |rot.urls| <= |listOutcomes|
    requires AliveRound(aliveOutcomes[..|rot.urls|]).Proceed?
    modifies rot, session.userData
    ensures alive == AliveRound(aliveOutcomes[..|rot.urls|])
    ensures list == ServerListRound(listOutcomes[..|rot.urls|])
    ensures forall i :: 0 <= i < |listPosts| ==>
              SessionKeyOf(listPosts[i].1) == Some(session.sessionKey) &&
              CertificateOf(listPosts[i].1) == alive.value
  {
    ghost var alivePosts;
    alive, alivePosts := AliveStep(rot, env, session, aliveOutcomes);
    ghost var between := rot.cursor;
    list, listPosts := ServerListStep(rot, env, session, listOutcomes);
    PostsCarry(rot.urls, between, GetServerList(env, session.sessionKey, alive.value),
               Attempts(listOutcomes[..|rot.urls|]));
  }
}
