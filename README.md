# Bannerlord lobby agent: session core

`fetchServerList.js` is a small Node.js agent. It logs into Steam and turns two Steam
tickets into a Bannerlord lobby session. Then it runs two polling loops against the lobby
backend: a server-list poll every 60 seconds and an alive heartbeat every 2 seconds. This
project models the sequential session logic inside that agent and proves properties of it:

- `rotator.dfy` (module `Rotator`): the fixed list of three lobby URLs and the process-wide
  cursor `currentUrlIndex`. `getCurrentUrl` and `switchUrl` are the class
  `EndpointRotator`, whose `cursor` field the switch updates in place.
- `dispatcher.dfy` (module `Dispatcher`): `sendPostRequest`, the failover loop. It makes
  one attempt per URL, rotates after each failed attempt, and returns the first parsed
  body. The HTTP transport is an oracle: a sequence of attempt outcomes, one per attempt
  the call may make. Each outcome is a network error, or an answer with a status and a
  body that parses (or that `response.json()` cannot parse). The URL and body of every
  POST are logged in a ghost out-parameter.
- `payloads.dfy` (module `Payloads`): the three request builders `CreateUserCertification`,
  `getServerList` and `aliveMessage`. Their contracts are stated through an independent
  reader. The reader classifies a request body by its discriminators (`TypeName`,
  `MessageType`, `Message._type`) and reads back the session key, peer id and certificate
  it presents.
- `tokens.dfy` (module `Tokens`): `getExternalAccessToken` and `getAppTicket` once the
  Steam client has produced the raw ticket bytes. The bytes are copied into a zero-filled
  buffer of 1024 or 2048 bytes and hex-encoded. The app ticket is then upper-cased and
  stripped of hyphens. A hex decoder is the partner the layout lemmas are stated against.
- `session.dfy` (module `Session`):
  - the shape checks `main` and the two loops apply to the lobby's answers;
  - the shared `userData` record, a class whose certificate the alive loop overwrites;
  - one step of each stage: the bootstrap in `main`, one iteration of
    `getServerListRepeatedly` and one of `sendAliveMessagesConstantly`.

  Every `process.exit(0)` becomes an `Exit` outcome naming its cause.
- `servers.dfy` (module `Servers`): the loop of `insertServersToPostgres`. It maps every
  server entry of the lobby's list to one flat record, in order, up to the database call.
- `json.dfy` (module `Json`): the JSON values the agent handles. It also holds the pieces
  of JavaScript semantics its checks rely on: property access (`undefined` is `None`) and
  truthiness.

## Model

| member | source | states |
|---|---|---|
| Rotator.EndpointRotator.constructor | fetchServerList.js:9-14 | A fresh process starts with the cursor at index 0 of a non-empty URL list. |
| Rotator.EndpointRotator.CurrentUrl | fetchServerList.js:19-21 | `getCurrentUrl` returns the URL under the cursor, which is always one of the configured URLs. |
| Rotator.EndpointRotator.SwitchUrl | fetchServerList.js:24-27 | `switchUrl` advances the cursor by one, wrapping to 0 after the last URL (`(cursor + 1) % urls.length`). The cursor stays a valid index. |
| Rotator.AdvanceTimes | fetchServerList.js:24-25 | Any number of switches from a valid cursor leaves it a valid index. |
| Rotator.AdvanceTimesIsShift | fetchServerList.js:24-25 | `k` successive switches from `start` put the cursor at `(start + k) % n`. |
| Rotator.FullCircle | fetchServerList.js:24-25 | `n` switches over `n` URLs bring the cursor back to where it started. |
| Rotator.WrapOnce | fetchServerList.js:24-25 | Fewer than `n` switches give `start + k`, or `start + k - n` once past the end. |
| Rotator.VisitsDistinct | fetchServerList.js:24-25 | The first `n` cursor positions from any start are pairwise distinct. |
| Rotator.VisitsAll | fetchServerList.js:24-25 | Every index is reached within fewer than `n` switches from any start. |
| Dispatcher.FirstSuccess | fetchServerList.js:147-149 | Locates the first attempt that returns: every earlier attempt failed, and this one has an ok status and a parsed body. |
| Dispatcher.Dispatched | fetchServerList.js:133-164 | A call with one outcome per URL comes back empty exactly when every attempt fails. Otherwise it returns the body of an attempt that succeeded after every earlier one failed. |
| Dispatcher.SendPostRequest | fetchServerList.js:133-164 | The call attempts at most one POST per URL, with a retry counter that starts at 0. It returns the body of the first attempt with an ok status and a parsing body, unchanged, or `Exhausted` (the process exits). Every failure (network error, non-ok status, unparsable body) switches the URL once. The cursor ends where that many switches put it. The POSTs go, in order, to the URLs under the cursor, all carrying `data`. |
| Dispatcher.PostsAt | fetchServerList.js:137-146 | Attempt `i` of a call POSTs the payload to `urls[(start + i) % n]`. |
| Dispatcher.PostsCarry | fetchServerList.js:140-146 | Every POST of a call carries the same payload. |
| Dispatcher.LengthOfPosts | fetchServerList.js:137-146 | `m` attempts make exactly `m` POSTs. |
| Dispatcher.FirstGoodAttemptWins | fetchServerList.js:140-159 | If attempts `0..k-1` fail and attempt `k` succeeds, the call returns attempt `k`'s body after `k` switches and `k + 1` POSTs. |
| Dispatcher.AttemptsBounded | fetchServerList.js:134-160 | A call makes at most one POST per URL. It switches once per POST except after the successful one. |
| Dispatcher.AllFailedLeavesCursor | fetchServerList.js:137-163 | When every attempt fails, the call returns nothing, and its `n` switches leave the cursor at its starting index. |
| Dispatcher.CursorAtAnsweringUrl | fetchServerList.js:140-159 | After a successful call whose first `k` attempts failed, the cursor is `(start + k) % n`, the URL that answered. |
| Dispatcher.ExhaustedTriesEveryUrlOnce | fetchServerList.js:137-163 | An exhausted call POSTs to every URL exactly once. |
| Dispatcher.ThirdUrlAnswers | fetchServerList.js:9-13 | The process has three URLs. When a network error and then a 500 are followed by a good answer, the call returns the third body. The payload went once to each URL, in list order. The cursor moves from 0 to 2, the `lobby-odd` URL. |
| Tokens.PadTo | fetchServerList.js:343-344 | `Buffer.alloc(size)` plus `copy`: exactly `size` bytes, the ticket's bytes first (truncated to `size`), zeros after. |
| Tokens.Hex | fetchServerList.js:346 | `toString('hex')` writes two characters per byte. |
| Tokens.Upper | fetchServerList.js:364 | `toUpperCase` keeps the length, and turns every lower-case hex digit into an upper-case one with the same value. |
| Tokens.StripHyphens | fetchServerList.js:364 | `replace(/-/g, '')` leaves no hyphen, never lengthens the string, and keeps every other character as often as it occurred. |
| Tokens.AccessToken | fetchServerList.js:341-348 | The access token is 2048 lower-case hex digits and decodes to the ticket padded to 1024 bytes. |
| Tokens.AppTicket | fetchServerList.js:350-369 | The app ticket is 4096 upper-case hex digits and decodes to the ticket padded to 2048 bytes. |
| Tokens.DigitRoundTrip | fetchServerList.js:346 | Each hex digit is a lower-case hex character. Its upper-case form is an upper-case hex character. Both decode back to the nibble. |
| Tokens.HexAppend | fetchServerList.js:346 | Hex encoding distributes over concatenation. |
| Tokens.HexDigitsOnly | fetchServerList.js:346 | Hex output consists of lower-case hex digits only. |
| Tokens.HexOfZeros | fetchServerList.js:343-346 | A zero-filled buffer encodes to all `'0'` characters. |
| Tokens.UnhexHex | fetchServerList.js:346 | Decoding inverts hex encoding. |
| Tokens.UnhexUpperHex | fetchServerList.js:363-364 | Decoding inverts upper-cased hex encoding as well. |
| Tokens.StripHyphensNoop | fetchServerList.js:364 | `replace(/-/g, '')` leaves a string without hyphens unchanged. |
| Tokens.StripHyphensSingle | fetchServerList.js:364 | On a single character, `replace(/-/g, '')` drops a hyphen and keeps anything else. |
| Tokens.StripHyphensAppend | fetchServerList.js:364 | Stripping a concatenation strips each part and keeps them in order. With the single-character case, this fixes the result on every string. |
| Tokens.AccessTokenLayout | fetchServerList.js:341-348 | A ticket of at most 1024 bytes appears hex-encoded as the prefix of the access token, followed by `'0'`s. A longer ticket is cut to its first 1024 bytes. |
| Tokens.AppTicketLayout | fetchServerList.js:359-364 | The hyphen strip changes nothing: the app ticket is exactly the upper-cased hex of the padded 2048-byte buffer. |
| Payloads.AccessObject | fetchServerList.js:179-185 | The access object carries both Steam tokens, the application id 261550, the player's name as `UserName`, and the type `"Steam"`. |
| Payloads.PlayerIdObject | fetchServerList.js:175-177 | The player id object holds `"2.0.0." + STEADMID64`. |
| Payloads.PeerIdObject | fetchServerList.js:190-192 | The peer id object holds `"2.0.0 ." + STEADMID64`. |
| Payloads.VersionObject | fetchServerList.js:186-188 | The version object holds the application version. |
| Payloads.InitializeSessionMessage | fetchServerList.js:173-193 | The initialization message has the `InitializeSession` type and the access object. It carries the player id and peer id objects, the player's name, the version object and an empty module list. |
| Payloads.RestRequest | fetchServerList.js:202-217 | A REST object request carries its message type, session credentials, message and certificate under their keys, with the REST request type name. A certificate that is undefined is left out. |
| Payloads.CreateUserCertification | fetchServerList.js:169-198 | The reader classifies the body as an initialization request (`MessageType` 0). Its `SessionCredentials` and `UserCertificate` are null, so it presents no session key. Its message is the initialization message. |
| Payloads.SessionCredentials | fetchServerList.js:204-211 | The credentials present the given session key and the agent's peer id. |
| Payloads.GetServerList | fetchServerList.js:201-219 | The reader classifies the body as a server-list request with `MessageType` 2. It presents exactly the given session key, the peer id and the given certificate. |
| Payloads.AliveMessage | fetchServerList.js:221-235 | The reader classifies the body as an alive message without any `MessageType`. It presents exactly the given session key, the peer id and the given certificate. |
| Payloads.SessionRequestsAgree | fetchServerList.js:169-235 | The two session requests built from one session present the same credentials, and the three builders produce three different kinds of request. |
| Session.CheckInitResponse | fetchServerList.js:67-84 | The bootstrap exits with "unexpected response" exactly when `functionResult._functionResult` is not truthy. It exits with "session key not found" exactly when that is truthy and `SessionKey._guid` is not, and it exits for no other reason. When both are truthy it goes on with that `_guid` as the session key and `response.userCertificate` as the certificate, exactly. |
| Session.CheckServerListResponse | fetchServerList.js:92-105 | The step exits as "unexpected" exactly when `AvailableCustomGames` is not truthy. It exits as an error, through the caught TypeError of `customGameServerInfos[0]`, exactly when that list is null or undefined, and for no other reason. Otherwise it goes on with exactly that list. |
| Session.CheckAliveResponse | fetchServerList.js:116-121 | The heartbeat goes on exactly when `successful` is the boolean `true`, with the answer's certificate. Any other answer exits. |
| Session.InitResponseAccepted | fetchServerList.js:67-79 | The smallest well-formed bootstrap answer yields exactly its session key and certificate. |
| Session.ServerListResponseAccepted | fetchServerList.js:92-97 | The smallest well-formed server-list answer yields exactly its list of entries. |
| Session.AliveResponseAccepted | fetchServerList.js:116-117 | A successful heartbeat answer yields exactly its new certificate. |
| Session.RoundsNeedAnAnswer | fetchServerList.js:147-149 | Each stage checks exactly the body of the first good attempt. |
| Session.UserData.constructor | fetchServerList.js:76 | The shared record is created holding the bootstrap's certificate. |
| Session.StartSession | fetchServerList.js:55-84 | Bootstrap builds the initialization request from the two encoded tokens and POSTs it through the rotator. It exits when every URL fails or the answer is malformed. Otherwise it hands on the extracted session key and one new shared record holding the extracted certificate; both loops receive that same record. |
| Session.ServerListStep | fetchServerList.js:87-108 | One server-list iteration POSTs `getServerList` with the session key and the certificate currently in the shared record. It leaves the record alone and returns what the check of the first good answer returns. |
| Session.AliveStep | fetchServerList.js:110-128 | One heartbeat POSTs `aliveMessage` with the current certificate. On `successful === true` it replaces the shared certificate with the answer's. On any other outcome it exits and leaves the record untouched. The session key never changes. |
| Session.AliveThenServerList | fetchServerList.js:87-128 | After a successful heartbeat, every POST of the next server-list iteration carries the unchanged session key and the certificate the heartbeat received. |
| Servers.MapServer | fetchServerList.js:241-259 | An entry maps to a record exactly when `id` and `hostId` are neither null nor undefined; otherwise the property access throws. The record's `guid` is `id.guid` and its `hostId` is `hostId._playerId`. Every other column is the entry's field of that name, `map` included. The record's upsert key is the entry's `(address, port)`, and it is stamped with the clock reading. |
| Servers.MapServers | fetchServerList.js:239-261 | A batch has one record per entry. When there is no batch, some entry threw. |
| Servers.MapServersTotal | fetchServerList.js:240-261 | The batch exists exactly when every entry maps. |
| Servers.MapServersInOrder | fetchServerList.js:239-261 | A batch has one record per entry, in input order. |
| Servers.BatchKeys | fetchServerList.js:241-245 | The `i`-th record of a batch has the `i`-th entry's `(address, port)` key. |
| Servers.InsertServersToPostgres | fetchServerList.js:238-262 | The `for` loop that pushes into `serverDataJsonArray` computes exactly that batch. It hands back nothing when one entry throws. |

## Left out

- Steam login, persona, `gamesPlayed`, `createAuthSessionTicket` and `getEncryptedAppTicket` are a foreign library. The model takes the raw ticket bytes as input.
- `getAppTicket`'s error path (`reject(err)` when Steam fails) belongs to the Steam call and is not modelled. In the source it leaves `main` with an unhandled rejection.
- The `fetch` transport is network I/O. An attempt-outcome oracle replaces it, and request headers and `JSON.stringify` serialisation are not modelled.
- Dispatcher.SendPostRequest: requires one oracle entry per URL (`|urls| <= |outcomes|`). That is the most attempts a call can make, so this limits the oracle, not the callers.
- Postgres (`createNewClient`, `upsertServer`, the SQL statements and `BEGIN`/`COMMIT`/`ROLLBACK`) is an external database and is not modelled. `Servers.InsertServersToPostgres` stops at the batch handed to `upsertServer`. Its call at fetchServerList.js:97 is commented out in the source, so the server-list step never persists anything.
- The two loops run concurrently, with `setTimeout` sleeps between iterations. The model has one step of each loop, run in sequence. Interleavings and timing are not modelled.
- `process.exit(0)` becomes an `Exit` outcome; the exit code is always 0. `console.*` output is not modelled.
- `dotenv`/`process.env` reads become an `Env` parameter of three strings, so an unset variable is not modelled. In the source, an unset `STEADMID64` makes the ids `"2.0.0.undefined"` and `"2.0.0 .undefined"`. An unset `BANNERLORD_NAME` makes `JSON.stringify` drop `PlayerName` and `UserName`. An unset `BANNERLORD_APPLICATION_VERSION` sends `ApplicationVersion` as `{}` (fetchServerList.js:175-192). `new Date().toISOString()` becomes a sequence of clock readings, one per record.
- JSON numbers are modelled as integers: every number the agent builds or inspects is one, and floating point is not modelled.
- Servers.MapServer: an entry that is not a JSON object is treated like one without `id`, so it throws. In JavaScript, a string or number entry also yields `undefined` for `id` and throws the same way.
- Servers.InsertServersToPostgres: `servers` is a sequence of JSON entries, so other arguments are not modelled. A non-iterable argument makes `for...of` throw. A string is iterable: `""` gives an empty batch, and a non-empty string throws at `server.id.guid` on its first character.
- Tokens.Upper: `toUpperCase` is modelled on ASCII letters only (`Tokens.UpperChar`). Hex output has no other letters.
- Payloads.InitializeSessionMessage: the peer id prefix `"2.0.0 ."` (with a space) differs from the player id prefix `"2.0.0."`. It is kept as written; whether the lobby expects it cannot be decided from the source.
