# API gateway: waiter table, fragment consolidator and reply logic, in Dafny

This project models the sequential core of a Python API gateway that sits in
front of a team service, a rating service and a frontend:

- **The event-waiter table** of `GatewayService`. There are two
  process-wide dicts. `message_condition` maps an event kind to an
  `asyncio.Condition`. `message_store` holds, per event kind, the last payload
  delivered while a waiter entry existed for it, until a woken wait takes
  it. A caller of `wait_for_event` registers and waits. The
  message consumer calls `handle_message` for every decoded bus message.
  Asyncio is not modelled: the waits are four sequential steps whose
  interleaving is the order in which they are called. The steps are
  register, deliver, finish-woken and finish-timed-out.
- **The two-fragment consolidator** of the `player_created` /
  `score_created` resolvers. A team fragment and a score fragment of one
  player are staged in Redis under `team_message_<id>` and
  `score_message_<id>`. Once both are readable, the merged player is POSTed to
  the frontend and two clearing writes follow. The resolvers exist twice, in
  `resolver/mutation.py` and `resolver/player_mutation.py`. Both copies are
  proved against the same model (module `Consolidation`).
- **The pure reply and payload logic.** This covers how every GraphQL
  call turns a peer's reply into a value or an exception, and the REST
  payloads sent to the frontend. It also covers `get_players_data`, which
  joins player names with ratings, and the three service URLs.

Files and modules: `common.dfy` (values, records, outcomes); `config.dfy`
(`Config`); `peer.dfy` (`Peer`: transport failures, reply shapes,
`Interpret`); `team_service.dfy` (`TeamService`); `gateway_service.dfy`
(`GatewayService`: reply branches and the name/rating join);
`gateway_events.dfy` (`GatewayEvents`: the waiter table); `cache.dfy`
(`Cache`: `RedisClient`); `consolidation.dfy` (`Consolidation`: the shared
specification of the resolvers); `mutation.dfy` and `player_mutation.dfy`
(the two resolver copies as imperative methods).

How the pieces are stated:

- **Waiter table.** It is a class `EventTables` with two `map` fields.
  Its methods are proved against pure step functions on an abstract view.
  The view holds the set of kinds with a waiter entry, plus the store. The
  methods also state the identity of the `Condition` objects: one is created
  only if none exists, and an existing one is shared.
- **Resolvers.** They are imperative methods over a `RedisClient` (a class
  with a `map<string, string>` field). Each appends every effect to a ghost
  journal: a store write, or the player handed to the frontend. Each
  method's postcondition ties its result, the journal and the new store to
  a pure function of the old store. Lemmas about those functions state
  ordering, one-notification-per-call, survival of fragments and the
  last-write-wins rule.
- **Peer replies** are inputs. A GraphQL reply takes one of four shapes:
  - `NoReply`: the falsy `{}` that `send_request` returns on any failure;
  - `ErrorsOnly`: an object without a `data` key, on which the lookup
    raises `KeyError`;
  - `Unreadable`: a truthy body on which `response["data"][field]` raises
    `TypeError`, because `data` is null or the body is not a JSON object;
  - a reply whose requested field is present or null, with its list of
    error messages. A frontend
  reply is empty, a body that fits the record, or anything else.

Where the system's design description and the code disagree, the model
follows the code:

- **Registering for a kind that already has a waiter.** The design says
  registration is rejected. The code reuses the existing `Condition`
  (`RegisterWaiter`, `SecondWaiterGetsNothing`).
- **Atomic consolidation.** The design asks for a read-check-clear claim.
  The code reads twice, notifies, then writes. Its clearing writes miss the
  fragment keys, so the fragments survive (`FragmentsSurviveConsolidation`,
  `RedeliveryNotifiesTwice`).
- **Undefined exception classes.** `gateway_service.py` imports `TeamError`
  and `PlayerError`, and `gateway_exceptions.py` defines neither.
  `team_service.py` imports `PlayerCreationError` from `team_exceptions.py`,
  which does not define it. The model keeps them as the names of the
  exception classes the code raises (`Common.ErrorClass`). In the same way,
  `team_service.py:9-14` imports `TeamCreateType`, `TeamCreatedType`,
  `TeamCreateInput` and `TeamCreatedInput`, which `resolver/team_schema.py`
  does not define. `gateway_service.py:18-20` imports `PlayerDataType`,
  which `resolver/player_schema.py` does not define. The fields of these
  records (`Common.TeamRecord`, `Common.PlayerRecord`) are taken from the
  query selections and from `team_service.py:86-87`. Their types are
  assumed to be those of the defined records with the same field names.
- **Where the Redis client comes from.** The resolvers import `redis_client`
  from `utils.cache`, which is not part of this model. It is taken to be
  the client of `app/src/data/cache.py`.
- **Missing rating.** For a player with no rating, `get_players_data` passes
  `None` to `PlayerDetails.player_average_rating`, but that field is a
  non-optional float. Pydantic refuses it, so the model has an explicit
  `ValidationError` for this case.

## Model

| member | source | states |
|---|---|---|
| `Config.Origin` | app/src/utils/config.py:41 | `http://host:port`: scheme, then the host, a colon and the port, at the stated positions |
| `Config.GraphqlUrl` | app/src/utils/config.py:33 | starts with `http://`, then the origin, then the API prefix, and ends with `/graphql` |
| `Config.RatingServiceUrl` | app/src/utils/config.py:31-33 | starts with `http://`, ends with `/graphql`, and is the rating host's origin + API prefix + `/graphql` |
| `Config.TeamServiceUrl` | app/src/utils/config.py:35-37 | the same shape, using the team host and port |
| `Config.FrontendServiceUrl` | app/src/utils/config.py:39-41 | starts with `http://` and is the bare origin of the frontend: no API prefix and no `/graphql` |
| `Config.TeamUrlExtendsFrontendUrl` | app/src/utils/config.py:36-41 | when the team service has the frontend's host and port, its URL is the frontend URL + API prefix + `/graphql` |
| `Config.SameShapeForTeamAndRating` | app/src/utils/config.py:32-37 | team and rating URLs coincide when host and port coincide |
| `Peer.SendRequest` | app/src/service/team_service.py:28-47 | a delivered body is returned as is; a status error, a request error or any other error gives the empty object (the same holds for `GatewayService.send_request`, app/src/service/gateway_service.py:42-61) |
| `Peer.Interpret` | app/src/service/team_service.py:68-79 | the result is a value iff the reply has a non-null field, and then it is that field; an empty reply raises the call's class with its "no response" message; a reply without `data` fails on the lookup and an unreadable one with `TypeError`, before the class is reached; a null field raises the same class with the first error's message, or fails on the lookup when there are no errors |
| `Peer.TransportFailureIsNoResponse` | app/src/service/team_service.py:39-69 | every transport failure surfaces as the call's own "no response" error |
| `TeamService.CreateTeamViaGraphql` | app/src/service/team_service.py:64-79 | empty reply raises `TeamCreationError("No response received from the team service")`; a reply without `data` fails on the lookup, and a null `data` or a body that is not an object fails with `TypeError`; a non-null `data.create_team` is returned; a null one raises `TeamCreationError(errors[0].message)`, or fails on the lookup when there are no errors |
| `TeamService.CreatePlayerViaGraphql` | app/src/service/team_service.py:109-126 | empty reply raises `PlayerCreationError` with the team-service message; a reply without `data` fails on the lookup, and a null `data` or a body that is not an object fails with `TypeError`; a non-null `data.create_player` is returned; a null one raises `PlayerCreationError(errors[0].message)`, or fails on the lookup when there are no errors |
| `TeamService.TeamCreatedPayload` | app/src/service/team_service.py:85-88 | keys exactly `teamId` and `teamName`; reading them back gives the team |
| `TeamService.PlayerCreatedPayload` | app/src/service/team_service.py:132-137 | keys exactly `teamId`, `playerTeamName`, `playerName` and `playerScore`; reading them back gives the player (`player_team_id` is under `teamId`) |
| `TeamService.PlayerPayloadInjective` | app/src/service/team_service.py:132-137 | two different players never produce the same payload |
| `TeamService.BuildFromReply` | app/src/service/team_service.py:142 | None iff the reply is empty; the record iff the reply fits it; `TypeError` iff the reply is any other body |
| `TeamService.TeamCreatedViaRest` | app/src/service/team_service.py:81-92 | sends exactly `{teamId, teamName}` from `team_id` and `team_name`; returns None on an empty reply, the record built from a fitting one, and fails with `TypeError` on any other reply |
| `TeamService.PlayerCreatedViaRest` | app/src/service/team_service.py:128-142 | sends the four fields under the frontend's names; returns None on an empty reply, the record built from a fitting one, and fails with `TypeError` on any other reply |
| `TeamService.FailedNotificationReturnsNone` | app/src/service/team_service.py:29-47 | a failed POST to the frontend makes both REST calls return None |
| `GatewayService.CreateTeam` | app/src/service/gateway_service.py:117-132 | empty reply raises `TeamError` with the team-service message; a reply without `data` fails on the lookup, and a null `data` or a body that is not an object fails with `TypeError`; a non-null `create_team` is returned; a null one raises `TeamError(errors[0].message)`, or fails on the lookup when there are no errors |
| `GatewayService.CreatePlayer` | app/src/service/gateway_service.py:149-166 | empty reply raises `PlayerError` with the team-service message; a reply without `data` fails on the lookup, and a null `data` or a body that is not an object fails with `TypeError`; a non-null `create_player` is returned; a null one raises `PlayerError(errors[0].message)`, or fails on the lookup when there are no errors |
| `GatewayService.JoinTeam` | app/src/service/gateway_service.py:183-198 | empty reply raises `TeamError` with the team-service message; a reply without `data` fails on the lookup, and a null `data` or a body that is not an object fails with `TypeError`; a non-null `join_team` is returned; a null one raises `TeamError(errors[0].message)`, or fails on the lookup when there are no errors |
| `GatewayService.GetPlayersName` | app/src/service/gateway_service.py:214-228 | empty reply raises `TeamError` with the team-service message; a reply without `data` fails on the lookup, and a null `data` or a body that is not an object fails with `TypeError`; a non-null `get_players` is returned; a null one raises `TeamError(errors[0].message)`, or fails on the lookup when there are no errors |
| `GatewayService.GetPlayersRating` | app/src/service/gateway_service.py:243-257 | empty reply raises `TeamError` with the rating-service message; a reply without `data` fails on the lookup, and a null `data` or a body that is not an object fails with `TypeError`; a non-null `get_players_rating` is returned; a null one raises `TeamError(errors[0].message)`, or fails on the lookup when there are no errors |
| `GatewayService.RatingsByPlayer` | app/src/service/gateway_service.py:273-276 | the rating dict has a key for every rated player id and for no other id |
| `GatewayService.LastEntryWins` | app/src/service/gateway_service.py:273-276 | the rating kept for a player is that of its last entry in the rating list |
| `GatewayService.RatingIsLastEntry` | app/src/service/gateway_service.py:273-276 | every rating kept is that of the last entry for its player |
| `GatewayService.JoinPlayers` | app/src/service/gateway_service.py:280-288 | succeeds iff every named player has a rating; then one entry per named player, in order, with its name and its rating |
| `GatewayService.GetPlayersData` | app/src/service/gateway_service.py:260-290 | a failing name call is the result (an empty name reply raises `TeamError` with the team-service message); after a successful name call, a failing rating call is the result; success implies that both services answered with a non-null field |
| `GatewayService.GetPlayersDataRatingFailure` | app/src/service/gateway_service.py:266-271 | the rating service is asked about the team id the team service returned, and any failure of that call is the result: an empty rating reply raises `TeamError` with the rating-service message, and a null field with errors raises `TeamError` with the first one |
| `GatewayService.GetPlayersDataJoin` | app/src/service/gateway_service.py:273-289 | with both replies: fails with `ValidationError` exactly when some player has no rating; otherwise `team_id` and `team_name` come from the name reply, with one entry per named player, in order, each with the player's name and the rating of the last rating entry for its id |
| `GatewayEvents.ProjectTeam` | app/src/service/gateway_service.py:88-89 | defined iff `team_id` is an integer and `team_name` a string; has exactly those two keys, with the data's values |
| `GatewayEvents.ProjectTeamIdempotent` | app/src/service/gateway_service.py:88-89 | projecting a projection changes nothing |
| `GatewayEvents.HandledResult` | app/src/service/gateway_service.py:84-92 | `team_created`/`team_joined` give the team projection, or `ValidationError` when it is refused; any other kind gives the raw data |
| `GatewayEvents.Register` | app/src/service/gateway_service.py:65-68 | the kind has an entry afterwards; an existing entry leaves the tables unchanged; no other kind and no payload changes |
| `GatewayEvents.Deliver` | app/src/service/gateway_service.py:81-100 | returns the handled result whether or not a waiter exists; with an entry, it stores the result under the kind, overwriting; with no entry, or after a refused projection, both tables are unchanged; other kinds never change |
| `GatewayEvents.FinishWoken` | app/src/service/gateway_service.py:72-78 | returns the payload stored under the kind, or None; removes that payload and the kind's entry (a no-op when already gone) |
| `GatewayEvents.FinishTimeout` | app/src/service/gateway_service.py:73-78 | returns None, removes the kind's entry (a no-op when already gone), leaves the store unchanged |
| `GatewayEvents.DeliveredOnce` | app/src/service/gateway_service.py:64-100 | register, deliver, woken: the waiter gets exactly the delivered payload; nothing for the kind remains, so a second delivery is dropped |
| `GatewayEvents.LateDeliveryDropped` | app/src/service/gateway_service.py:73-99 | after a timeout no entry remains and the store is unchanged, so a late delivery is dropped |
| `GatewayEvents.SecondWaiterGetsNothing` | app/src/service/gateway_service.py:65-78 | a second registration reuses the entry; after one delivery the first waiter to finish takes the payload and the second gets None |
| `GatewayEvents.LateFinishDropsNewEntry` | app/src/service/gateway_service.py:65-99 | two waiters share an entry; after the first finishes, a third registers a new entry, and the second's finish deletes it, because the deletion goes by kind; the third waiter's delivery is then dropped and it times out with None |
| `GatewayEvents.StalePayloadOverwritten` | app/src/service/gateway_service.py:72-97 | a payload delivered before its waiter timed out stays stored; a later waiter woken by a fresh delivery gets the fresh payload |
| `GatewayEvents.EventTables.constructor` | app/src/service/gateway_service.py:39-40 | both dicts start empty |
| `GatewayEvents.EventTables.RegisterWaiter` | app/src/service/gateway_service.py:65-68 | follows `Register`; an existing `Condition` is shared and the map is unchanged; otherwise a fresh `Condition` is added under the kind; the store is unchanged |
| `GatewayEvents.EventTables.HandleMessage` | app/src/service/gateway_service.py:81-100 | follows `Deliver`; `message_condition` is unchanged |
| `GatewayEvents.EventTables.FinishWokenWait` | app/src/service/gateway_service.py:71-78 | follows `FinishWoken`; the kind's `Condition` entry is removed |
| `GatewayEvents.EventTables.FinishTimedOutWait` | app/src/service/gateway_service.py:73-78 | follows `FinishTimeout`; the kind's `Condition` entry is removed |
| `Cache.Lookup` | app/src/data/cache.py:21-23 | a string is returned iff the key is present with a non-empty value, and then it is that value |
| `Cache.WriteThenRead` | app/src/data/cache.py:18-23 | a written value reads back as itself, except `""`, which reads back as None |
| `Cache.WriteLeavesOtherKeys` | app/src/data/cache.py:18-19 | a write changes what is read under its own key only |
| `Cache.RedisClient.constructor` | app/src/data/cache.py:11-16 | the client sees the server's current contents |
| `Cache.RedisClient.SetMessage` | app/src/data/cache.py:18-19 | the key maps to the message afterwards, overwriting; every other key is unchanged |
| `Cache.RedisClient.GetMessage` | app/src/data/cache.py:21-23 | returns the stored string iff it is present and non-empty; None for an absent key or one holding `""` |
| `Consolidation.SetAndRecord` | app/src/data/cache.py:18-19 | the write reaches the store and is recorded in the journal |
| `Consolidation.NotificationsAppend` | app/src/resolver/mutation.py:82 | the notifications of two consecutive runs of effects add up |
| `Consolidation.ReplayUntouched` | app/src/resolver/mutation.py:83-84 | writes to other keys leave a key's presence and value as they were |
| `Consolidation.AttemptEffects` | app/src/resolver/mutation.py:82-84 | the effects of an attempt hold one notification; the store sees only the two clearing writes |
| `Consolidation.ConsolidateClearing` | app/src/resolver/mutation.py:70-91 | None with no effect iff a fragment is absent or empty; `DecodeError` with no effect when a fragment does not decode; otherwise exactly one notification first, with `player_team_id`, `player_name` and `player_team_name` from the team fragment and `player_score` from the score fragment; then, unless the frontend's reply raises `TypeError`, the two clearing writes and the same record returned |
| `Consolidation.Consolidate` | app/src/resolver/mutation.py:70-91 | the as-written attempt: every write it makes is `""` to `player_message_<built-in function id>` or `score_message_<built-in function id>` |
| `Consolidation.ConsolidateIntended` | app/src/resolver/mutation.py:83-84 | the corrected attempt: every write it makes is `""` to the player's own `team_message_<id>` or `score_message_<id>` |
| `Consolidation.FragmentArrived` | app/src/resolver/mutation.py:54-67 | the fragment write comes first, then consolidation's effects; the fixed status is returned whatever consolidation returned, unless it raised |
| `Consolidation.PlayerCreated` | app/src/resolver/mutation.py:51-58 | writes the message under `team_message_<id>` first, then consolidates; an answer is `"team message received"` |
| `Consolidation.ScoreCreated` | app/src/resolver/mutation.py:60-67 | writes the message under `score_message_<id>` first, then consolidates; an answer is `"score message received"` |
| `Consolidation.FragmentKeysMissClearing` | app/src/resolver/mutation.py:71-84 | no team fragment key is a clearing key; a score fragment key is one iff the id is `<built-in function id>` |
| `Consolidation.FragmentsSurviveConsolidation` | app/src/resolver/mutation.py:83-84 | for any other id both fragments read back unchanged, so the next attempt repeats the same notification and result |
| `Consolidation.BuiltinIdLosesScore` | app/src/resolver/mutation.py:84 | for the id `<built-in function id>` the score fragment is cleared and the next attempt returns None |
| `Consolidation.RedeliveryNotifiesTwice` | app/src/resolver/mutation.py:60-84 | a score fragment delivered twice notifies the frontend twice with the same player, whatever the frontend answers each time: two notifications in total |
| `Consolidation.LatestTeamFragmentWins` | app/src/resolver/mutation.py:56 | a team fragment written over an earlier one behaves as if the earlier one had never been written |
| `Consolidation.LatestScoreFragmentWins` | app/src/resolver/mutation.py:65 | the same for the score fragment |
| `Consolidation.IntendedConsolidatesOnce` | app/src/resolver/mutation.py:83-84 | with the corrected clearing, both fragments read back as None and the next attempt sends nothing (attempts taken one after the other) |
| `Mutation.CheckAndConsolidate` | app/src/resolver/mutation.py:70-91 | result, journal and new store are those of `Consolidation.Consolidate` on the old store |
| `Mutation.PlayerCreated` | app/src/resolver/mutation.py:51-58 | result, journal and new store are those of `Consolidation.PlayerCreated` on the old store |
| `Mutation.ScoreCreated` | app/src/resolver/mutation.py:60-67 | result, journal and new store are those of `Consolidation.ScoreCreated` on the old store |
| `PlayerMutation.CheckAndConsolidate` | app/src/resolver/player_mutation.py:48-69 | the duplicate copy, proved against the same `Consolidation.Consolidate` |
| `PlayerMutation.PlayerCreated` | app/src/resolver/player_mutation.py:29-36 | the duplicate copy, proved against the same `Consolidation.PlayerCreated` |
| `PlayerMutation.ScoreCreated` | app/src/resolver/player_mutation.py:38-45 | the duplicate copy, proved against the same `Consolidation.ScoreCreated` |

## Left out

- Asyncio is not modelled: no `Condition` locking, no `notify_all`, no `wait_for` timing and no timeout value. A wait is its register step followed by one of the two finishing steps, called in whatever order the interleaving takes. Nothing forces a finish-woken step to follow a notify.
- HTTP is not modelled (`httpx`, the 5-second client timeout, logging). A peer's answer is an input value, and `send_request` is reduced to its result.
- The message consumer is not modelled: connection, retry loop, JSON decoding of the envelope. `HandleMessage` takes a decoded message. A message that lacks `event_type` or `data` (a `KeyError`) is not represented.
- `GatewayEvents.ProjectTeam`: accepts only a JSON integer `team_id` and a JSON string `team_name`. Pydantic's lax coercions, such as numeric strings or integral floats, are not modelled.
- Parsing of fragments (`json.loads` and the field lookups) is the `Codec` parameter. Its result is either the parsed fields or a raised error. Strawberry input types do no type checking. The model still gives the fields the types the schema declares.
- GraphQL replies carry already-parsed records. A requested field that is present but falsy (an empty object) is not represented. A field whose keys do not fit its record is not represented either: `Record(**data)` on a present field is assumed to succeed.
- `GatewayService.GetPlayersData`: the checks on lines 263-264 and 270-271 are not modelled separately. `get_players_name` and `get_players_rating` raise rather than return a falsy value, and they raise with the same messages, so the checks can never fire.
- GraphQL query strings, built by f-string interpolation, are not modelled.
- Float ratings are an opaque type parameter. They are never computed on.
- The other resolvers of `Mutation` and `PlayerMutation` (`create_team`, `team_created`, `create_player`) are not modelled as separate members. They only delegate to the `TeamService` functions that are modelled.
- Environment loading and the other settings in `config.py` are not modelled. `Config.Settings` holds only the fields the three URL properties read.
- Concurrency between gateway replicas and between Redis clients is not modelled. Each resolver call is one uninterrupted sequence of effects.

## Findings

| source | as written | input that shows it | evidently intended | confidence | as-written member | corrected member |
|---|---|---|---|---|---|---|
| app/src/resolver/mutation.py:83-84 | the clearing writes blank `player_message_{id}` and `score_message_{id}`, where `id` is Python's builtin function, so they target `player_message_<built-in function id>` and `score_message_<built-in function id>` | team and score fragments staged for player `"7"`, then the score fragment delivered a second time: the frontend is notified twice with the same player | blank `team_message_<player_id>` and `score_message_<player_id>`, so that one completed pair is notified once when attempts run one after the other; two attempts suspended at the `await` of line 82 would both still notify | not executed; high | `Consolidation.RedeliveryNotifiesTwice` | `Consolidation.IntendedConsolidatesOnce` |
| app/src/resolver/player_mutation.py:61-62 | the same two clearing writes, in the duplicate copy | the same input | the same | not executed; high | `Consolidation.FragmentsSurviveConsolidation` | `Consolidation.ConsolidateIntended` |

The resolvers (`Mutation.*`, `PlayerMutation.*`) model the code as written,
so their postconditions refer to `Consolidation.Consolidate`.
`Consolidation.ConsolidateIntended` shares its definition, through
`Consolidation.ConsolidateClearing`, with every clearing key replaced by the
player's own fragment keys.
