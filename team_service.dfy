/** TeamService: the calls the resolvers make to the team service (GraphQL)
    and to the frontend (REST). */
module TeamService {
  import opened Common
  import opened Peer


  /** create_team_via_graphql, from the team service's reply on. */
  function CreateTeamViaGraphql(reply: GraphqlReply<TeamRecord>): (r: Outcome<TeamRecord>)
    ensures reply.NoReply? ==> r == Fail(Raised(TeamCreationError, TeamServiceSilent))
    ensures reply.ErrorsOnly? ==> r == Fail(LookupError)
    ensures reply.Unreadable? ==> r == Fail(TypeError)
    ensures reply.Reply? && reply.data.None? && reply.errors == [] ==> r == Fail(LookupError)
    ensures r.Ok? <==> reply.Reply? && reply.data.Some?
    ensures r.Ok? ==> r.value == reply.data.value
    ensures reply.Reply? && reply.data.None? && reply.errors != [] ==>
              r == Fail(Raised(TeamCreationError, reply.errors[0]))
    ensures r.Fail? && r.failure.Raised? ==> r.failure.errorClass == TeamCreationError
  {
    Interpret(reply, TeamCreationError, TeamServiceSilent)
  }

  /** create_player_via_graphql, from the team service's reply on. */
  function CreatePlayerViaGraphql(reply: GraphqlReply<PlayerRecord>): (r: Outcome<PlayerRecord>)
    ensures reply.NoReply? ==> r == Fail(Raised(PlayerCreationError, TeamServiceSilent))
    ensures reply.ErrorsOnly? ==> r == Fail(LookupError)
    ensures reply.Unreadable? ==> r == Fail(TypeError)
    ensures reply.Reply? && reply.data.None? && reply.errors == [] ==> r == Fail(LookupError)
    ensures r.Ok? <==> reply.Reply? && reply.data.Some?
    ensures r.Ok? ==> r.value == reply.data.value
    ensures reply.Reply? && reply.data.None? && reply.errors != [] ==>
              r == Fail(Raised(PlayerCreationError, reply.errors[0]))
    ensures r.Fail? && r.failure.Raised? ==> r.failure.errorClass == PlayerCreationError
  {
    Interpret(reply, PlayerCreationError, TeamServiceSilent)
  }

  /** The JSON object POSTed to the frontend by team_created_via_rest. */
  function TeamCreatedPayload(team: TeamRecord): (p: Dict)
    ensures p.Keys == {"teamId", "teamName"}
    ensures ReadTeamCreated(p) == Some(team)
  {
    map["teamId" := Int(team.teamId), "teamName" := Str(team.teamName)]
  }

  /** How a receiver reads a team-created payload back: the inverse of
      TeamCreatedPayload. */
  function ReadTeamCreated(p: Dict): (team: Option<TeamRecord>)
  {
    if "teamId" in p && p["teamId"].Int? && "teamName" in p && p["teamName"].Str?
    then Some(TeamRecord(p["teamId"].i, p["teamName"].s))
    else None
  }

  /** The JSON object POSTed to the frontend by player_created_via_rest. */
  function PlayerCreatedPayload(player: PlayerCreatedRecord): (p: Dict)
    ensures p.Keys == {"teamId", "playerTeamName", "playerName", "playerScore"}
    ensures ReadPlayerCreated(p) == Some(player)
  {
    map["teamId" := Int(player.playerTeamId),
        "playerTeamName" := Str(player.playerTeamName),
        "playerName" := Str(player.playerName),
        "playerScore" := Int(player.playerScore)]
  }

  /** How a receiver reads a player-created payload back: the inverse of
      PlayerCreatedPayload. */
  function ReadPlayerCreated(p: Dict): (player: Option<PlayerCreatedRecord>)
  {
    if && "teamId" in p && p["teamId"].Int?
       && "playerTeamName" in p && p["playerTeamName"].Str?
       && "playerName" in p && p["playerName"].Str?
       && "playerScore" in p && p["playerScore"].Int?
    then Some(PlayerCreatedRecord(p["teamId"].i, p["playerName"].s, p["playerTeamName"].s, p["playerScore"].i))
    else None
  }

  /** A REST notification: the object sent, and what the call returns. */
  datatype RestCall<T> = RestCall(payload: Dict, result: Outcome<Option<T>>)

  /** What `Record(**response) if response else None` makes of a reply. */
  function BuildFromReply<T>(reply: RestReply<T>): (r: Outcome<Option<T>>)
    ensures r == Ok(None) <==> reply.EmptyBody?
    ensures r.Ok? && r.value.Some? <==> reply.Fits?
    ensures reply.Fits? ==> r == Ok(Some(reply.record))
    ensures r.Fail? <==> reply.Misfit?
    ensures r.Fail? ==> r.failure == TypeError
  {
    match reply
    case EmptyBody => Ok(None)
    case Fits(record) => Ok(Some(record))
    case Misfit => Fail(TypeError)
  }

  /** team_created_via_rest: sends the team's two fields, returns None on
      an empty reply and otherwise the record built from the reply. */
  function TeamCreatedViaRest(team: TeamRecord, reply: RestReply<TeamRecord>): (c: RestCall<TeamRecord>)
    ensures c.payload.Keys == {"teamId", "teamName"}
    ensures c.payload["teamId"] == Int(team.teamId) && c.payload["teamName"] == Str(team.teamName)
    ensures c.result == Ok(None) <==> reply.EmptyBody?
    ensures reply.Fits? ==> c.result == Ok(Some(reply.record))
    ensures reply.Misfit? ==> c.result == Fail(TypeError)
  {
    RestCall(TeamCreatedPayload(team), BuildFromReply(reply))
  }

  /** player_created_via_rest: sends the player's four fields under the
      frontend's names, returns None on an empty reply and otherwise the
      record built from the reply. */
  function PlayerCreatedViaRest(player: PlayerCreatedRecord, reply: RestReply<PlayerCreatedRecord>): (c: RestCall<PlayerCreatedRecord>)
    ensures c.payload.Keys == {"teamId", "playerTeamName", "playerName", "playerScore"}
    ensures c.payload["teamId"] == Int(player.playerTeamId)
    ensures c.payload["playerTeamName"] == Str(player.playerTeamName)
    ensures c.payload["playerName"] == Str(player.playerName)
    ensures c.payload["playerScore"] == Int(player.playerScore)
    ensures c.result == Ok(None) <==> reply.EmptyBody?
    ensures reply.Fits? ==> c.result == Ok(Some(reply.record))
    ensures reply.Misfit? ==> c.result == Fail(TypeError)
  {
    RestCall(PlayerCreatedPayload(player), BuildFromReply(reply))
  }

  /** Two different players never produce the same payload. */
  lemma PlayerPayloadInjective(a: PlayerCreatedRecord, b: PlayerCreatedRecord)
    requires PlayerCreatedPayload(a) == PlayerCreatedPayload(b)
    ensures a == b
  {
    assert ReadPlayerCreated(PlayerCreatedPayload(a)) == Some(a);
  }

  /** A failed POST to the frontend makes both REST calls return None. */
  lemma FailedNotificationReturnsNone(team: TeamRecord, player: PlayerCreatedRecord,
                                      t: Transport<RestReply<TeamRecord>>,
                                      u: Transport<RestReply<PlayerCreatedRecord>>)
    requires !t.Delivered? && !u.Delivered?
    ensures TeamCreatedViaRest(team, SendRequest(t, EmptyBody)).result == Ok(None)
    ensures PlayerCreatedViaRest(player, SendRequest(u, EmptyBody)).result == Ok(None)
  {
  }
}
