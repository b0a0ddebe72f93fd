/** GatewayService: the synchronous calls to the team and rating services
    and the join of their answers into one team description. */
module GatewayService {
  import opened Common
  import opened Peer

  const RatingServiceSilent: string := "No response received from the rating service"

  /** The get_players answer of the team service. */
  datatype TeamPlayers = TeamPlayers(teamId: int, teamName: string, players: seq<PlayerRecord>)

  /** One entry of the rating service's answer; R stands for the float. */
  datatype PlayerRating<R> = PlayerRating(playerId: int, rating: R)

  /** The get_players_rating answer of the rating service. */
  datatype TeamRatings<R> = TeamRatings(teamId: int, players: seq<PlayerRating<R>>)

  /** PlayerDetails and TeamDetails, what get_players_data returns. */
  datatype PlayerDetails<R> = PlayerDetails(playerName: string, averageRating: R)
  datatype TeamDetails<R> = TeamDetails(teamId: int, teamName: string, players: seq<PlayerDetails<R>>)

  /** create_team, from the team service's reply on. */
  function CreateTeam(reply: GraphqlReply<TeamRecord>): (r: Outcome<TeamRecord>)
    ensures reply.NoReply? ==> r == Fail(Raised(TeamError, TeamServiceSilent))
    ensures reply.ErrorsOnly? ==> r == Fail(LookupError)
    ensures reply.Unreadable? ==> r == Fail(TypeError)
    ensures reply.Reply? && reply.data.None? && reply.errors == [] ==> r == Fail(LookupError)
    ensures r.Ok? <==> reply.Reply? && reply.data.Some?
    ensures r.Ok? ==> r.value == reply.data.value
    ensures reply.Reply? && reply.data.None? && reply.errors != [] ==>
              r == Fail(Raised(TeamError, reply.errors[0]))
  {
    Interpret(reply, TeamError, TeamServiceSilent)
  }

  /** create_player, from the team service's reply on. */
  function CreatePlayer(reply: GraphqlReply<PlayerRecord>): (r: Outcome<PlayerRecord>)
    ensures reply.NoReply? ==> r == Fail(Raised(PlayerError, TeamServiceSilent))
    ensures reply.ErrorsOnly? ==> r == Fail(LookupError)
    ensures reply.Unreadable? ==> r == Fail(TypeError)
    ensures reply.Reply? && reply.data.None? && reply.errors == [] ==> r == Fail(LookupError)
    ensures r.Ok? <==> reply.Reply? && reply.data.Some?
    ensures r.Ok? ==> r.value == reply.data.value
    ensures reply.Reply? && reply.data.None? && reply.errors != [] ==>
              r == Fail(Raised(PlayerError, reply.errors[0]))
  {
    Interpret(reply, PlayerError, TeamServiceSilent)
  }

  /** join_team, from the team service's reply on. */
  function JoinTeam(reply: GraphqlReply<TeamRecord>): (r: Outcome<TeamRecord>)
    ensures reply.NoReply? ==> r == Fail(Raised(TeamError, TeamServiceSilent))
    ensures reply.ErrorsOnly? ==> r == Fail(LookupError)
    ensures reply.Unreadable? ==> r == Fail(TypeError)
    ensures reply.Reply? && reply.data.None? && reply.errors == [] ==> r == Fail(LookupError)
    ensures r.Ok? <==> reply.Reply? && reply.data.Some?
    ensures r.Ok? ==> r.value == reply.data.value
    ensures reply.Reply? && reply.data.None? && reply.errors != [] ==>
              r == Fail(Raised(TeamError, reply.errors[0]))
  {
    Interpret(reply, TeamError, TeamServiceSilent)
  }

  /** get_players_name, from the team service's reply on. */
  function GetPlayersName(reply: GraphqlReply<TeamPlayers>): (r: Outcome<TeamPlayers>)
    ensures reply.NoReply? ==> r == Fail(Raised(TeamError, TeamServiceSilent))
    ensures reply.ErrorsOnly? ==> r == Fail(LookupError)
    ensures reply.Unreadable? ==> r == Fail(TypeError)
    ensures reply.Reply? && reply.data.None? && reply.errors == [] ==> r == Fail(LookupError)
    ensures r.Ok? <==> reply.Reply? && reply.data.Some?
    ensures r.Ok? ==> r.value == reply.data.value
    ensures reply.Reply? && reply.data.None? && reply.errors != [] ==>
              r == Fail(Raised(TeamError, reply.errors[0]))
  {
    Interpret(reply, TeamError, TeamServiceSilent)
  }

  /** get_players_rating, from the rating service's reply on. */
  function GetPlayersRating<R>(reply: GraphqlReply<TeamRatings<R>>): (r: Outcome<TeamRatings<R>>)
    ensures reply.NoReply? ==> r == Fail(Raised(TeamError, RatingServiceSilent))
    ensures reply.ErrorsOnly? ==> r == Fail(LookupError)
    ensures reply.Unreadable? ==> r == Fail(TypeError)
    ensures reply.Reply? && reply.data.None? && reply.errors == [] ==> r == Fail(LookupError)
    ensures r.Ok? <==> reply.Reply? && reply.data.Some?
    ensures r.Ok? ==> r.value == reply.data.value
    ensures reply.Reply? && reply.data.None? && reply.errors != [] ==>
              r == Fail(Raised(TeamError, reply.errors[0]))
  {
    Interpret(reply, TeamError, RatingServiceSilent)
  }

  /** Entry i is the last entry of `entries` for its player. */
  ghost predicate IsLastFor<R>(entries: seq<PlayerRating<R>>, i: int)
    requires 0 <= i < |entries|
  {
    forall j :: i < j < |entries| ==> entries[j].playerId != entries[i].playerId
  }

  /** The dict comprehension {player_id: player_average_rating}: one key per
      player id that has an entry, and no other key. Which entry's rating is
      kept is stated by LastEntryWins and RatingIsLastEntry. */
  function RatingsByPlayer<R>(entries: seq<PlayerRating<R>>): (m: map<int, R>)
    ensures forall i :: 0 <= i < |entries| ==> entries[i].playerId in m
    ensures forall id :: id in m ==> exists j :: 0 <= j < |entries| && entries[j].playerId == id
  {
    if entries == [] then map[]
    else
      var n := |entries| - 1;
      assert forall i :: 0 <= i < n ==> entries[..n][i] == entries[i];
      RatingsByPlayer(entries[..n])[entries[n].playerId := entries[n].rating]
  }

  /** The rating kept for a player is that of its last entry. */
  lemma {:induction false} LastEntryWins<R>(entries: seq<PlayerRating<R>>, i: int)
    requires 0 <= i < |entries| && IsLastFor(entries, i)
    ensures RatingsByPlayer(entries)[entries[i].playerId] == entries[i].rating
  {
    var n := |entries| - 1;
    if i < n {
      var prefix := entries[..n];
      assert prefix[i] == entries[i];
      assert IsLastFor(prefix, i) by {
        forall j | i < j < |prefix| ensures prefix[j].playerId != prefix[i].playerId {
          assert prefix[j] == entries[j];
        }
      }
      LastEntryWins(prefix, i);
    }
  }

  /** Every rating kept comes from the last entry for its player. */
  lemma {:induction false} RatingIsLastEntry<R>(entries: seq<PlayerRating<R>>, id: int)
    requires id in RatingsByPlayer(entries)
    ensures exists j :: 0 <= j < |entries| && entries[j].playerId == id
                        && IsLastFor(entries, j) && RatingsByPlayer(entries)[id] == entries[j].rating
  {
    var n := |entries| - 1;
    if entries[n].playerId == id {
      assert IsLastFor(entries, n);
    } else {
      var prefix := entries[..n];
      RatingIsLastEntry(prefix, id);
      var j :| 0 <= j < |prefix| && prefix[j].playerId == id
               && IsLastFor(prefix, j) && RatingsByPlayer(prefix)[id] == prefix[j].rating;
      assert prefix[j] == entries[j];
      assert IsLastFor(entries, j) by {
        forall k | j < k < |entries| ensures entries[k].playerId != entries[j].playerId {
          if k < n { assert prefix[k] == entries[k]; }
        }
      }
    }
  }

  /** The PlayerDetails list: one entry per named player, in order, with the
      rating found for its id; a player without a rating makes pydantic
      refuse the list (None where a float is required), so the join fails. */
  function JoinPlayers<R>(players: seq<PlayerRecord>, ratings: map<int, R>): (r: Option<seq<PlayerDetails<R>>>)
    ensures r.Some? <==> forall i :: 0 <= i < |players| ==> players[i].playerId in ratings
    ensures r.Some? ==> |r.value| == |players|
    ensures r.Some? ==> forall i :: 0 <= i < |players| ==>
              r.value[i] == PlayerDetails(players[i].playerName, ratings[players[i].playerId])
  {
    if players == [] then Some([])
    else
      var rest := JoinPlayers(players[1..], ratings);
      assert forall i :: 1 <= i < |players| ==> players[1..][i - 1] == players[i];
      if players[0].playerId in ratings && rest.Some? then
        Some([PlayerDetails(players[0].playerName, ratings[players[0].playerId])] + rest.value)
      else
        None
  }

  /** get_players_data: ask the team service for the team's players, then the
      rating service for the ratings of team `teamId` (the reply the rating
      service gives for a team id is `ratingReplyFor`), and join the two. */
  function GetPlayersData<R>(nameReply: GraphqlReply<TeamPlayers>,
                             ratingReplyFor: int -> GraphqlReply<TeamRatings<R>>): (r: Outcome<TeamDetails<R>>)
    ensures GetPlayersName(nameReply).Fail? ==> r == Fail(GetPlayersName(nameReply).failure)
    ensures nameReply.NoReply? ==> r == Fail(Raised(TeamError, TeamServiceSilent))
    ensures r.Ok? ==> nameReply.Reply? && nameReply.data.Some?
    ensures GetPlayersName(nameReply).Ok? ==>
              var ratingReply := ratingReplyFor(GetPlayersName(nameReply).value.teamId);
              && (GetPlayersRating(ratingReply).Fail? ==> r == Fail(GetPlayersRating(ratingReply).failure))
              && (r.Ok? ==> ratingReply.Reply? && ratingReply.data.Some?)
  {
    match GetPlayersName(nameReply)
    case Fail(f) => Fail(f)
    case Ok(names) =>
      match GetPlayersRating(ratingReplyFor(names.teamId))
      case Fail(f) => Fail(f)
      case Ok(ratings) =>
        match JoinPlayers(names.players, RatingsByPlayer(ratings.players))
        case None => Fail(ValidationError)
        case Some(details) => Ok(TeamDetails(names.teamId, names.teamName, details))
  }

  /** When the team service answers, the rating service is asked about the
      team the team service named, and every failure of that call is the
      result: an empty reply raises TeamError with the rating service's
      message, a null field with errors raises TeamError with the first one. */
  lemma GetPlayersDataRatingFailure<R>(nameReply: GraphqlReply<TeamPlayers>,
                                       ratingReplyFor: int -> GraphqlReply<TeamRatings<R>>)
    requires nameReply.Reply? && nameReply.data.Some?
    requires GetPlayersRating(ratingReplyFor(nameReply.data.value.teamId)).Fail?
    ensures var ratingReply := ratingReplyFor(nameReply.data.value.teamId);
            && GetPlayersData(nameReply, ratingReplyFor) == Fail(GetPlayersRating(ratingReply).failure)
            && (ratingReply.NoReply? ==>
                  GetPlayersData(nameReply, ratingReplyFor) == Fail(Raised(TeamError, RatingServiceSilent)))
            && (ratingReply.Reply? && ratingReply.errors != [] ==>
                  GetPlayersData(nameReply, ratingReplyFor) == Fail(Raised(TeamError, ratingReply.errors[0])))
  {
  }

  /** When both services answer, the result has the team's id and name from
      the team service and one entry per named player, in order, each with
      that player's last rating; it fails exactly when some player has no
      rating. */
  lemma {:induction false} GetPlayersDataJoin<R>(nameReply: GraphqlReply<TeamPlayers>,
                                                 ratingReplyFor: int -> GraphqlReply<TeamRatings<R>>)
    requires nameReply.Reply? && nameReply.data.Some?
    requires ratingReplyFor(nameReply.data.value.teamId).Reply?
    requires ratingReplyFor(nameReply.data.value.teamId).data.Some?
    ensures var names := nameReply.data.value;
            var entries := ratingReplyFor(names.teamId).data.value.players;
            var r := GetPlayersData(nameReply, ratingReplyFor);
            && (r.Ok? <==> forall i :: 0 <= i < |names.players| ==>
                              exists j :: 0 <= j < |entries| && entries[j].playerId == names.players[i].playerId)
            && (r.Fail? ==> r.failure == ValidationError)
            && (r.Ok? ==>
                  && r.value.teamId == names.teamId
                  && r.value.teamName == names.teamName
                  && |r.value.players| == |names.players|
                  && forall i :: 0 <= i < |names.players| ==>
                       && r.value.players[i].playerName == names.players[i].playerName
                       && exists j :: 0 <= j < |entries| && entries[j].playerId == names.players[i].playerId
                                      && IsLastFor(entries, j)
                                      && r.value.players[i].averageRating == entries[j].rating)
  {
    var names := nameReply.data.value;
    var entries := ratingReplyFor(names.teamId).data.value.players;
    var m := RatingsByPlayer(entries);
    var r := GetPlayersData(nameReply, ratingReplyFor);
    assert r == match JoinPlayers(names.players, m)
                case None => Fail(ValidationError)
                case Some(details) => Ok(TeamDetails(names.teamId, names.teamName, details));
    forall i | 0 <= i < |names.players|
      ensures names.players[i].playerId in m <==>
                exists j :: 0 <= j < |entries| && entries[j].playerId == names.players[i].playerId
    {
    }
    if r.Ok? {
      forall i | 0 <= i < |names.players|
        ensures exists j :: 0 <= j < |entries| && entries[j].playerId == names.players[i].playerId
                            && IsLastFor(entries, j)
                            && r.value.players[i].averageRating == entries[j].rating
      {
        var id := names.players[i].playerId;
        assert r.value.players[i] == PlayerDetails(names.players[i].playerName, m[id]);
        RatingIsLastEntry(entries, id);
        var j :| 0 <= j < |entries| && entries[j].playerId == id && IsLastFor(entries, j) && m[id] == entries[j].rating;
      }
    }
  }
}
