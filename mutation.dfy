/** The fragment resolvers of resolver/mutation.py and their module-level
    check_and_consolidate, proved against the shared Consolidation model. */
module Mutation {
  import opened Common
  import opened Peer
  import opened Cache
  import Consolidation
  import TeamService

  /** check_and_consolidate(player_id). */
  method CheckAndConsolidate(cache: RedisClient, journal: Consolidation.Journal, playerId: string,
                             codec: Consolidation.Codec, frontend: RestReply<PlayerCreatedRecord>)
    returns (result: Outcome<Option<PlayerCreatedRecord>>)
    modifies cache, journal
    ensures var a := Consolidation.Consolidate(old(cache.data), playerId, codec, frontend);
            && result == a.outcome
            && journal.events == old(journal.events) + a.effects
            && cache.data == Consolidation.Replay(old(cache.data), a.effects)
  {
    var teamMessage := cache.GetMessage(Consolidation.TeamKey(playerId));
    var scoreMessage := cache.GetMessage(Consolidation.ScoreKey(playerId));
    if teamMessage.Some? && scoreMessage.Some? {
      var playerData := codec.team(teamMessage.value);
      var scoreData := codec.score(scoreMessage.value);
      if playerData.None? || scoreData.None? {
        return Fail(DecodeError);
      }
      var playerCreated := PlayerCreatedRecord(playerData.value.playerTeamId, playerData.value.playerName,
                                               playerData.value.playerTeamName, scoreData.value.playerScore);
      Consolidation.AttemptEffects(cache.data, playerCreated, Consolidation.ClearedTeamKey, Consolidation.ClearedScoreKey);
      journal.events := journal.events + [Consolidation.Notified(playerCreated)];
      var sent := TeamService.PlayerCreatedViaRest(playerCreated, frontend);
      if sent.result.Fail? {
        return Fail(sent.result.failure);
      }
      Consolidation.SetAndRecord(cache, journal, Consolidation.PlayerMessagePrefix + Consolidation.BuiltinIdText, "");
      Consolidation.SetAndRecord(cache, journal, Consolidation.ScoreMessagePrefix + Consolidation.BuiltinIdText, "");
      return Ok(Some(PlayerCreatedRecord(playerData.value.playerTeamId, playerData.value.playerName,
                                         playerData.value.playerTeamName, scoreData.value.playerScore)));
    }
    return Ok(None);
  }

  /** Mutation.player_created: stage the team fragment, consolidate, and
      answer with the fixed status. */
  method PlayerCreated(cache: RedisClient, journal: Consolidation.Journal, input: Consolidation.MessageInput,
                       codec: Consolidation.Codec, frontend: RestReply<PlayerCreatedRecord>)
    returns (status: Outcome<string>)
    modifies cache, journal
    ensures var r := Consolidation.PlayerCreated(old(cache.data), input, codec, frontend);
            && status == r.outcome
            && journal.events == old(journal.events) + r.effects
            && cache.data == Consolidation.Replay(old(cache.data), r.effects)
  {
    var key := Consolidation.TeamKey(input.id);
    ghost var staged := cache.data[key := input.message];
    ghost var a := Consolidation.Consolidate(staged, input.id, codec, frontend);
    assert ([Consolidation.Wrote(key, input.message)] + a.effects)[1..] == a.effects;
    Consolidation.SetAndRecord(cache, journal, key, input.message);
    var consolidated := CheckAndConsolidate(cache, journal, input.id, codec, frontend);
    if consolidated.Fail? {
      return Fail(consolidated.failure);
    }
    return Ok(Consolidation.TeamStatus);
  }

  /** Mutation.score_created: stage the score fragment, consolidate, and
      answer with the fixed status. */
  method ScoreCreated(cache: RedisClient, journal: Consolidation.Journal, input: Consolidation.MessageInput,
                      codec: Consolidation.Codec, frontend: RestReply<PlayerCreatedRecord>)
    returns (status: Outcome<string>)
    modifies cache, journal
    ensures var r := Consolidation.ScoreCreated(old(cache.data), input, codec, frontend);
            && status == r.outcome
            && journal.events == old(journal.events) + r.effects
            && cache.data == Consolidation.Replay(old(cache.data), r.effects)
  {
    var key := Consolidation.ScoreKey(input.id);
    ghost var staged := cache.data[key := input.message];
    ghost var a := Consolidation.Consolidate(staged, input.id, codec, frontend);
    assert ([Consolidation.Wrote(key, input.message)] + a.effects)[1..] == a.effects;
    Consolidation.SetAndRecord(cache, journal, key, input.message);
    var consolidated := CheckAndConsolidate(cache, journal, input.id, codec, frontend);
    if consolidated.Fail? {
      return Fail(consolidated.failure);
    }
    return Ok(Consolidation.ScoreStatus);
  }
}
