/** The two-fragment consolidator shared by the resolvers in
    resolver/mutation.py and resolver/player_mutation.py: a team fragment
    and a score fragment of one player are staged in the store under
    `team_message_<id>` and `score_message_<id>`; when both are there, the
    merged player is sent to the frontend and two clearing writes follow. */
module Consolidation {
  import opened Common
  import opened Peer
  import opened Cache
  import TeamService

  const TeamMessagePrefix: string := "team_message_"
  const ScoreMessagePrefix: string := "score_message_"
  const PlayerMessagePrefix: string := "player_message_"

  /** The text of f"{id}" when `id` is Python's builtin function, which is
      what the clearing writes interpolate. */
  const BuiltinIdText: string := "<built-in function id>"

  const TeamStatus: string := "team message received"
  const ScoreStatus: string := "score message received"

  function TeamKey(id: string): (key: string) { TeamMessagePrefix + id }
  function ScoreKey(id: string): (key: string) { ScoreMessagePrefix + id }

  /** The keys the clearing writes actually target. */
  const ClearedTeamKey: string := PlayerMessagePrefix + BuiltinIdText
  const ClearedScoreKey: string := ScoreMessagePrefix + BuiltinIdText

  /** MessageInput: a player id and the JSON text of one fragment. */
  datatype MessageInput = MessageInput(id: string, message: string)

  /** The fields read from the team fragment and from the score fragment. */
  datatype TeamFragment = TeamFragment(playerTeamId: int, playerName: string, playerTeamName: string)
  datatype ScoreFragment = ScoreFragment(playerScore: int)

  /** json.loads followed by the field lookups, for each fragment kind;
      None when decoding or a lookup raises. */
  datatype Codec = Codec(team: string -> Option<TeamFragment>, score: string -> Option<ScoreFragment>)

  /** An externally visible effect, in the order it happens: a store write,
      or the player handed to player_created_via_rest. */
  datatype Effect = Wrote(key: string, value: string) | Notified(player: PlayerCreatedRecord)

  /** A record of the effects so far; only the proofs read it. */
  class Journal {
    ghost var events: seq<Effect>

    constructor ()
      ensures events == []
    {
      events := [];
    }
  }

  /** set_message through `cache`, recorded in `journal`. */
  method SetAndRecord(cache: RedisClient, journal: Journal, key: string, value: string)
    modifies cache, journal
    ensures cache.data == old(cache.data)[key := value]
    ensures journal.events == old(journal.events) + [Wrote(key, value)]
  {
    cache.SetMessage(key, value);
    journal.events := journal.events + [Wrote(key, value)];
  }

  /** The store after the writes among `effects`, applied in order. */
  function Replay(data: map<string, string>, effects: seq<Effect>): (after: map<string, string>)
    decreases |effects|
  {
    if effects == [] then data
    else
      match effects[0]
      case Wrote(key, value) => Replay(data[key := value], effects[1..])
      case Notified(_) => Replay(data, effects[1..])
  }

  /** How many notifications `effects` holds. */
  function Notifications(effects: seq<Effect>): (n: nat)
    decreases |effects|
  {
    if effects == [] then 0
    else (if effects[0].Notified? then 1 else 0) + Notifications(effects[1..])
  }

  /** Notifications add up over consecutive runs of effects. */
  lemma {:induction false} NotificationsAppend(a: seq<Effect>, b: seq<Effect>)
    ensures Notifications(a + b) == Notifications(a) + Notifications(b)
    decreases |a|
  {
    if a != [] {
      assert (a + b)[1..] == a[1..] + b;
      NotificationsAppend(a[1..], b);
    } else {
      assert a + b == b;
    }
  }

  /** Writes to other keys leave a key as it was. */
  lemma {:induction false} ReplayUntouched(data: map<string, string>, effects: seq<Effect>, key: string)
    requires forall i :: 0 <= i < |effects| && effects[i].Wrote? ==> effects[i].key != key
    ensures key in Replay(data, effects) <==> key in data
    ensures key in data ==> Replay(data, effects)[key] == data[key]
    decreases |effects|
  {
    if effects != [] {
      assert forall i :: 1 <= i < |effects| ==> effects[1..][i - 1] == effects[i];
      match effects[0]
      case Wrote(k, v) => ReplayUntouched(data[k := v], effects[1..], key);
      case Notified(_) => ReplayUntouched(data, effects[1..], key);
    }
  }

  /** The effects of a finished attempt: one notification; the store sees
      only the writes. */
  lemma AttemptEffects(data: map<string, string>, p: PlayerCreatedRecord, clearTeam: string, clearScore: string)
    ensures Notifications([Notified(p)]) == 1
    ensures Replay(data, [Notified(p)]) == data
    ensures Notifications([Notified(p), Wrote(clearTeam, ""), Wrote(clearScore, "")]) == 1
    ensures Replay(data, [Notified(p), Wrote(clearTeam, ""), Wrote(clearScore, "")]) == data[clearTeam := ""][clearScore := ""]
  {
    var e := [Notified(p), Wrote(clearTeam, ""), Wrote(clearScore, "")];
    assert e[1..] == [Wrote(clearTeam, ""), Wrote(clearScore, "")];
    assert e[1..][1..] == [Wrote(clearScore, "")];
    assert e[1..][1..][1..] == [];
    assert [Notified(p)][1..] == [];
    assert Notifications(e[1..][1..]) == 0;
    assert Notifications(e[1..]) == 0;
    assert Replay(data, e) == Replay(data, e[1..]);
    assert Replay(data, e[1..]) == Replay(data[clearTeam := ""], e[1..][1..]);
    assert Replay(data[clearTeam := ""], e[1..][1..]) == Replay(data[clearTeam := ""][clearScore := ""], []);
  }

  /** Both fragments of the player read back as present. */
  predicate Complete(data: map<string, string>, id: string)
  {
    Lookup(data, TeamKey(id)).Some? && Lookup(data, ScoreKey(id)).Some?
  }

  function DecodedTeam(data: map<string, string>, id: string, codec: Codec): (r: Option<TeamFragment>)
    requires Complete(data, id)
  {
    codec.team(Lookup(data, TeamKey(id)).value)
  }

  function DecodedScore(data: map<string, string>, id: string, codec: Codec): (r: Option<ScoreFragment>)
    requires Complete(data, id)
  {
    codec.score(Lookup(data, ScoreKey(id)).value)
  }

  /** What one consolidation attempt returns, and its effects in order. */
  datatype Attempt = Attempt(outcome: Outcome<Option<PlayerCreatedRecord>>, effects: seq<Effect>)

  /** check_and_consolidate, with the two clearing writes aimed at
      `clearTeam` and `clearScore`. An absent or empty fragment gives None
      with no effect; an undecodable one raises with no effect. Otherwise
      the merged player is notified, and unless building the frontend's
      reply raises, the two clearing writes follow and the player is
      returned. */
  function ConsolidateClearing(data: map<string, string>, id: string, codec: Codec,
                               frontend: RestReply<PlayerCreatedRecord>,
                               clearTeam: string, clearScore: string): (a: Attempt)
    ensures !Complete(data, id) <==> a.outcome == Ok(None)
    ensures !Complete(data, id) ==> a.effects == []
    ensures Complete(data, id) && (DecodedTeam(data, id, codec).None? || DecodedScore(data, id, codec).None?) ==>
              a == Attempt(Fail(DecodeError), [])
    ensures Complete(data, id) && DecodedTeam(data, id, codec).Some? && DecodedScore(data, id, codec).Some? ==>
              var team := DecodedTeam(data, id, codec).value;
              var score := DecodedScore(data, id, codec).value;
              var p := PlayerCreatedRecord(team.playerTeamId, team.playerName, team.playerTeamName, score.playerScore);
              && |a.effects| >= 1 && a.effects[0] == Notified(p)
              && Notifications(a.effects) == 1
              && (frontend.Misfit? ==> a == Attempt(Fail(TypeError), [Notified(p)]))
              && (!frontend.Misfit? ==>
                    a == Attempt(Ok(Some(p)), [Notified(p), Wrote(clearTeam, ""), Wrote(clearScore, "")]))
  {
    var teamMessage := Lookup(data, TeamKey(id));
    var scoreMessage := Lookup(data, ScoreKey(id));
    if teamMessage.Some? && scoreMessage.Some? then
      match (codec.team(teamMessage.value), codec.score(scoreMessage.value))
      case (Some(team), Some(score)) =>
        var p := PlayerCreatedRecord(team.playerTeamId, team.playerName, team.playerTeamName, score.playerScore);
        var sent := TeamService.PlayerCreatedViaRest(p, frontend);
        AttemptEffects(data, p, clearTeam, clearScore);
        if sent.result.Fail? then Attempt(Fail(sent.result.failure), [Notified(p)])
        else Attempt(Ok(Some(p)), [Notified(p), Wrote(clearTeam, ""), Wrote(clearScore, "")])
      case _ => Attempt(Fail(DecodeError), [])
    else
      Attempt(Ok(None), [])
  }

  /** check_and_consolidate as written: the clearing writes interpolate the
      builtin `id`, under the prefixes `player_message_` and
      `score_message_`. */
  function Consolidate(data: map<string, string>, id: string, codec: Codec,
                       frontend: RestReply<PlayerCreatedRecord>): (a: Attempt)
    ensures a == ConsolidateClearing(data, id, codec, frontend, ClearedTeamKey, ClearedScoreKey)
    ensures forall i :: 0 <= i < |a.effects| && a.effects[i].Wrote? ==>
              a.effects[i].key in {ClearedTeamKey, ClearedScoreKey} && a.effects[i].value == ""
  {
    ConsolidateClearing(data, id, codec, frontend, ClearedTeamKey, ClearedScoreKey)
  }

  /** check_and_consolidate as evidently intended: the clearing writes blank
      the player's own two fragment keys. */
  function ConsolidateIntended(data: map<string, string>, id: string, codec: Codec,
                               frontend: RestReply<PlayerCreatedRecord>): (a: Attempt)
    ensures a == ConsolidateClearing(data, id, codec, frontend, TeamKey(id), ScoreKey(id))
    ensures forall i :: 0 <= i < |a.effects| && a.effects[i].Wrote? ==>
              a.effects[i].key in {TeamKey(id), ScoreKey(id)} && a.effects[i].value == ""
  {
    ConsolidateClearing(data, id, codec, frontend, TeamKey(id), ScoreKey(id))
  }

  /** What a resolver returns, and its effects in order. */
  datatype Resolved = Resolved(outcome: Outcome<string>, effects: seq<Effect>)

  /** A fragment arrives: store it under `key`, run consolidation, and return
      `status` whatever consolidation returned, unless it raised. */
  function FragmentArrived(data: map<string, string>, key: string, input: MessageInput, status: string,
                           codec: Codec, frontend: RestReply<PlayerCreatedRecord>): (r: Resolved)
    ensures var a := Consolidate(data[key := input.message], input.id, codec, frontend);
            && r.effects == [Wrote(key, input.message)] + a.effects
            && (r.outcome.Ok? <==> a.outcome.Ok?)
            && (r.outcome.Ok? ==> r.outcome.value == status)
            && (a.outcome.Fail? ==> r.outcome == Fail(a.outcome.failure))
  {
    var a := Consolidate(data[key := input.message], input.id, codec, frontend);
    Resolved(if a.outcome.Fail? then Fail(a.outcome.failure) else Ok(status),
             [Wrote(key, input.message)] + a.effects)
  }

  /** Mutation.player_created / PlayerMutation.player_created. */
  function PlayerCreated(data: map<string, string>, input: MessageInput, codec: Codec,
                         frontend: RestReply<PlayerCreatedRecord>): (r: Resolved)
    ensures |r.effects| >= 1 && r.effects[0] == Wrote(TeamKey(input.id), input.message)
    ensures r.outcome.Ok? ==> r.outcome.value == TeamStatus
    ensures r.effects[1..] == Consolidate(data[TeamKey(input.id) := input.message], input.id, codec, frontend).effects
  {
    FragmentArrived(data, TeamKey(input.id), input, TeamStatus, codec, frontend)
  }

  /** Mutation.score_created / PlayerMutation.score_created. */
  function ScoreCreated(data: map<string, string>, input: MessageInput, codec: Codec,
                        frontend: RestReply<PlayerCreatedRecord>): (r: Resolved)
    ensures |r.effects| >= 1 && r.effects[0] == Wrote(ScoreKey(input.id), input.message)
    ensures r.outcome.Ok? ==> r.outcome.value == ScoreStatus
    ensures r.effects[1..] == Consolidate(data[ScoreKey(input.id) := input.message], input.id, codec, frontend).effects
  {
    FragmentArrived(data, ScoreKey(input.id), input, ScoreStatus, codec, frontend)
  }

  /** `prefix + a == prefix + b` only when a == b. */
  lemma PrefixCancels(prefix: string, a: string, b: string)
    requires prefix + a == prefix + b
    ensures a == b
  {
    assert a == (prefix + a)[|prefix|..];
    assert b == (prefix + b)[|prefix|..];
  }

  /** No player's team fragment key is a clearing key, and a player's score
      fragment key is one only for the id spelled like the builtin. */
  lemma FragmentKeysMissClearing(id: string)
    ensures TeamKey(id) != ClearedTeamKey && TeamKey(id) != ClearedScoreKey
    ensures ScoreKey(id) != ClearedTeamKey
    ensures ScoreKey(id) == ClearedScoreKey <==> id == BuiltinIdText
  {
    assert TeamKey(id)[0] == 't' && ClearedTeamKey[0] == 'p' && ClearedScoreKey[0] == 's';
    assert ScoreKey(id)[0] == 's';
    if ScoreKey(id) == ClearedScoreKey {
      PrefixCancels(ScoreMessagePrefix, id, BuiltinIdText);
    }
  }

  /** The clearing writes miss the fragments: for every player id other than
      the builtin's text, both fragments read back as before consolidation,
      so consolidating again repeats the same attempt, notification
      included. */
  lemma FragmentsSurviveConsolidation(data: map<string, string>, id: string, codec: Codec,
                                      frontend: RestReply<PlayerCreatedRecord>)
    requires id != BuiltinIdText
    ensures var a := Consolidate(data, id, codec, frontend);
            var after := Replay(data, a.effects);
            && Lookup(after, TeamKey(id)) == Lookup(data, TeamKey(id))
            && Lookup(after, ScoreKey(id)) == Lookup(data, ScoreKey(id))
            && Consolidate(after, id, codec, frontend) == a
  {
    var a := Consolidate(data, id, codec, frontend);
    FragmentKeysMissClearing(id);
    ReplayUntouched(data, a.effects, TeamKey(id));
    ReplayUntouched(data, a.effects, ScoreKey(id));
  }

  /** The one id whose score fragment the clearing does reach: after a
      successful consolidation its score reads back as absent, so the next
      attempt finds the pair incomplete. */
  lemma BuiltinIdLosesScore(data: map<string, string>, codec: Codec, frontend: RestReply<PlayerCreatedRecord>)
    requires Consolidate(data, BuiltinIdText, codec, frontend).outcome.Ok?
    requires Consolidate(data, BuiltinIdText, codec, frontend).outcome.value.Some?
    ensures var after := Replay(data, Consolidate(data, BuiltinIdText, codec, frontend).effects);
            && Lookup(after, ScoreKey(BuiltinIdText)) == None
            && Consolidate(after, BuiltinIdText, codec, frontend) == Attempt(Ok(None), [])
  {
    var a := Consolidate(data, BuiltinIdText, codec, frontend);
    AttemptEffects(data, a.outcome.value.value, ClearedTeamKey, ClearedScoreKey);
    FragmentKeysMissClearing(BuiltinIdText);
  }

  /** A score fragment delivered twice (the bus delivers at least once)
      after the team fragment is present notifies the frontend twice with
      the same player, whatever the frontend answers each time. */
  lemma RedeliveryNotifiesTwice(data: map<string, string>, input: MessageInput, codec: Codec,
                                firstReply: RestReply<PlayerCreatedRecord>,
                                secondReply: RestReply<PlayerCreatedRecord>)
    requires input.id != BuiltinIdText
    requires Complete(data[ScoreKey(input.id) := input.message], input.id)
    requires DecodedTeam(data[ScoreKey(input.id) := input.message], input.id, codec).Some?
    requires DecodedScore(data[ScoreKey(input.id) := input.message], input.id, codec).Some?
    ensures var first := ScoreCreated(data, input, codec, firstReply);
            var second := ScoreCreated(Replay(data, first.effects), input, codec, secondReply);
            && |first.effects| >= 2 && |second.effects| >= 2
            && first.effects[1].Notified?
            && second.effects[1] == first.effects[1]
            && Notifications(first.effects) == 1 && Notifications(second.effects) == 1
            && Notifications(first.effects + second.effects) == 2
  {
    var first := ScoreCreated(data, input, codec, firstReply);
    var staged := data[ScoreKey(input.id) := input.message];
    var a := Consolidate(staged, input.id, codec, firstReply);
    assert Replay(data, first.effects) == Replay(staged, a.effects);
    FragmentsSurviveConsolidation(staged, input.id, codec, firstReply);
    var after := Replay(staged, a.effects);
    assert after[ScoreKey(input.id) := input.message] == after by {
      FragmentKeysMissClearing(input.id);
      ReplayUntouched(staged, a.effects, ScoreKey(input.id));
    }
    var b := Consolidate(after, input.id, codec, secondReply);
    assert b.effects[0] == Consolidate(after, input.id, codec, firstReply).effects[0];
    NotificationsAppend(first.effects, ScoreCreated(after, input, codec, secondReply).effects);
  }

  /** Writing a fragment kind twice: only the later value is consolidated,
      exactly as if the earlier write had never happened. */
  lemma LatestTeamFragmentWins(data: map<string, string>, id: string, earlier: string, later: string,
                               codec: Codec, frontend: RestReply<PlayerCreatedRecord>)
    ensures var input := MessageInput(id, later);
            var withEarlier := data[TeamKey(id) := earlier];
            && PlayerCreated(withEarlier, input, codec, frontend) == PlayerCreated(data, input, codec, frontend)
            && Replay(withEarlier, PlayerCreated(withEarlier, input, codec, frontend).effects)
               == Replay(data, PlayerCreated(data, input, codec, frontend).effects)
  {
    var input := MessageInput(id, later);
    assert data[TeamKey(id) := earlier][TeamKey(id) := later] == data[TeamKey(id) := later];
  }

  /** The same for the score fragment. */
  lemma LatestScoreFragmentWins(data: map<string, string>, id: string, earlier: string, later: string,
                                codec: Codec, frontend: RestReply<PlayerCreatedRecord>)
    ensures var input := MessageInput(id, later);
            var withEarlier := data[ScoreKey(id) := earlier];
            && ScoreCreated(withEarlier, input, codec, frontend) == ScoreCreated(data, input, codec, frontend)
            && Replay(withEarlier, ScoreCreated(withEarlier, input, codec, frontend).effects)
               == Replay(data, ScoreCreated(data, input, codec, frontend).effects)
  {
    var input := MessageInput(id, later);
    assert data[ScoreKey(id) := earlier][ScoreKey(id) := later] == data[ScoreKey(id) := later];
  }

  /** With the intended clearing, a successful consolidation blanks both
      fragments, so the next attempt for the player is incomplete and sends
      nothing: one notification per completed pair, as long as attempts do
      not interleave (two attempts suspended at the POST both notify). */
  lemma IntendedConsolidatesOnce(data: map<string, string>, id: string, codec: Codec,
                                 frontend: RestReply<PlayerCreatedRecord>)
    requires ConsolidateIntended(data, id, codec, frontend).outcome.Ok?
    requires ConsolidateIntended(data, id, codec, frontend).outcome.value.Some?
    ensures var after := Replay(data, ConsolidateIntended(data, id, codec, frontend).effects);
            && Lookup(after, TeamKey(id)) == None
            && Lookup(after, ScoreKey(id)) == None
            && ConsolidateIntended(after, id, codec, frontend) == Attempt(Ok(None), [])
  {
    var a := ConsolidateIntended(data, id, codec, frontend);
    AttemptEffects(data, a.outcome.value.value, TeamKey(id), ScoreKey(id));
    assert TeamKey(id)[0] == 't' && ScoreKey(id)[0] == 's';
  }
}
