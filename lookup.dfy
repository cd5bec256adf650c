/** `GetPlayerStats`: pick the tracked player out of the player list by
    matching its summoner name against the cached identity. */
module PlayerLookup {
  import opened Snapshots

  /** The index of the first player called `name`, if any. */
  function FirstMatch(players: seq<PlayerStats>, name: string): (r: Option<nat>)
    ensures r.Some? ==> r.value < |players| && players[r.value].summonerName == name
    ensures r.Some? ==> forall j :: 0 <= j < r.value ==> players[j].summonerName != name
    ensures r.None? ==> forall j :: 0 <= j < |players| ==> players[j].summonerName != name
  {
    if |players| == 0 then None
    else if players[0].summonerName == name then Some(0)
    else match FirstMatch(players[1..], name)
      case None => None
      case Some(k) => Some(k + 1)
  }

  /** What `GetPlayerStats` returns for a given outcome of the player-list
      query, when the cached identity is called `name`. */
  function PlayerStatsOutcome(fetched: ListFetch, name: string): (r: Result<PlayerStats, LookupError>)
    // A transport failure is reported as a zero-valued, alive player with no error.
    ensures fetched.TransportFailed? ==> r == Success(NO_PLAYER_STATS)
    ensures fetched.DecodeFailed? ==> r == Failure(DecodeError)
    // From a decoded list: the first player with the cached name, else not found.
    ensures fetched.Received? && r.Success? ==>
      exists i :: 0 <= i < |fetched.players| && fetched.players[i] == r.value
        && r.value.summonerName == name
        && forall j :: 0 <= j < i ==> fetched.players[j].summonerName != name
    ensures fetched.Received? && r.Failure? ==>
      r.error == NotFound && forall j :: 0 <= j < |fetched.players| ==> fetched.players[j].summonerName != name
  {
    match fetched
    case TransportFailed => Success(NO_PLAYER_STATS)
    case DecodeFailed => Failure(DecodeError)
    case Received(players) =>
      match FirstMatch(players, name)
      case Some(i) => Success(players[i])
      case None => Failure(NotFound)
  }

  /** The search loop of `GetPlayerStats` over a decoded list, returning
      the first player called `name`. */
  method FindPlayer(players: seq<PlayerStats>, name: string) returns (r: Result<PlayerStats, LookupError>)
    ensures r == PlayerStatsOutcome(Received(players), name)
    ensures r.Success? <==> exists j :: 0 <= j < |players| && players[j].summonerName == name
  {
    var i := 0;
    while i < |players|
      invariant 0 <= i <= |players|
      invariant forall j :: 0 <= j < i ==> players[j].summonerName != name
    {
      if players[i].summonerName == name {
        return Success(players[i]);
      }
      i := i + 1;
    }
    return Failure(NotFound);
  }
}
