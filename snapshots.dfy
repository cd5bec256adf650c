/** The parts of the live-client payloads that the monitor reads, and the
    outcomes of the three point-in-time queries it issues. Every other field
    of the decoded JSON (abilities, runes, champion stats, items, scores,
    event times, participant names) is never inspected and is left out. */
module Snapshots {

  /** The active player's identity and level (`ActivePlayerResponse`). */
  datatype ActivePlayer = ActivePlayer(level: int, summonerName: string)

  /** One entry of the player list (`PlayerStats`): who it is and whether
      that player is currently dead. */
  datatype PlayerStats = PlayerStats(summonerName: string, isDead: bool)

  /** One entry of the game-event log (`GameEvent`). */
  datatype GameEvent = GameEvent(eventId: int, eventName: string)

  /** Go's zero value `ActivePlayerResponse{}`: level 0, empty name. */
  const NO_ACTIVE_PLAYER := ActivePlayer(0, "")

  /** Go's zero value `PlayerStats{}`: empty name, not dead. */
  const NO_PLAYER_STATS := PlayerStats("", false)

  /** Outcome of the active-player and event-log queries: a decoded
      snapshot, or an error (transport failure or decode failure, which
      the pollers treat alike). */
  datatype Fetch<T> = Ok(value: T) | Err

  /** Outcome of the player-list query before the tracked player is
      picked out of it. */
  datatype ListFetch =
    | TransportFailed
    | DecodeFailed
    | Received(players: seq<PlayerStats>)

  /** The two errors `GetPlayerStats` can return. */
  datatype LookupError = DecodeError | NotFound

  datatype Option<T> = None | Some(value: T)

  datatype Result<T, E> = Success(value: T) | Failure(error: E)
}
