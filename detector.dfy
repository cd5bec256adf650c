/** One cycle of each of the three pollers in `Listen`, as pure functions
    from the cached snapshot and the fetch outcome to the new cached
    snapshot and the handler calls made in that cycle. */
module Detector {
  import opened Snapshots

  /** A handler field of the client: Go's nil func, or a registered
      callback told apart from others by an identifier. */
  datatype Handler = Nil | Callback(id: nat)

  /** One handler call. `LevelChanged` carries its two levels in the order
      the call site passes them: the fetched level first, then the cached
      one. */
  datatype Notification =
    | LevelChanged(handler: Handler, newLevel: int, oldLevel: int, data: ActivePlayer)
    | Died(handler: Handler, stats: PlayerStats)
    | Revived(handler: Handler, stats: PlayerStats)
    | EventHandled(event: GameEvent)

  /** The cache after one cycle and the calls made during it. */
  datatype Step<S> = Step(next: S, sent: seq<Notification>)

  /** Active-player cycle: skip on error; otherwise call the level handler
      when the level went up, and replace the cache in every case. */
  function IdentityStep(cached: ActivePlayer, fetched: Fetch<ActivePlayer>, onLevelChange: Handler): Step<ActivePlayer>
  {
    match fetched
    case Err => Step(cached, [])
    case Ok(player) =>
      Step(player, if player.level > cached.level then [LevelChanged(onLevelChange, player.level, cached.level, player)] else [])
  }

  /** Player-stats cycle on the result of `GetPlayerStats`: skip on error;
      otherwise call the death or alive handler when `isDead` flipped, and
      replace the cache in every case. */
  function CombatStep(cached: PlayerStats, fetched: Result<PlayerStats, LookupError>, onDeath: Handler, onAlive: Handler): Step<PlayerStats>
  {
    match fetched
    case Failure(_) => Step(cached, [])
    case Success(stats) =>
      Step(stats,
        if stats.isDead == cached.isDead then []
        else if stats.isDead then [Died(onDeath, stats)]
        else [Revived(onAlive, stats)])
  }

  /** `HandleEvent` applied to every entry of `events`, in order. */
  function HandledAll(events: seq<GameEvent>): (r: seq<Notification>)
    ensures |r| == |events|
    ensures forall i :: 0 <= i < |events| ==> r[i] == EventHandled(events[i])
  {
    if events == [] then []
    else HandledAll(events[..|events| - 1]) + [EventHandled(events[|events| - 1])]
  }

  /** Event-log cycle: skip on error; when the fetched log is longer than
      the cached one, cache it and handle every entry of it. */
  function EventStep(cached: seq<GameEvent>, fetched: Fetch<seq<GameEvent>>): Step<seq<GameEvent>>
  {
    match fetched
    case Err => Step(cached, [])
    case Ok(events) =>
      if |events| > |cached| then Step(events, HandledAll(events)) else Step(cached, [])
  }

  /** The level handler is called, once, exactly when a fetched level is
      strictly above the cached one, with (fetched, cached) in that order;
      a fetched snapshot always replaces the cache, even at a lower level. */
  lemma IdentityStepSpec(cached: ActivePlayer, fetched: Fetch<ActivePlayer>, h: Handler)
    ensures var r := IdentityStep(cached, fetched, h);
      && (r.sent != [] <==> fetched.Ok? && fetched.value.level > cached.level)
      && (r.sent != [] ==> r.sent == [LevelChanged(h, fetched.value.level, cached.level, fetched.value)])
      && (fetched.Ok? ==> r.next == fetched.value)
      && (fetched.Err? ==> r.next == cached)
  {
  }

  /** A handler is called exactly when `isDead` flipped: the death handler
      when it became true, the alive handler when it became false, never
      both; a fetched snapshot always replaces the cache. */
  lemma CombatStepSpec(cached: PlayerStats, fetched: Result<PlayerStats, LookupError>, onDeath: Handler, onAlive: Handler)
    ensures var r := CombatStep(cached, fetched, onDeath, onAlive);
      && |r.sent| <= 1
      && (r.sent != [] <==> fetched.Success? && fetched.value.isDead != cached.isDead)
      && (r.sent != [] && fetched.value.isDead ==> r.sent == [Died(onDeath, fetched.value)])
      && (r.sent != [] && !fetched.value.isDead ==> r.sent == [Revived(onAlive, fetched.value)])
      && (fetched.Success? ==> r.next == fetched.value)
      && (fetched.Failure? ==> r.next == cached)
  {
  }

  /** A longer log replaces the cache and every one of its entries, the
      old ones included, is handled in order; otherwise nothing happens. */
  lemma EventStepSpec(cached: seq<GameEvent>, fetched: Fetch<seq<GameEvent>>)
    ensures var r := EventStep(cached, fetched);
      && (fetched.Ok? && |fetched.value| > |cached| ==>
            r.next == fetched.value && |r.sent| == |fetched.value|
            && forall i :: 0 <= i < |r.sent| ==> r.sent[i] == EventHandled(fetched.value[i]))
      && (!(fetched.Ok? && |fetched.value| > |cached|) ==> r == Step(cached, []))
      && |r.next| >= |cached|
  {
  }
}
