/** The live-state monitor `localClient`: three caches, three handler
    fields, and the poll cycles of `Listen` run one at a time. A finite
    sequence of poll cycles, in any order, stands for one interleaving of
    the three poller loops. */
module Monitor {
  import opened Snapshots
  import opened PlayerLookup
  import opened Detector

  datatype Handlers = Handlers(onLevelChange: Handler, onDeath: Handler, onAlive: Handler)

  /** The client's state as a value. */
  datatype ClientState = ClientState(
    playerCache: ActivePlayer,
    playerStatCache: PlayerStats,
    eventsCache: seq<GameEvent>,
    handlers: Handlers)

  /** The state `NewLocalClient` creates: zero-valued identity and stats,
      an empty event log, no handlers. */
  const INITIAL := ClientState(NO_ACTIVE_PLAYER, NO_PLAYER_STATS, [], Handlers(Nil, Nil, Nil))

  /** One cycle of one of the three poller loops, with its fetch outcome. */
  datatype Poll =
    | ActivePlayerPoll(player: Fetch<ActivePlayer>)
    | PlayerListPoll(list: ListFetch)
    | GameEventsPoll(events: Fetch<seq<GameEvent>>)

  /** One poll cycle. The player-stats cycle looks the tracked player up
      under the name in the identity cache. */
  function Apply(s: ClientState, p: Poll): Step<ClientState>
  {
    match p
    case ActivePlayerPoll(fetched) =>
      var r := IdentityStep(s.playerCache, fetched, s.handlers.onLevelChange);
      Step(s.(playerCache := r.next), r.sent)
    case PlayerListPoll(fetched) =>
      var lookup := PlayerStatsOutcome(fetched, s.playerCache.summonerName);
      var r := CombatStep(s.playerStatCache, lookup, s.handlers.onDeath, s.handlers.onAlive);
      Step(s.(playerStatCache := r.next), r.sent)
    case GameEventsPoll(fetched) =>
      var r := EventStep(s.eventsCache, fetched);
      Step(s.(eventsCache := r.next), r.sent)
  }

  /** A sequence of poll cycles: the final state and every call made. */
  function Run(s: ClientState, polls: seq<Poll>): Step<ClientState>
  {
    if polls == [] then Step(s, [])
    else
      var prior := Run(s, polls[..|polls| - 1]);
      var last := Apply(prior.next, polls[|polls| - 1]);
      Step(last.next, prior.sent + last.sent)
  }

  /** A cycle whose fetch (or, for the player list, whose lookup) failed. */
  predicate Failed(s: ClientState, p: Poll)
  {
    match p
    case ActivePlayerPoll(fetched) => fetched.Err?
    case PlayerListPoll(fetched) => PlayerStatsOutcome(fetched, s.playerCache.summonerName).Failure?
    case GameEventsPoll(fetched) => fetched.Err?
  }

  /** A failed cycle changes no cache and calls no handler. */
  lemma FailedPollIsNoOp(s: ClientState, p: Poll)
    requires Failed(s, p)
    ensures Apply(s, p) == Step(s, [])
  {
  }

  /** Each cycle touches its own cache only. */
  lemma PollTouchesOwnCacheOnly(s: ClientState, p: Poll)
    ensures var t := Apply(s, p).next;
      && t.handlers == s.handlers
      && (!p.ActivePlayerPoll? ==> t.playerCache == s.playerCache)
      && (!p.PlayerListPoll? ==> t.playerStatCache == s.playerStatCache)
      && (!p.GameEventsPoll? ==> t.eventsCache == s.eventsCache)
  {
  }

  /** Running the same cycle again right after it, with the same fetch
      outcome, changes nothing and calls no handler. */
  lemma RepeatedPollIsNoOp(s: ClientState, p: Poll)
    ensures var t := Apply(s, p).next; Apply(t, p) == Step(t, [])
  {
    var t := Apply(s, p).next;
    match p
    case ActivePlayerPoll(fetched) =>
    case PlayerListPoll(fetched) =>
      assert t.playerCache == s.playerCache;
    case GameEventsPoll(fetched) =>
  }

  /** A transport failure of the player-list query reads as a live player
      with the zero-valued stats: a cached dead player is reported alive. */
  lemma TransportFailureReadsAsAlive(s: ClientState)
    ensures var r := Apply(s, PlayerListPoll(TransportFailed));
      && r.next.playerStatCache == NO_PLAYER_STATS
      && r.sent == (if s.playerStatCache.isDead then [Revived(s.handlers.onAlive, NO_PLAYER_STATS)] else [])
  {
  }

  lemma {:induction false} RunPrefix(s: ClientState, polls: seq<Poll>, j: nat)
    requires 0 < j <= |polls|
    ensures var prior := Run(s, polls[..j - 1]);
      var last := Apply(prior.next, polls[j - 1]);
      Run(s, polls[..j]) == Step(last.next, prior.sent + last.sent)
  {
    assert polls[..j][..j - 1] == polls[..j - 1];
  }

  /** The event cache never gets shorter: along any sequence of cycles, a
      later state's event log is at least as long as an earlier one's. */
  lemma {:induction false} EventCacheNeverShrinks(s: ClientState, polls: seq<Poll>, i: nat, j: nat)
    requires i <= j <= |polls|
    ensures |Run(s, polls[..i]).next.eventsCache| <= |Run(s, polls[..j]).next.eventsCache|
  {
    if i < j {
      EventCacheNeverShrinks(s, polls, i, j - 1);
      RunPrefix(s, polls, j);
      var prior := Run(s, polls[..j - 1]).next;
      EventStepSpec(prior.eventsCache, if polls[j - 1].GameEventsPoll? then polls[j - 1].events else Err);
    }
  }

  /** The event cache holds the longest log observed: it is at least as
      long as every log fetched so far, and it is either the starting
      cache or one of those logs. */
  lemma {:induction false} EventCacheIsLongestObserved(s: ClientState, polls: seq<Poll>)
    ensures var cache := Run(s, polls).next.eventsCache;
      && (forall k :: 0 <= k < |polls| && polls[k].GameEventsPoll? && polls[k].events.Ok? ==>
            |polls[k].events.value| <= |cache|)
      && (cache == s.eventsCache || exists k :: 0 <= k < |polls| && polls[k] == GameEventsPoll(Ok(cache)))
  {
    if polls != [] {
      var n := |polls| - 1;
      EventCacheIsLongestObserved(s, polls[..n]);
      RunPrefix(s, polls, |polls|);
      assert polls[..|polls|] == polls;
      var prior := Run(s, polls[..n]).next.eventsCache;
      var cache := Run(s, polls).next.eventsCache;
      assert |prior| <= |cache| by {
        EventStepSpec(prior, if polls[n].GameEventsPoll? then polls[n].events else Err);
      }
      forall k | 0 <= k < |polls| && polls[k].GameEventsPoll? && polls[k].events.Ok?
        ensures |polls[k].events.value| <= |cache|
      {
        if k < n {
          assert polls[..n][k] == polls[k];
        }
      }
      if cache != s.eventsCache {
        if cache == prior {
          var k :| 0 <= k < n && polls[..n][k] == GameEventsPoll(Ok(prior));
          assert polls[k] == GameEventsPoll(Ok(cache));
        } else {
          assert polls[n] == GameEventsPoll(Ok(cache));
        }
      }
    }
  }

  /** The isDead values carried by the death (true) and alive (false)
      calls among `sent`, in order. */
  function DeathEdges(sent: seq<Notification>): seq<bool>
  {
    if sent == [] then []
    else
      DeathEdges(sent[..|sent| - 1]) +
      match sent[|sent| - 1]
      case Died(_, _) => [true]
      case Revived(_, _) => [false]
      case _ => []
  }

  lemma {:induction false} DeathEdgesAppend(a: seq<Notification>, b: seq<Notification>)
    ensures DeathEdges(a + b) == DeathEdges(a) + DeathEdges(b)
  {
    if b == [] {
      assert a + b == a;
    } else {
      var n := |b| - 1;
      DeathEdgesAppend(a, b[..n]);
      assert (a + b)[..|a + b| - 1] == a + b[..n];
      assert (a + b)[|a + b| - 1] == b[n];
    }
  }

  /** One cycle makes at most one death or alive call; the call reports
      the opposite of the cached isDead, and the new cache agrees with it. */
  lemma DeathEdgeOfPoll(t: ClientState, p: Poll)
    ensures var r := Apply(t, p); var e := DeathEdges(r.sent);
      |e| <= 1 && Alternates(e, t.playerStatCache.isDead, r.next.playerStatCache.isDead)
  {
    var r := Apply(t, p);
    match p
    case ActivePlayerPoll(fetched) =>
      if r.sent != [] {
        assert DeathEdges(r.sent) == DeathEdges([]) + [];
      }
    case PlayerListPoll(fetched) =>
      if r.sent != [] {
        assert r.sent[..0] == [];
      }
    case GameEventsPoll(fetched) =>
      if fetched.Ok? && |fetched.value| > |t.eventsCache| {
        NoDeathEdgesInEvents(fetched.value);
      }
  }

  lemma {:induction false} NoDeathEdgesInEvents(events: seq<GameEvent>)
    ensures DeathEdges(HandledAll(events)) == []
  {
    if events != [] {
      var n := |events| - 1;
      NoDeathEdgesInEvents(events[..n]);
      DeathEdgesAppend(HandledAll(events[..n]), [EventHandled(events[n])]);
    }
  }

  /** `edges` flips at every element, starting from `start`, and ends at
      `end`: the first edge is the opposite of `start`, each edge the
      opposite of the one before, and `end` is the last edge (or `start`
      when there is none). */
  predicate Alternates(edges: seq<bool>, start: bool, end: bool)
  {
    && (edges != [] ==> edges[0] != start)
    && (forall i :: 0 < i < |edges| ==> edges[i] != edges[i - 1])
    && end == (if edges == [] then start else edges[|edges| - 1])
  }

  lemma AlternatesExtend(a: seq<bool>, b: seq<bool>, start: bool, mid: bool, end: bool)
    requires Alternates(a, start, mid)
    requires |b| <= 1 && Alternates(b, mid, end)
    ensures Alternates(a + b, start, end)
  {
  }

  /** Death and alive calls strictly alternate: the first one reports the
      opposite of the starting state, each one the opposite of the one
      before, and the cache agrees with the last one made. */
  lemma {:induction false} DeathAndAliveAlternate(s: ClientState, polls: seq<Poll>)
    ensures var r := Run(s, polls);
      Alternates(DeathEdges(r.sent), s.playerStatCache.isDead, r.next.playerStatCache.isDead)
  {
    if polls != [] {
      var n := |polls| - 1;
      var prior := Run(s, polls[..n]);
      var last := Apply(prior.next, polls[n]);
      assert Run(s, polls) == Step(last.next, prior.sent + last.sent);
      DeathAndAliveAlternate(s, polls[..n]);
      DeathEdgeOfPoll(prior.next, polls[n]);
      DeathEdgesAppend(prior.sent, last.sent);
      AlternatesExtend(DeathEdges(prior.sent), DeathEdges(last.sent), s.playerStatCache.isDead,
        prior.next.playerStatCache.isDead, last.next.playerStatCache.isDead);
    }
  }

  /** Every level-change call made along any run reports a fetched level
      strictly above the cached level it was compared with. */
  lemma {:induction false} LevelChangesAreIncreases(s: ClientState, polls: seq<Poll>)
    ensures var sent := Run(s, polls).sent;
      forall i :: 0 <= i < |sent| && sent[i].LevelChanged? ==> sent[i].newLevel > sent[i].oldLevel
  {
    if polls != [] {
      var n := |polls| - 1;
      LevelChangesAreIncreases(s, polls[..n]);
      RunPrefix(s, polls, |polls|);
      assert polls[..|polls|] == polls;
      var prior := Run(s, polls[..n]);
      var last := Apply(prior.next, polls[n]);
      var sent := prior.sent + last.sent;
      forall i | 0 <= i < |sent| && sent[i].LevelChanged?
        ensures sent[i].newLevel > sent[i].oldLevel
      {
        if i >= |prior.sent| {
          assert sent[i] == last.sent[i - |prior.sent|];
        }
      }
    }
  }

  /** The client object of the source, with its three caches and handler
      fields; `dispatched` records every handler call made so far. */
  class LocalClient {
    var playerCache: ActivePlayer
    var eventsCache: seq<GameEvent>
    var playerStatCache: PlayerStats
    var onPlayerLevelChange: Handler
    var onPlayerDeath: Handler
    var onPlayerAlive: Handler
    ghost var dispatched: seq<Notification>

    function State(): ClientState
      reads this
    {
      ClientState(playerCache, playerStatCache, eventsCache,
        Handlers(onPlayerLevelChange, onPlayerDeath, onPlayerAlive))
    }

    /** `NewLocalClient`. */
    constructor ()
      ensures State() == INITIAL && dispatched == []
    {
      playerCache := NO_ACTIVE_PLAYER;
      eventsCache := [];
      playerStatCache := NO_PLAYER_STATS;
      onPlayerLevelChange, onPlayerDeath, onPlayerAlive := Nil, Nil, Nil;
      dispatched := [];
    }

    method OnPlayerLevelChange(cb: Handler)
      modifies this`onPlayerLevelChange
      ensures State() == old(State()).(handlers := old(State()).handlers.(onLevelChange := cb))
    {
      onPlayerLevelChange := cb;
    }

    method OnPlayerDeath(cb: Handler)
      modifies this`onPlayerDeath
      ensures State() == old(State()).(handlers := old(State()).handlers.(onDeath := cb))
    {
      onPlayerDeath := cb;
    }

    method OnPlayerAlive(cb: Handler)
      modifies this`onPlayerAlive
      ensures State() == old(State()).(handlers := old(State()).handlers.(onAlive := cb))
    {
      onPlayerAlive := cb;
    }

    /** `GetPlayerStats` on a given outcome of the player-list query. */
    method GetPlayerStats(fetched: ListFetch) returns (r: Result<PlayerStats, LookupError>)
      ensures r == PlayerStatsOutcome(fetched, playerCache.summonerName)
    {
      match fetched
      case TransportFailed =>
        r := Success(NO_PLAYER_STATS);
      case DecodeFailed =>
        r := Failure(DecodeError);
      case Received(players) =>
        r := FindPlayer(players, playerCache.summonerName);
    }

    method HandleEvent(event: GameEvent)
      modifies this`dispatched
      ensures dispatched == old(dispatched) + [EventHandled(event)]
    {
      dispatched := dispatched + [EventHandled(event)];
    }

    /** The loop that hands every entry of a fetched log to `HandleEvent`. */
    method HandleEvents(events: seq<GameEvent>)
      modifies this`dispatched
      ensures dispatched == old(dispatched) + HandledAll(events)
    {
      var i := 0;
      while i < |events|
        invariant 0 <= i <= |events|
        invariant dispatched == old(dispatched) + HandledAll(events[..i])
      {
        assert events[..i + 1][..i] == events[..i];
        HandleEvent(events[i]);
        i := i + 1;
      }
      assert events[..i] == events;
    }

    /** One cycle of the player-stats loop. */
    method PollPlayerStats(fetched: ListFetch)
      modifies this`playerStatCache, this`dispatched
      ensures var lookup := PlayerStatsOutcome(fetched, old(playerCache.summonerName));
        var r := CombatStep(old(playerStatCache), lookup, onPlayerDeath, onPlayerAlive);
        playerStatCache == r.next && dispatched == old(dispatched) + r.sent
    {
      var playerStats := GetPlayerStats(fetched);
      if playerStats.Failure? {
        return;
      }
      if playerStats.value.isDead != playerStatCache.isDead {
        if playerStats.value.isDead {
          dispatched := dispatched + [Died(onPlayerDeath, playerStats.value)];
        } else {
          dispatched := dispatched + [Revived(onPlayerAlive, playerStats.value)];
        }
      }
      playerStatCache := playerStats.value;
    }

    /** One cycle of the event-log loop. */
    method PollGameEvents(fetched: Fetch<seq<GameEvent>>)
      modifies this`eventsCache, this`dispatched
      ensures var r := EventStep(old(eventsCache), fetched);
        eventsCache == r.next && dispatched == old(dispatched) + r.sent
    {
      if fetched.Err? {
        return;
      }
      var events := fetched.value;
      if |events| > |eventsCache| {
        eventsCache := events;
        HandleEvents(events);
      }
    }

    /** One cycle of the active-player loop. */
    method PollActivePlayer(fetched: Fetch<ActivePlayer>)
      modifies this`playerCache, this`dispatched
      ensures var r := IdentityStep(old(playerCache), fetched, onPlayerLevelChange);
        playerCache == r.next && dispatched == old(dispatched) + r.sent
    {
      if fetched.Err? {
        return;
      }
      var playerData := fetched.value;
      if playerData.level > playerCache.level {
        dispatched := dispatched + [LevelChanged(onPlayerLevelChange, playerData.level, playerCache.level, playerData)];
      }
      playerCache := playerData;
    }

    /** One cycle of whichever loop `p` belongs to. */
    method Poll(p: Poll)
      modifies this
      ensures State() == Apply(old(State()), p).next
      ensures dispatched == old(dispatched) + Apply(old(State()), p).sent
    {
      match p
      case ActivePlayerPoll(fetched) => PollActivePlayer(fetched);
      case PlayerListPoll(fetched) => PollPlayerStats(fetched);
      case GameEventsPoll(fetched) => PollGameEvents(fetched);
    }

    /** `Listen`, run over a finite interleaving of poll cycles. */
    method Listen(polls: seq<Poll>)
      modifies this
      ensures State() == Run(old(State()), polls).next
      ensures dispatched == old(dispatched) + Run(old(State()), polls).sent
      ensures |eventsCache| >= |old(eventsCache)|
    {
      ghost var start := State();
      ghost var log := dispatched;
      ghost var trace := Run(start, []);
      var i := 0;
      while i < |polls|
        invariant 0 <= i <= |polls|
        invariant trace == Run(start, polls[..i])
        invariant State() == trace.next && dispatched == log + trace.sent
      {
        ghost var step := Apply(trace.next, polls[i]);
        Poll(polls[i]);
        RunPrefix(start, polls, i + 1);
        trace := Step(step.next, trace.sent + step.sent);
        i := i + 1;
      }
      assert polls[..i] == polls;
      EventCacheNeverShrinks(start, polls, 0, |polls|);
      assert polls[..0] == [];
    }
  }
}
