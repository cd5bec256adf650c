# hue-league live-state monitor, in Dafny

This project models the change-detection core of the `localClient` in
`league/league.go`. The client polls the game's local live-client API for
three facts:

- the active player's identity and level;
- the tracked player's combat status (dead or alive);
- the game-event log.

Each fact has its own cache. On every poll cycle, the client compares the
fresh snapshot with the cached one. It calls the registered level, death or
alive handler, or hands the event log to `HandleEvent`, and then replaces or
keeps the cache.

Once goroutines, sleeps and HTTP are removed, what is left is a sequential
state machine:

- `Snapshots` keeps only the payload fields the logic reads (`Level`,
  `SummonerName`, `IsDead`, `EventName`) and `EventID`, which identifies an
  event-log entry. It also defines the outcomes of the three queries. The
  active-player and event queries give
  `Ok(snapshot)` or `Err`. The player-list query gives `TransportFailed`,
  `DecodeFailed` or `Received(list)`.
- `PlayerLookup` models `GetPlayerStats`. `FirstMatch` is a reference
  definition of the first-match search. `FindPlayer` is the source's loop,
  proved against it. `PlayerStatsOutcome` maps each query outcome to what
  `GetPlayerStats` returns.
- `Detector` has one pure step function per poller: `IdentityStep`,
  `CombatStep` and `EventStep`. Each one returns the new cache and the
  handler calls it makes, written as `Notification` values.
- `Monitor` gives the client state as a value (`ClientState`). `Apply` runs
  one poll cycle and `Run` runs a finite sequence of cycles. A sequence
  stands for one interleaving of the three loops. The module also holds the
  lemmas about runs, and the class `LocalClient`. That class has the
  source's three caches, its three handler fields and a ghost `dispatched`
  log of every handler call. Each of its methods is proved against the
  functions above.

The model keeps these source behaviours as they are:

- The level handler is called with (fetched level, cached level). This
  matches the parameter names of `OnPlayerLevelChange` (`new, old`). It
  does not match those of the `onPlayerLevelChange` field (`old, new`).
- Any growth of the event log makes the client hand every entry of the new
  log to `HandleEvent`, not just the new suffix.
- The identity cache is replaced even when the level goes down.
- A transport failure of the player-list query comes back as a zero-valued
  `PlayerStats` with no error. The poller takes it as a real reading of a
  live player, so a cached dead player is reported alive
  (`Monitor.TransportFailureReadsAsAlive`).

## Model

| member | source | states |
|---|---|---|
| PlayerLookup.FirstMatch | league/league.go:129-134 | the index found is that of a player with the cached summoner name, and no earlier player has that name; "none" means that no player in the list has it |
| PlayerLookup.PlayerStatsOutcome | league/league.go:115-134 | a transport failure gives the zero-valued stats (not dead) with no error; a decode failure gives a decode error; a decoded list gives the first player with the cached name, or a not-found error exactly when no player has it |
| PlayerLookup.FindPlayer | league/league.go:129-134 | the early-return loop returns what the lookup specifies for a decoded list, and it succeeds iff some player has the name |
| Detector.HandledAll | league/league.go:55-59 | one `HandleEvent` call per entry of the log, in order, with the i-th call on the i-th entry |
| Detector.IdentityStepSpec | league/league.go:67-76 | the level handler is called, once, iff the fetch succeeded and the fetched level is strictly above the cached one, with the arguments (fetched level, cached level, fetched snapshot); a successful fetch always becomes the cache, even at an equal or lower level; an error leaves the cache alone |
| Detector.CombatStepSpec | league/league.go:26-41 | at most one call; a handler is called iff the lookup succeeded and `isDead` differs from the cached value; it is the death handler when the new value is true and the alive handler when it is false; a successful lookup always becomes the cache; an error leaves the cache alone |
| Detector.EventStepSpec | league/league.go:48-60 | when a fetched log is longer than the cached one, it becomes the cache and every entry of it, old ones included, is handled in order; otherwise the cache is unchanged and nothing is handled; the cache never gets shorter |
| Monitor.FailedPollIsNoOp | league/league.go:23-80 | a cycle whose fetch fails (active player, events) or whose lookup fails (player list) leaves the whole client state unchanged and calls no handler |
| Monitor.PollTouchesOwnCacheOnly | league/league.go:23-80 | each poller writes only its own cache and never the handler fields |
| Monitor.RepeatedPollIsNoOp | league/league.go:23-80 | repeating a cycle right away with the same fetch outcome changes nothing and calls no handler; this holds for all three pollers |
| Monitor.TransportFailureReadsAsAlive | league/league.go:115-120 | a transport failure of the player-list query puts the zero-valued stats in the cache; if the cached player was dead, it calls the alive handler with those stats |
| Monitor.EventCacheNeverShrinks | league/league.go:53-54 | along any sequence of poll cycles, from `NewLocalClient`'s empty cache or from any other state, the event cache's length never decreases |
| Monitor.EventCacheIsLongestObserved | league/league.go:53-54 | after any run, the event cache is at least as long as every log fetched, and it is either the starting cache or one of the fetched logs |
| Monitor.DeathEdgeOfPoll | league/league.go:32-40 | one cycle makes at most one death or alive call; that call reports the opposite of the cached `isDead`, and the new cache agrees with it |
| Monitor.DeathAndAliveAlternate | league/league.go:31-41 | along any run, death and alive calls strictly alternate: the first reports the opposite of the starting state, each reports the opposite of the one before, and the cached `isDead` equals the last one |
| Monitor.LevelChangesAreIncreases | league/league.go:72-73 | every level-change call made along any run carries a fetched level strictly above the cached level it was compared with |
| Monitor.LocalClient.constructor | league/league.go:137-145 | `NewLocalClient`: zero-valued identity and stats, an empty event log, nil handlers, nothing dispatched |
| Monitor.LocalClient.OnPlayerLevelChange | league/league.go:147-149 | stores the level handler and changes nothing else |
| Monitor.LocalClient.OnPlayerDeath | league/league.go:151-153 | stores the death handler and changes nothing else |
| Monitor.LocalClient.OnPlayerAlive | league/league.go:155-157 | stores the alive handler and changes nothing else |
| Monitor.LocalClient.GetPlayerStats | league/league.go:115-135 | returns the lookup outcome for the query's outcome and the name in the identity cache |
| Monitor.LocalClient.HandleEvent | league/league.go:82-84 | records exactly one handled event |
| Monitor.LocalClient.HandleEvents | league/league.go:55-59 | records every entry of the log as handled, in order |
| Monitor.LocalClient.PollPlayerStats | league/league.go:25-41 | one player-stats cycle: the stats cache and the calls made are those of the combat step on the lookup outcome; nothing else changes |
| Monitor.LocalClient.PollGameEvents | league/league.go:47-61 | one event-log cycle: the event cache and the calls made are those of the event step; nothing else changes |
| Monitor.LocalClient.PollActivePlayer | league/league.go:66-77 | one active-player cycle: the identity cache and the calls made are those of the identity step; nothing else changes |
| Monitor.LocalClient.Poll | league/league.go:23-80 | one cycle of whichever loop the poll belongs to moves the client's state and log as `Apply` says |
| Monitor.LocalClient.Listen | league/league.go:23-80 | a finite interleaving of poll cycles moves the client's state and log as `Run` says, and the event cache ends at least as long as it started |

## Left out

- HTTP requests, reading the response body and the TLS `InsecureSkipVerify` setup (league/league.go:86-113, 116-122, 138). These are network I/O. Each query is an input to the model: `Ok`/`Err`, or, for the player list, `TransportFailed`/`DecodeFailed`/`Received`.
- JSON decoding and the large payload structs (league/league.go:159-338). Only `Level`, `SummonerName`, `IsDead` and `EventName`, which the logic reads, and `EventID`, which identifies an entry, are kept. No other field is read by the logic, and the float fields are never inspected.
- Goroutines and the `time.Sleep` cadences (league/league.go:61, 77). The model runs one cycle at a time. A finite sequence of cycles stands for one interleaving of the three infinite loops. On a failed fetch, the identity loop's `continue` (league/league.go:70) skips the one-second sleep, so it polls again at once.
- Monitor.LocalClient.PollPlayerStats: the comparison and the cache write run in a goroutine spawned once per cycle (league/league.go:31-41). They race with the next cycle and with each other. The model runs them in line, so it does not capture these races.
- Monitor.LocalClient.PollGameEvents: the loop that hands each entry of a grown log to `HandleEvent` runs in its own goroutine (league/league.go:55-59). Calls from two growths in a row can interleave with each other and with handler calls. `HandleEvents`, `PollGameEvents` and `Listen` put them in `dispatched` in line, one cycle at a time, so the model does not capture that interleaving.
- Handlers are started with `go` and run asynchronously. The model records each call in `dispatched` at the moment it is started and does not model what handlers do.
- Monitor.LocalClient.PollActivePlayer and PollPlayerStats: a handler field left nil (no `OnPlayer*` call) makes the `go` statement fail with the fatal runtime error "go of nil func value", which cannot be recovered. The model records a call to `Nil` instead and does not model that failure. main.go:16-28 registers all three handlers before `Listen`, so the shipped program never reaches this case.
- `fmt.Println` in `HandleEvent` and on the error paths is output only. `HandleEvent` is modelled as recording the event in the ghost log.
- hoo/hoo.go (`DoColorSequence`, `Start`). These use floating-point colour conversion through go-colorful, Hue bridge calls through huego, and sleeps, all in libraries that are not part of this model.
- main.go covers process wiring, the hard-coded colour sequences, the busy `for {}` loop, `something()` and `initUser()`. These are I/O, device pairing and configuration.
- Go's `int` is 32 or 64 bits wide depending on the platform. The model compares levels as unbounded integers, because no arithmetic is done on them.
