# Nowhere Station — server game loop

A Dafny model of the server side of the co-op Unreal game *Nowhere Station*.
Up to four players work a night shift on a space station. They repair
broken fixtures through a quick-time event (QTE), mop stains and vacuum up
memory shards. They have to keep the station's reputation above zero for
seven days.

The model follows the C++ classes one to one:

- `Round.GameState` (`game_state.dfy`) is the replicated record of the
  round: phase, time left, ready counts, start countdown, spawn stage, day,
  reputation, day score and memory shards.
- `QteRepair.InteractiveActor` (`repair.dfy`) is a repairable fixture. A
  player starts a repair, the server issues random key prompts, and each hit
  or miss moves the progress (clamped to [0, 1]). A timed-out prompt counts
  as a miss. Reaching 1 completes the repair.
- `SpawnRules` (`spawn_rules.dfy`) holds the director's pure rules:
  - per-kind tallies (`StageQuota`);
  - the stage schedule (Early, Peak, Cleanup, Inactive by elapsed time);
  - the stage quotas and the default tuning;
  - how a stain spawn point's tags choose a stain type;
  - counting broken fixtures.
- `Spawning.SpawnDirector` (`spawn_director.dfy`) is the spawn director.
  - It builds the pool of repairable fixtures and advances the stage
    clock. The pool tag is part of the editable tuning: by default only
    fixtures tagged Repairable qualify, and with no tag configured every
    fixture in the level does.
  - On every tick, a passenger, stain, repair or shard spawn is attempted
    once its cooldown has passed. Passengers, stains and shards are held to
    the stage quota; repairs only to the cap on simultaneous broken fixtures.
  - It keeps spawned and alive tallies, and deactivates all work at the end
    of the day.
- `Phases.GameMode` (`phases.dfy`) is the game mode. It handles:
  - logins, with the join lock and the player cap;
  - ready states and the five-second start countdown;
  - the work phase and its timer;
  - the end of the day, with its score penalty and reputation change;
  - the reset for the next day, or the end of the run;
  - the shutdown of an empty server.

  The multi-day campaign is also stated on values (`Campaign`, `CloseDay`,
  `Run`).
- `Cleaning.PlayerCharacter` (`cleaning.dfy`) is a player's character:
  - equipment slots (vacuum, mop) and the clean state;
  - mopping a target stain on a timer;
  - the vacuum field, with its set of shards under suction;
  - sprinting and the walk speed.
- `Dispatch` (`dispatch.dfy`) connects the machines. A completed repair
  scores through the game mode and retires one live repair at the
  director; a finished mop stroke scores one stain.

Several conventions apply throughout:

- Engine timers are boolean "armed" fields. A timer callback is a method
  that requires its timer to be armed.
- Random choices (`FMath::RandHelper`) are a caller-supplied roll, used
  modulo the range.
- World queries are parameters: actors found by tag, the success of an
  engine spawn, a mop target's progress, what the vacuum overlaps.
- `float` values are `real`.
- The server's `HasAuthority()` is an `authority` constant on each object.
  A call made without authority changes nothing wherever the source
  returns early.

## Model

| member | source | states |
|---|---|---|
| Round.ShardTotalAfter | UnrealProject/Private/NSGameState.cpp:44-58 | the shard total after adding a delta never goes below zero: it is the sum, or zero when the sum would be negative |
| Round.ShardNotice | UnrealProject/Private/NSGameState.cpp:44-58 | the shard-changed notification is broadcast exactly when the total changed, and it carries the new total |
| Round.GameState.constructor | UnrealProject/Private/NSGameState.h:22-58 | a new round record starts Waiting with zero counts, stage Inactive, day 1, reputation 1, no score and no shards |
| Round.GameState.AddScore | UnrealProject/Private/NSGameState.h:55 | the day score grows by the delta and nothing else in the record changes |
| Round.GameState.AddMemoryShard | UnrealProject/Private/NSGameState.cpp:44-58 | off the server nothing changes; on the server the total becomes ShardTotalAfter and a notice is returned exactly when it changed |
| QteRepair.Clamp01 | UnrealProject/Private/InteractiveActor.cpp:259-290 | the result lies in [0, 1], equals the input inside that range, and saturates at the nearer bound outside it |
| QteRepair.HitProgress | UnrealProject/Private/InteractiveActor.cpp:259-273 | a hit adds the success gain, stays in [0, 1], and never lowers the progress when the gain is non-negative |
| QteRepair.MissProgress | UnrealProject/Private/InteractiveActor.cpp:275-290 | a miss subtracts the fail penalty, stays in [0, 1], and never raises the progress when the penalty is non-negative |
| QteRepair.TotalGain | UnrealProject/Private/InteractiveActor.cpp:259-273 | the gain of n hits is non-negative when one hit's gain is |
| QteRepair.TotalGainIsProduct | UnrealProject/Private/InteractiveActor.cpp:259-273 | n hits gain exactly n times the success gain |
| QteRepair.ClampShift | UnrealProject/Private/InteractiveActor.cpp:259-273 | clamping after each of two non-negative gains equals clamping once after both |
| QteRepair.HitsFromTotal | UnrealProject/Private/InteractiveActor.cpp:259-273 | n successive hits from progress p leave the clamped sum of p and the total gain |
| QteRepair.HitsFromClosedForm | UnrealProject/Private/InteractiveActor.cpp:259-273 | n successive hits from p leave min(1, p + n * gain) |
| QteRepair.DefaultRepairTakesFourHits | UnrealProject/Private/InteractiveActor.h:16-19 | with the default gain of 0.25, three hits from zero do not complete a repair and four do |
| QteRepair.InteractiveActor.constructor | UnrealProject/Private/InteractiveActor.h:16-19 | a new fixture is broken, has no progress, is not in QTE mode, has no prompt or timer, and satisfies the fixture invariant |
| QteRepair.InteractiveActor.PanelShown | UnrealProject/Private/InteractiveActor.cpp:317-326 | the repair panel is shown only on a broken fixture and never while it is in QTE mode |
| QteRepair.InteractiveActor.OutlineOpacity | UnrealProject/Private/InteractiveActor.cpp:116-123 | the outline is fully on exactly when the fixture is broken, and off otherwise |
| QteRepair.InteractiveActor.SetIsBroken | UnrealProject/Private/InteractiveActor.cpp:179-185 | only the server changes the fixture; breaking only sets the flag; fixing also clears the progress and QTE mode; the invariant is kept |
| QteRepair.InteractiveActor.RequestStartRepair | UnrealProject/Private/InteractiveActor.cpp:196-218 | a repair starts only on the server, for a broken fixture not already in QTE, requested through a controller: progress restarts at 0, QTE mode is entered and the first prompt is armed; the requester is recorded even without a controller |
| QteRepair.InteractiveActor.IssuePrompt | UnrealProject/Private/InteractiveActor.cpp:225-242 | with authority, QTE mode and a non-empty key list, the prompt becomes the rolled key and the timeout is armed; otherwise only the prompt timer stops |
| QteRepair.InteractiveActor.ApplyFail | UnrealProject/Private/InteractiveActor.cpp:275-290 | a miss lowers the progress to MissProgress and arms the next prompt; outside a server QTE nothing changes |
| QteRepair.InteractiveActor.PromptTimedOut | UnrealProject/Private/InteractiveActor.cpp:225-242 | an unanswered prompt counts as a miss; outside QTE only the timeout timer is cleared |
| QteRepair.InteractiveActor.CompleteRepair | UnrealProject/Private/InteractiveActor.cpp:292-315 | completion fixes the fixture, so its progress is 0, leaves QTE mode and clears both timers, keeping the recorded repairer |
| QteRepair.InteractiveActor.ApplySuccess | UnrealProject/Private/InteractiveActor.cpp:259-273 | a hit completes the repair exactly when HitProgress reaches 1; otherwise the progress becomes HitProgress and the next prompt is armed |
| QteRepair.InteractiveActor.SubmitQteInput | UnrealProject/Private/InteractiveActor.cpp:244-257 | outside server QTE nothing happens; the current key is a hit, any other key or no prompt is a miss; completion only through a hit |
| QteRepair.InteractiveActor.StopRepair | UnrealProject/Private/InteractiveActor.cpp:138-155 | stopping a repair in progress leaves QTE mode with both timers cleared, keeping the progress, the broken flag and the repairer; otherwise nothing changes |
| SpawnRules.StageQuota.Bump | UnrealProject/Private/NSSpawnDirector.cpp:150-179 | counting a spawn adds one to its own kind's tally and leaves the other three |
| SpawnRules.StageQuota.Retire | UnrealProject/Private/NSSpawnDirector.cpp:109-114 | retiring one of a kind lowers that tally by one but not below zero, and leaves the others |
| SpawnRules.DefaultConfigSound | UnrealProject/Private/NSSpawnDirector.h:21-27 | the default stage ends are ordered, the cooldowns positive, the quotas non-negative, the repair cap is 2, and the repair pool is filtered by the Repairable tag |
| SpawnRules.StageAtMonotone | UnrealProject/Private/NSSpawnDirector.cpp:142-148 | with ordered thresholds the stage never moves backwards as time passes |
| SpawnRules.DefaultScheduleCoversRound | UnrealProject/Private/NSSpawnDirector.h:116-120 | with the default tuning spawning stops exactly at 600 seconds |
| SpawnRules.AllowedStainTypes | UnrealProject/Private/NSSpawnDirector.cpp:298-310 | each stain type is allowed exactly when its tag is on the point, never the untyped value, and none is allowed only when the point has no type tag |
| SpawnRules.PickTypeForPoint | UnrealProject/Private/NSSpawnDirector.cpp:312-325 | the rolled type is never untyped; on a point with type tags it is one of the allowed types, and on a point without any it is Wall, Object or Floor |
| SpawnRules.PickReachesEveryChoice | UnrealProject/Private/NSSpawnDirector.cpp:312-325 | every allowed type of a tagged point, and each of Wall, Object and Floor on an untagged one, is picked by some roll |
| SpawnRules.FirstTagType | UnrealProject/Private/NSSpawnDirector.cpp:222-229 | the tag scan yields the untyped value exactly when no type tag is present, and otherwise a type whose tag is present |
| SpawnRules.FirstTagTypeSkipsOtherTags | UnrealProject/Private/NSSpawnDirector.cpp:222-229 | tags that name no type before the first type tag do not affect the scan |
| SpawnRules.FirstTypeTagDecides | UnrealProject/Private/NSSpawnDirector.cpp:222-229 | when no type tag precedes it, the first type tag decides the type, whatever follows |
| SpawnRules.SingleTypeTagAgrees | UnrealProject/Private/NSSpawnDirector.cpp:222-229 | on a point with exactly one type tag, the random pick and the tag scan agree |
| SpawnRules.PickAndScanCanDisagree | UnrealProject/Private/NSSpawnDirector.cpp:222-229 | on a point with two type tags, or none, the stain's initial type and its scanned type can differ |
| SpawnRules.RetireMany | UnrealProject/Private/NSSpawnDirector.cpp:402-405 | n removals of one kind take its tally to the old tally minus n, floored at zero, and leave the other kinds |
| SpawnRules.AliveWorkIgnoresPassengers | UnrealProject/Private/NSSpawnDirector.cpp:355-358 | the leftover work count does not depend on live passengers and is non-negative for non-negative tallies |
| SpawnRules.Unbroken | UnrealProject/Private/NSSpawnDirector.cpp:86-107 | the candidates are exactly the working fixtures of the pool: every candidate is working and every working fixture is a candidate, in pool order |
| SpawnRules.UnbrokenCount | UnrealProject/Private/NSSpawnDirector.cpp:86-107 | working candidates and broken fixtures together make up the whole pool |
| SpawnRules.UnbrokenEmpty | UnrealProject/Private/NSSpawnDirector.cpp:86-107 | there is no candidate exactly when every fixture of the pool is broken |
| SpawnRules.CountTrueBounded | UnrealProject/Private/NSSpawnDirector.cpp:73-84 | the number of broken fixtures is at most the pool size, and zero exactly when none is broken |
| SpawnRules.CountTrueUpdate | UnrealProject/Private/NSSpawnDirector.cpp:73-84 | changing one fixture's flag changes the broken count by exactly that flag's change |
| Spawning.FlagsOf | UnrealProject/Private/NSSpawnDirector.cpp:73-84 | the pool's broken flags, one per fixture, in pool order |
| Spawning.Tagged | UnrealProject/Private/NSSpawnDirector.cpp:49-71 | the pool holds exactly the world's fixtures that carry the configured pool tag, in level order; with no tag configured, every fixture qualifies |
| Spawning.UntaggedPoolTakesAll | UnrealProject/Private/NSSpawnDirector.cpp:58 | with no pool tag configured, the pool is the whole list of fixtures, unfiltered |
| Spawning.TaggedDistinct | UnrealProject/Private/NSSpawnDirector.cpp:49-71 | a pool built from distinct fixtures has no duplicates |
| Spawning.TaggedSameAuthority | UnrealProject/Private/NSSpawnDirector.cpp:49-71 | every pool fixture shares the world's authority |
| Spawning.FlagsAfterOneChange | UnrealProject/Private/NSSpawnDirector.cpp:86-107 | when one fixture changes, the pool's flags change at that index only |
| Spawning.RepairPick | UnrealProject/Private/NSSpawnDirector.cpp:86-107 | a fixture is picked exactly when fewer than the cap are broken and one is still working, and the pick is a working fixture |
| Spawning.RepairPickReachesEveryWorking | UnrealProject/Private/NSSpawnDirector.cpp:86-107 | below the cap, every working fixture is picked by some random draw |
| Spawning.ActivatedFlags | UnrealProject/Private/NSSpawnDirector.cpp:86-107 | activation keeps the pool's size |
| Spawning.ActivationRespectsCap | UnrealProject/Private/NSSpawnDirector.cpp:86-107 | one activation breaks at most one working fixture, fixes none, and keeps the broken count within the cap if it was within it |
| Spawning.RoundSuccess | UnrealProject/Private/NSSpawnDirector.cpp:150-164 | in stage Inactive a round spawns nothing; otherwise a kind spawns exactly when its own attempt succeeds, which needs its next time to have come |
| Spawning.RoundAfterEffect | UnrealProject/Private/NSSpawnDirector.cpp:150-164 | after a round each kind that spawned is counted once in both tallies and its next time is now plus its cooldown; every other field is kept |
| Spawning.QuotaGate | UnrealProject/Private/NSSpawnDirector.cpp:166-246 | a passenger, stain or shard spawns only below its stage quota, so a tally within the quota stays within it |
| Spawning.RepairIgnoresQuota | UnrealProject/Private/NSSpawnDirector.cpp:86-107 | a repair is activated in stage Early although its tally is far past the Early quota |
| Spawning.RoundKeepsRepairCap | UnrealProject/Private/NSSpawnDirector.cpp:150-164 | a round breaks at most one fixture and keeps the broken count within the cap if it was within it |
| Spawning.Swept | UnrealProject/Private/NSSpawnDirector.cpp:376-396 | the end-of-day sweep keeps the passenger and repair tallies, never raises the leftover work nor makes a tally negative, and changes nothing off the server or when nothing is left |
| Spawning.SweepLeavesOnlyRepairs | UnrealProject/Private/NSGameModeBase.cpp:389-421 | when the sweep destroys every stain and shard counted alive, the leftover work counted at evaluation is the live repairs alone |
| Spawning.SpawnDirector.constructor | UnrealProject/Private/NSSpawnDirector.h:104-138 | a new director is inactive at time zero, stage Inactive, with empty tallies and no pool, within the repair cap |
| Spawning.SpawnDirector.BuildRepairPool | UnrealProject/Private/NSSpawnDirector.cpp:49-71 | the pool is exactly the fixtures that qualify under the configured pool tag; on the server every pool fixture is fixed, so none is broken; other fixtures are untouched |
| Spawning.SpawnDirector.CollectPool | UnrealProject/Private/NSSpawnDirector.cpp:51-68 | the pass over the level yields the qualifying fixtures in level order; each qualifying fixture is made working on the server and every other fixture is unchanged |
| Spawning.SpawnDirector.AdmitFixture | UnrealProject/Private/NSSpawnDirector.cpp:58-67 | a qualifying fixture is appended to the pool and made working on the server; any other fixture leaves the pool and itself unchanged |
| Spawning.SpawnDirector.BeginSpawnLoop | UnrealProject/Private/NSSpawnDirector.cpp:28-47 | off the server nothing changes; on the server the round restarts at Early with zero time and tallies, and the pool is rebuilt with every fixture fixed |
| Spawning.SpawnDirector.ResetRound | UnrealProject/Private/NSSpawnDirector.cpp:28-47 | the clock, stage, tallies and next spawn times restart, and the director becomes active |
| Spawning.SpawnDirector.EndSpawnLoop | UnrealProject/Private/NSSpawnDirector.cpp:116-123 | on the server the director becomes inactive in stage Inactive; off the server nothing changes |
| Spawning.SpawnDirector.CountActiveRepairs | UnrealProject/Private/NSSpawnDirector.cpp:73-84 | the result is the number of broken fixtures in the pool |
| Spawning.SpawnDirector.ActivateRandomRepair | UnrealProject/Private/NSSpawnDirector.cpp:86-107 | succeeds exactly when RepairPick finds a fixture; then both repair tallies rise by one and the picked fixture breaks; on failure nothing changes |
| Spawning.SpawnDirector.CountSpawn | UnrealProject/Private/NSSpawnDirector.cpp:166-179 | a successful spawn adds one to both the spawned and the alive tally of its kind |
| Spawning.SpawnDirector.BreakFixture | UnrealProject/Private/NSSpawnDirector.cpp:86-107 | breaking fixture k changes the pool's flags at k only, and only on the server |
| Spawning.SpawnDirector.OnRepairCompleted | UnrealProject/Private/NSSpawnDirector.cpp:109-114 | a completed repair retires one live repair and nothing else changes |
| Spawning.SpawnDirector.BroadcastCompletionAsWritten | UnrealProject/Private/NSSpawnDirector.cpp:50-70 | with the completion handler bound once per day the pool was built, one completion retires that many live repairs, floored at zero |
| Spawning.RebindingOverRetires | UnrealProject/Private/NSSpawnDirector.cpp:66 | with two or more bindings and two or more live repairs, one completion leaves fewer live repairs than the one-binding handler does |
| Spawning.SpawnDirector.HandleStainDestroyed | UnrealProject/Private/NSSpawnDirector.cpp:402-405 | a destroyed stain retires one live stain and nothing else changes |
| Spawning.SpawnDirector.HandleShardDestroyed | UnrealProject/Private/NSSpawnDirector.cpp:427-432 | a destroyed shard retires one live shard and nothing else changes |
| Spawning.SpawnDirector.UpdateStage | UnrealProject/Private/NSSpawnDirector.cpp:142-148 | the stage is the one the schedule assigns to the elapsed time |
| Spawning.SpawnDirector.AdvanceClock | UnrealProject/Private/NSSpawnDirector.cpp:125-133 | the elapsed time grows by the tick's delta and the stage follows it; the pool is untouched |
| Spawning.SpawnDirector.TrySpawnPassenger | UnrealProject/Private/NSSpawnDirector.cpp:166-179 | a passenger spawns exactly when below quota, with a spawn point, a class and an engine spawn; only then are both tallies bumped |
| Spawning.SpawnDirector.SpawnStainAtPoint | UnrealProject/Private/NSSpawnDirector.cpp:327-353 | a stain is placed exactly on the server with a stain class and an engine spawn, with the type PickTypeForPoint gives for the point |
| Spawning.SpawnDirector.TrySpawnStain | UnrealProject/Private/NSSpawnDirector.cpp:191-246 | a stain spawns exactly when below quota, with points, a class and a spawn; it is placed with the picked type, then retyped by the tag scan; only then are both tallies bumped |
| Spawning.SpawnDirector.TrySpawnShard | UnrealProject/Private/NSSpawnDirector.cpp:407-425 | a shard spawns exactly when below quota, with a spawn point, a class and an engine spawn; only then are both tallies bumped |
| Spawning.SpawnDirector.PassengerStep | UnrealProject/Private/NSSpawnDirector.cpp:155 | the passenger attempt of a round: it succeeds as KindSucceeds says, is counted with its next time pushed back, and leaves the pool alone |
| Spawning.SpawnDirector.StainStep | UnrealProject/Private/NSSpawnDirector.cpp:156 | the stain attempt of a round: it succeeds as KindSucceeds says, is counted with its next time pushed back, and leaves the pool alone |
| Spawning.SpawnDirector.RepairStep | UnrealProject/Private/NSSpawnDirector.cpp:157 | the repair attempt of a round: it succeeds as KindSucceeds says, is counted, and breaks one pool fixture as ActivatedFlags says |
| Spawning.SpawnDirector.ShardStep | UnrealProject/Private/NSSpawnDirector.cpp:158 | the shard attempt of a round: it succeeds as KindSucceeds says, is counted with its next time pushed back, and leaves the pool alone |
| Spawning.SpawnDirector.TrySpawnTick | UnrealProject/Private/NSSpawnDirector.cpp:150-164 | a round's outcome, the director's new fields and the pool's flags are RoundOutcome, RoundAfter and RoundFlags of the old state, which the lemmas above characterise |
| Spawning.SpawnDirector.Tick | UnrealProject/Private/NSSpawnDirector.cpp:125-140 | an inactive or client director does nothing; an active server director advances its clock and stage, then runs one spawn round at the new time |
| Spawning.SpawnDirector.DeactivateAllWork | UnrealProject/Private/NSSpawnDirector.cpp:360-398 | on the server every broken pool fixture is fixed and out of QTE, so none is broken and the cap holds, and the alive tallies become Swept of the leftovers destroyed |
| Spawning.SpawnDirector.ResetRepairs | UnrealProject/Private/NSSpawnDirector.cpp:362-374 | on the server every broken pool fixture is fixed and leaves QTE, working fixtures are untouched, and no fixture is broken afterwards |
| Spawning.SpawnDirector.DestroyLeftovers | UnrealProject/Private/NSSpawnDirector.cpp:376-396 | destroying the leftover stains and shards one by one, each reporting back, leaves the alive tallies exactly as Swept says |
| Phases.ReadyPhase | UnrealProject/Private/NSGameModeBase.cpp:268-295 | the lobby moves to Starting only from Waiting with everyone ready, back to Waiting only from Starting when not, and other phases stay |
| Phases.PenalizedScore | UnrealProject/Private/NSGameModeBase.cpp:404-421 | without a penalty or a director the score is kept, and leftover work never raises it |
| Phases.NextReputation | UnrealProject/Private/NSGameModeBase.cpp:404-421 | reputation never goes below zero, and it rises exactly when the day's score is non-negative |
| Phases.CloseDay | UnrealProject/Private/NSGameModeBase.cpp:509-589 | the run goes on to the next day exactly when reputation is positive and the last day is not reached; otherwise it ends on the same day |
| Phases.RunStaysValid | UnrealProject/Private/NSGameModeBase.cpp:509-589 | a run of days keeps the day within 1..7 and reputation non-negative, and never moves the day back |
| Phases.RunEndsByLastDay | UnrealProject/Private/NSGameModeBase.h:78 | any run of enough days ends by day seven |
| Phases.SteadyRunClears | UnrealProject/Private/NSGameModeBase.cpp:404-421 | a run with no negative day scores from positive reputation reaches day seven, gaining one reputation per day |
| Phases.BadFirstDayEndsRun | UnrealProject/Private/NSGameModeBase.cpp:404-421 | a negative score on day one takes reputation 1 to 0 and ends the run on day one |
| Phases.GameMode.constructor | UnrealProject/Private/NSGameModeBase.cpp:26-34 | a new game mode has no director, no players, no ready players, open joins and no timer armed, and satisfies the mode invariant |
| Phases.GameMode.NotifyPlayerReadyState | UnrealProject/Private/NSGameModeBase.cpp:268-295 | with no player or a locked lobby nothing changes; otherwise the ready set is updated and the phase follows ReadyPhase, starting or cancelling the countdown |
| Phases.GameMode.FollowReadiness | UnrealProject/Private/NSGameModeBase.cpp:282-294 | the phase becomes ReadyPhase of the counts, with the countdown started or cancelled to match |
| Phases.GameMode.RecordReady | UnrealProject/Private/NSGameModeBase.cpp:273-281 | the player joins or leaves the ready set, and the replicated counts equal the set sizes |
| Phases.GameMode.BeginStartCountdown | UnrealProject/Private/NSGameModeBase.cpp:352-362 | joins lock, the countdown timer is armed, the phase is Starting and the countdown shows five seconds |
| Phases.GameMode.CancelStartCountdown | UnrealProject/Private/NSGameModeBase.cpp:378-387 | joins unlock, the countdown timer stops, the phase is Waiting and the countdown shows zero |
| Phases.GameMode.TickStartCountdown | UnrealProject/Private/NSGameModeBase.cpp:364-376 | above one second the countdown drops by one; at one or below it reaches zero and the work phase starts |
| Phases.GameMode.StartWorkPhase | UnrealProject/Private/NSGameModeBase.cpp:303-332 | ready input locks, the phase is InProgress with the round's time left, the work timer is armed and the director's round begins |
| Phases.GameMode.AttachDirector | UnrealProject/Private/NSGameModeBase.cpp:318-331 | the director found in the world is kept; when there is one, its round starts at Early with no fixture broken |
| Phases.GameMode.TickWorkTimer | UnrealProject/Private/NSGameModeBase.cpp:334-350 | above one second the time drops by one and the stage mirrors the director's; at one or below time is zero and the day ends as DayEnded says, penalised on the work left after the sweep |
| Phases.GameMode.StartEndingPhase | UnrealProject/Private/NSGameModeBase.cpp:389-402 | the day ends: phase Ending, director stopped with no broken fixture, score penalised for the work still alive after the sweep, reputation updated and the fade pending |
| Phases.GameMode.CloseRound | UnrealProject/Private/NSGameModeBase.cpp:389-399 | the phase becomes Ending; the director is stopped, the stage is Inactive, and the alive tallies are those Swept leaves for the evaluation |
| Phases.GameMode.StopDirector | UnrealProject/Private/NSGameModeBase.cpp:393-397 | the director's loop ends and all its work is deactivated: on the server it is inactive with no broken fixture, its pool is kept and its alive tallies are Swept |
| Phases.GameMode.EvaluateDay | UnrealProject/Private/NSGameModeBase.cpp:404-421 | the day score becomes PenalizedScore of the leftover work, and reputation becomes NextReputation of that score |
| Phases.GameMode.FadeFinished | UnrealProject/Private/NSGameModeBase.cpp:439-457 | when the fade ends the next day is set up as NextDayReady says |
| Phases.GameMode.ResetForNextDay | UnrealProject/Private/NSGameModeBase.cpp:509-589 | timers stop and the director is stopped; the record moves to the next day with zero score, open joins and phase Waiting, or stays Ending when the run is over |
| Phases.GameMode.CloseRecord | UnrealProject/Private/NSGameModeBase.cpp:540-589 | ready state clears; the day, score, lock and phase follow CloseDay of the old day and reputation |
| Phases.GameMode.PreLogin | UnrealProject/Private/NSGameModeBase.cpp:618-644 | a join is accepted exactly when no earlier error, the joins are open and the server is below capacity; otherwise the matching error is returned |
| Phases.GameMode.PostLogin | UnrealProject/Private/NSGameModeBase.cpp:185-218 | the player is listed; admission holds exactly within capacity, and then the player count is refreshed and a pending empty shutdown cancelled |
| Phases.GameMode.Logout | UnrealProject/Private/NSGameModeBase.cpp:220-243 | the intended handler: with the leaver dropped first, the player and ready sets lose the player, both counts match them, and a server left empty schedules its shutdown when configured to |
| Phases.GameMode.LogoutAsWritten | UnrealProject/Private/NSGameModeBase.cpp:220-243 | the handler as written, with the leaver still listed: the published count stays one above the remaining players, and the leaver's own logout never arms the empty shutdown |
| Phases.GameMode.LogoutHandler | UnrealProject/Private/NSGameModeBase.cpp:220-243 | over the player list as it stands, the count is published from it, the ready set loses the player and its count matches, and an empty list arms the shutdown when configured to |
| Phases.GameMode.ForgetPlayer | UnrealProject/Private/NSGameModeBase.cpp:220-243 | the player list loses exactly the leaving player, one fewer when they were listed |
| Phases.GameMode.RemoveReady | UnrealProject/Private/NSGameModeBase.cpp:228-238 | the ready set loses the leaving player and nothing else |
| Phases.GameMode.MaybeScheduleEmptyShutdown | UnrealProject/Private/NSGameModeBase.cpp:245-257 | the shutdown timer is armed once the server is empty and configured to shut down, and stays armed if it was |
| Phases.GameMode.DoEmptyShutdown | UnrealProject/Private/NSGameModeBase.cpp:259-266 | the timer fires once; the server exits only if it is still empty, and only when configured to |
| Phases.GameMode.AddScoreStain | UnrealProject/Private/NSGameModeBase.cpp:591-597 | the day score grows by the per-stain score times the count |
| Phases.GameMode.AddScoreRepair | UnrealProject/Private/NSGameModeBase.cpp:599-605 | the day score grows by the per-repair score times the count |
| Phases.StartDirectorRound | UnrealProject/Private/NSGameModeBase.cpp:318-331 | the located director begins a 600-second round; on the server its pool is rebuilt with no fixture broken |
| Phases.DefaultModeSound | UnrealProject/Private/NSGameModeBase.h:69-126 | by default leftover work costs nothing, an empty server shuts down after a non-negative delay, and four players fit |
| Phases.JoinsClosedDuringRound | UnrealProject/Private/NSGameModeBase.cpp:618-644 | from the countdown until the day ends, a join is refused as a game in progress |
| Phases.LobbyAdmitsUntilFull | UnrealProject/Private/NSGameModeBase.cpp:618-644 | in the lobby, a join is accepted exactly while the server is below capacity |
| Cleaning.SpeedFor | UnrealProject/Private/PlayerCharacter.cpp:529-536 | the walk speed is at least the walking speed, and is the running speed exactly while sprinting |
| Cleaning.SlotChoice | UnrealProject/Private/PlayerCharacter.cpp:576-599 | pressing a slot equips that item, or unequips when it is already held |
| Cleaning.SlotPressedTwice | UnrealProject/Private/PlayerCharacter.cpp:576-599 | pressing the same slot twice restores the holder of that item and equips it otherwise |
| Cleaning.MopTargetChoice | UnrealProject/Private/PlayerCharacter.cpp:895-939 | a near client-picked target wins; otherwise the server's own search result is used |
| Cleaning.PlayerCharacter.constructor | UnrealProject/Private/PlayerCharacter.h:113-119 | a new character holds nothing, is not cleaning, is unlocked, walks at the walking speed and satisfies the character invariant |
| Cleaning.PlayerCharacter.InputEquipSlot1 | UnrealProject/Private/PlayerCharacter.cpp:576-587 | while not locked the vacuum slot toggles as SlotChoice says; a locked character keeps its equipment |
| Cleaning.PlayerCharacter.InputEquipSlot2 | UnrealProject/Private/PlayerCharacter.cpp:589-599 | while not locked the mop slot toggles as SlotChoice says; a locked character keeps its equipment |
| Cleaning.PlayerCharacter.SetEquip | UnrealProject/Private/PlayerCharacter.cpp:601-613 | the server changes equipment only while the character is not locked in an action |
| Cleaning.PlayerCharacter.OnRepCleanState | UnrealProject/Private/PlayerCharacter.cpp:782-789 | movement input is enabled exactly when the character is not cleaning |
| Cleaning.PlayerCharacter.BeginClean | UnrealProject/Private/PlayerCharacter.cpp:683-720 | mopping starts on the found stain only when MopStarts allows it, giving the Mopped state; otherwise nothing changes |
| Cleaning.PlayerCharacter.BeginCleanWithTarget | UnrealProject/Private/PlayerCharacter.cpp:895-939 | the intended start: the same as BeginClean with the target MopTargetChoice gives, so a rejected pick falls back to the server's own search |
| Cleaning.PlayerCharacter.BeginCleanWithTargetAsWritten | UnrealProject/Private/PlayerCharacter.cpp:895-939 | the start as written: once the guards pass, a rejected pick halts the server with no state kept; an accepted pick starts mopping on it |
| Cleaning.PlayerCharacter.StartMopping | UnrealProject/Private/PlayerCharacter.cpp:705-719 | a free character holding the mop enters the Mopped state on that target |
| Cleaning.PlayerCharacter.EndClean | UnrealProject/Private/PlayerCharacter.cpp:722-742 | mopping ends into the MopEnded state; when not mopping nothing changes |
| Cleaning.PlayerCharacter.MopTick | UnrealProject/Private/PlayerCharacter.cpp:744-766 | a stroke scores exactly when the target is there and now clean; a gone or finished target ends mopping and stops the timer; otherwise nothing changes |
| Cleaning.PlayerCharacter.BeginVacuum | UnrealProject/Private/PlayerCharacter.cpp:941-961 | vacuuming starts only when VacuumStarts allows it: the state is Vacuuming, locked, the field is on and the tick is armed; otherwise nothing changes |
| Cleaning.PlayerCharacter.EndVacuum | UnrealProject/Private/PlayerCharacter.cpp:963-989 | vacuuming ends with the field off, the tick stopped and every shard under suction released; otherwise nothing changes |
| Cleaning.PlayerCharacter.VacuumTick | UnrealProject/Private/PlayerCharacter.cpp:991-1014 | on the server the shards still present and near are collected, and the suction set loses both those and the vanished ones |
| Cleaning.PlayerCharacter.OnVacuumOverlapBegin | UnrealProject/Private/PlayerCharacter.cpp:1056-1073 | suction starts exactly for a valid shard, new to the set, touching an active server-side vacuum, and the set gains exactly that shard |
| Cleaning.PlayerCharacter.OnVacuumOverlapEnd | UnrealProject/Private/PlayerCharacter.cpp:1075-1091 | the suction set never changes here; a stop is broadcast only for a valid shard that is not in the set |
| Cleaning.PlayerCharacter.UpdateMovementSpeedFromState | UnrealProject/Private/PlayerCharacter.cpp:529-536 | the walk speed matches the sprinting flag |
| Cleaning.PlayerCharacter.ServerSetSprinting | UnrealProject/Private/PlayerCharacter.cpp:544-548 | the server takes the requested sprint state and sets the matching speed |
| Cleaning.PlayerCharacter.StartSprinting | UnrealProject/Private/PlayerCharacter.cpp:317-328 | sprinting runs at the running speed at once, and a client also asks the server |
| Cleaning.PlayerCharacter.StopSprinting | UnrealProject/Private/PlayerCharacter.cpp:330-341 | walking resumes at the walking speed at once, and a client also asks the server |
| Cleaning.VacuumActiveIffVacuuming | UnrealProject/Private/PlayerCharacter.cpp:125-133 | for a consistent character the vacuum is active exactly when the clean state is Vacuuming |
| Cleaning.MopRoundTrip | UnrealProject/Private/PlayerCharacter.cpp:683-742 | starting to mop and then ending returns a free character holding the mop to the state it had |
| Dispatch.SubmitRepairInput | UnrealProject/Private/InteractiveActor.cpp:292-315 | a key press completes a repair exactly on a server QTE hit that reaches full progress; only then does the day score gain one repair's worth and a pool fixture retire one live repair at the director; a live repair tally that counted the broken pool fixtures still does |
| Dispatch.PressQteKey | UnrealProject/Private/InteractiveActor.cpp:244-315 | a press completes exactly on a server QTE hit reaching full progress, fixing a fixture that was broken; any other press keeps the broken flag |
| Dispatch.ReportCompletion | UnrealProject/Private/InteractiveActor.cpp:304-314 | the day score gains one repair's worth, and the director retires one live repair exactly when the fixture is in its pool |
| Dispatch.PoolFlagsAfterSubmit | UnrealProject/Private/NSSpawnDirector.cpp:73-84 | when only one pool fixture changed, fixing it lowers the broken count by one and keeping its flag keeps the pool's flags |
| Dispatch.MopTickScoring | UnrealProject/Private/PlayerCharacter.cpp:744-766 | a stroke scores one stain exactly when the target is there and finished, and a scored stroke stops mopping so the stain cannot score again |

## Left out

- GSDK integration (server-active, shutdown, health and maintenance callbacks, pushing connected players) is left out: it is an external hosting service.
- Fades, teleports to the start statue, the loading screen, montages, sounds, meshes, outline materials, widgets and client RPCs are left out. They are presentation; only their effect on replicated state is modelled.
- `ForceEvaluateAndNextDay` (NSGameModeBase.cpp:607-611) is left out. It is a debugging hook that ends the day from any phase and leaves a running start countdown armed, which the mode invariant does not allow.
- `TrySpawnRepair` (NSSpawnDirector.cpp:248-262) is left out. No tick calls it: repairs are activated from the pool by `ActivateRandomRepair`.
- Integer widths are not modelled: `int32` counters and scores are unbounded integers, so overflow is not modelled.
- `float` times and progress values are exact reals, so rounding is not modelled.
- Engine timers are armed flags, not durations, so timer intervals and delays such as `EmptyShutdownDelay` are not modelled as time.
- World queries are parameters of the operations that use them:
  - actors found by tag, spawn points and their tags, and whether an engine spawn succeeds;
  - the mop target search (`Server_FindMopTarget`, `PickNearestMopCandidate`) and the mop's progress on a stain;
  - which shards the vacuum overlaps, which of them are near enough to collect, and which are gone.
- Random choices are caller-supplied rolls: the roll chooses `roll % n`, not a distribution.
- `Spawning.SpawnDirector.OnRepairCompleted` and `Dispatch.SubmitRepairInput` model one binding of the completion callback per pool fixture, so one completion retires one live repair. As written, `BuildRepairPool` binds the callback again on every day's build, and the engine keeps duplicate bindings. From the second day on, one completion therefore retires as many live repairs as there have been builds, and the alive repair tally that the day-end penalty counts falls below the fixtures still broken. See Findings.
- `Phases.GameMode.Logout` is the intended handler, run with the leaving player already off the player list. The engine's teardown order is not part of this model. If the engine still lists the leaver while the handler runs, the handler as written (`LogoutAsWritten`) publishes a count one too high, and the last player's logout never arms the empty-server shutdown. See Findings.
- `Cleaning.PlayerCharacter.BeginCleanWithTarget` models the intended fallback to the server's own search when the client's pick is rejected. As written, the log line before the fallback asks the rejected, null pick for its stain type, which halts the server in any build that keeps that log line and its null check. The halt is modelled separately as `BeginCleanWithTargetAsWritten`; see Findings.
- Null checks on the game state and the engine's `IsLocallyControlled` checks are left out. The game state always exists, and input handlers are modelled for the local player.
- Code compiled only into the dedicated server is modelled as a server build.
- The stain's interface call that sets its material is left out; the stain's type is returned as `StainPlacement`.
- Stains and shards are engine actors outside the model. The end-of-day sweep takes how many of the director's stains and shards are still in the level (`Leftovers`). Each one destroyed reports back to the director at once, as the engine's destroy event does.
- The game mode's fallback of spawning a director from its configured class is not modelled separately: the director found or spawned is the `located` parameter.

## Findings

| source | as written | input that shows it | evidently intended | confidence | as-written member | corrected member |
|---|---|---|---|---|---|---|
| UnrealProject/Private/PlayerCharacter.cpp:914-918 | the log line calls the stain-type getter on `Target` before the fallback search, while `Target` is still null for a rejected pick | an idle character holding the mop sends a pick that is more than 150 units away and outside its overlap, or one that another player has just finished | a rejected pick falls back to the server's own search, as the comment at line 917 and `Server_BeginClean` do | not executed; high for builds that keep the log line | Cleaning.PlayerCharacter.BeginCleanWithTargetAsWritten | Cleaning.PlayerCharacter.BeginCleanWithTarget |
| UnrealProject/Private/NSGameModeBase.cpp:220-257 | the published count and the empty check read the engine's player list inside the handler | the last player leaves a server configured to shut down when empty, with the engine still listing them during the handler | the count excludes the leaver and the last logout arms the empty shutdown | not executed; medium, since it rests on the engine's teardown order | Phases.GameMode.LogoutAsWritten | Phases.GameMode.Logout |
| UnrealProject/Private/NSSpawnDirector.cpp:66 | each day's pool build binds the completion callback again, so the bindings accumulate | on day 2, two pool fixtures are broken and one repair completes: the alive repair tally drops from 2 to 0 while one fixture is still broken | one completion retires one live repair, so the tally keeps counting the broken pool fixtures | not executed; high, matters only with a positive leftover penalty | Spawning.SpawnDirector.BroadcastCompletionAsWritten | Dispatch.SubmitRepairInput |
