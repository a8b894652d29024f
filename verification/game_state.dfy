/*
 * The replicated round record (ANSGameState): the phase of the day, the
 * work-timer and start-countdown values shown on every HUD, ready-up
 * bookkeeping, the day / reputation / score progression and the memory
 * shard counter. The game mode owns all writes except the two score
 * helpers modelled here.
 */
module Round {
  import opened Types

  /** EGamePhase: lobby, start countdown, work round, day-end. */
  datatype GamePhase = Waiting | Starting | InProgress | Ending

  /** Value view of every replicated field, used to state what an operation changes. */
  datatype Fields = Fields(
    phase: GamePhase,
    timeLeftSec: int,
    readyCount: int,
    totalPlayers: int,
    readyLocked: bool,
    startCountdownSec: int,
    spawnStage: SpawnStage,
    day: int,
    reputation: int,
    dayScore: int,
    memoryShard: int)

  /**
   * The shard counter after adding `delta`: the sum, floored at zero.
   * It is never negative, never below the sum, and differs from the sum
   * only by being raised to zero.
   */
  function ShardTotalAfter(current: int, delta: int): (r: int)
    ensures r >= 0
    ensures r >= current + delta
    ensures r == current + delta || r == 0
  {
    if current + delta < 0 then 0 else current + delta
  }

  /** A net change of the shard counter is announced with the new value. */
  function ShardNotice(before: int, after: int): (n: Option<int>)
    ensures n.Some? <==> before != after
    ensures n.Some? ==> n.value == after
  {
    if after != before then Some(after) else None
  }

  /** The fields of a freshly created round record: lobby of day 1 with reputation 1 and nothing scored. */
  function InitialRecord(): Fields
  {
    Fields(Waiting, 0, 0, 0, false, 0, Inactive, 1, 1, 0, 0)
  }

  class GameState {
    /** Whether this copy is the server's (HasAuthority). */
    const authority: bool

    var phase: GamePhase
    var timeLeftSec: int
    var readyCount: int
    var totalPlayers: int
    var readyLocked: bool
    var startCountdownSec: int
    var spawnStage: SpawnStage
    var day: int
    var reputation: int
    var dayScore: int
    var memoryShard: int

    function Snapshot(): Fields
      reads this
    {
      Fields(phase, timeLeftSec, readyCount, totalPlayers, readyLocked,
             startCountdownSec, spawnStage, day, reputation, dayScore, memoryShard)
    }

    /** Fresh state: the initial record. */
    constructor(authority: bool)
      ensures this.authority == authority
      ensures Snapshot() == InitialRecord()
    {
      this.authority := authority;
      phase := Waiting;
      timeLeftSec := 0;
      readyCount := 0;
      totalPlayers := 0;
      readyLocked := false;
      startCountdownSec := 0;
      spawnStage := Inactive;
      day := 1;
      reputation := 1;
      dayScore := 0;
      memoryShard := 0;
    }

    /** Adds `delta` to today's score; nothing else changes. */
    method AddScore(delta: int)
      modifies this`dayScore
      ensures Snapshot() == old(Snapshot()).(dayScore := old(dayScore) + delta)
    {
      dayScore := dayScore + delta;
    }

    /**
     * Server only: adds `delta` shards, floored at zero. The change
     * notification carries the new value and is raised exactly when the
     * counter actually moved; a client copy ignores the call.
     */
    method AddMemoryShard(delta: int) returns (notified: Option<int>)
      modifies this`memoryShard
      ensures !authority ==> Snapshot() == old(Snapshot()) && notified == None
      ensures authority ==>
        Snapshot() == old(Snapshot()).(memoryShard := ShardTotalAfter(old(memoryShard), delta))
      ensures notified == ShardNotice(old(memoryShard), memoryShard)
    {
      if !authority {
        return None;
      }
      var before := memoryShard;
      memoryShard := ShardTotalAfter(before, delta);
      notified := ShardNotice(before, memoryShard);
    }
  }
}
