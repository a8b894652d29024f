/*
 * The spawn director (ANSSpawnDirector): a server-only actor that, while a
 * work round runs, advances its clock every frame, moves through the
 * Early / Peak / Cleanup stages and, per kind of work, spawns passengers,
 * stains and memory shards and breaks fixtures of its repair pool, each
 * kind under a per-stage quota and a cooldown. Alive counters go down as
 * work is destroyed or repaired.
 *
 * World queries are inputs: the actors in the level, how many tagged spawn
 * points exist, which point and type a random draw picks, and whether the
 * engine managed to spawn the actor.
 */
module Spawning {
  import opened Types
  import opened SpawnRules
  import opened QteRepair

  /** A fixture's state after it is taken into the pool with authority (`admitted`): working, no progress, no QTE. */
  function Admitted(s: RepairFields, admitted: bool): (r: RepairFields)
    ensures admitted ==> !r.isBroken && r.progress == 0.0 && !r.inQteMode
    ensures r.(isBroken := s.isBroken, progress := s.progress, inQteMode := s.inQteMode) == s
    ensures !admitted ==> r == s
  {
    if admitted then s.(isBroken := false, progress := 0.0, inQteMode := false) else s
  }

  /** The broken flags of a sequence of fixtures, index by index. */
  function FlagsOf(pool: seq<InteractiveActor>): (r: seq<bool>)
    reads pool
    ensures |r| == |pool|
    ensures forall i :: 0 <= i < |pool| ==> r[i] == pool[i].isBroken
  {
    seq(|pool|, i requires 0 <= i < |pool| reads pool => pool[i].isBroken)
  }

  /**
   * The fixtures of `world` that join the repair pool, in order: those
   * carrying the pool tag, or all of them when no pool tag is set.
   */
  function Tagged(world: seq<InteractiveActor>, poolTag: Option<Tag>): (r: seq<InteractiveActor>)
    ensures forall i :: 0 <= i < |r| ==> r[i] in world && InRepairPool(poolTag, r[i].tags)
    ensures forall i :: 0 <= i < |world| && InRepairPool(poolTag, world[i].tags) ==> world[i] in r
  {
    if |world| == 0 then []
    else
      var n := |world| - 1;
      Tagged(world[..n], poolTag) + (if InRepairPool(poolTag, world[n].tags) then [world[n]] else [])
  }

  /** With no pool tag set, the pool is every fixture of the level, in order. */
  lemma {:induction false} UntaggedPoolTakesAll(world: seq<InteractiveActor>)
    ensures Tagged(world, None) == world
  {
    if |world| > 0 {
      var n := |world| - 1;
      UntaggedPoolTakesAll(world[..n]);
      assert world[..n] + [world[n]] == world;
    }
  }

  lemma {:induction false} TaggedDistinct(world: seq<InteractiveActor>, poolTag: Option<Tag>)
    requires Distinct(world)
    ensures Distinct(Tagged(world, poolTag))
  {
    if |world| > 0 {
      var n := |world| - 1;
      assert Distinct(world[..n]);
      TaggedDistinct(world[..n], poolTag);
      assert world[n] !in world[..n];
    }
  }

  lemma {:induction false} TaggedSameAuthority(world: seq<InteractiveActor>, poolTag: Option<Tag>, authority: bool)
    requires forall i :: 0 <= i < |world| ==> world[i].authority == authority
    ensures forall i :: 0 <= i < |Tagged(world, poolTag)| ==> Tagged(world, poolTag)[i].authority == authority
  {
    if |world| > 0 {
      TaggedSameAuthority(world[..|world| - 1], poolTag, authority);
    }
  }

  /**
   * When every fixture but the one at index k still has the broken flag it
   * had in `before`, the pool's flags are `before` with entry k replaced.
   */
  lemma FlagsAfterOneChange(pool: seq<InteractiveActor>, before: seq<bool>, k: nat)
    requires k < |pool| == |before|
    requires forall i :: 0 <= i < |pool| && i != k ==> pool[i].isBroken == before[i]
    ensures FlagsOf(pool) == before[k := pool[k].isBroken]
  {
  }

  /**
   * Which working fixture a repair activation breaks: none when `cap` or
   * more are already broken or none is working; otherwise the `roll`-th
   * (cyclically) working one in pool order.
   */
  function RepairPick(flags: seq<bool>, cap: int, roll: nat): (pick: Option<nat>)
    ensures pick.Some? <==> CountTrue(flags) < cap && !AllBroken(flags)
    ensures pick.Some? ==> pick.value < |flags| && !flags[pick.value]
  {
    var cands := Unbroken(flags);
    UnbrokenEmpty(flags);
    if CountTrue(flags) >= cap || |cands| == 0 then None
    else Some(cands[roll % |cands|])
  }

  /** Below the cap, every working fixture of the pool is picked by some roll. */
  lemma RepairPickReachesEveryWorking(flags: seq<bool>, cap: int, k: nat)
    requires CountTrue(flags) < cap && k < |flags| && !flags[k]
    ensures exists roll: nat :: RepairPick(flags, cap, roll) == Some(k)
  {
    var cands := Unbroken(flags);
    assert k in cands;
    var j :| 0 <= j < |cands| && cands[j] == k;
    SmallRollKeepsIndex(j, |cands|);
    assert RepairPick(flags, cap, j) == Some(cands[j]);
  }

  /** A roll below the number of choices selects the choice at that index. */
  lemma SmallRollKeepsIndex(roll: nat, n: nat)
    requires roll < n
    ensures roll % n == roll
  {
  }

  /** The pool's flags after an activation; without authority SetIsBroken is ignored. */
  function ActivatedFlags(flags: seq<bool>, cap: int, roll: nat, authority: bool): (r: seq<bool>)
    ensures |r| == |flags|
  {
    var pick := RepairPick(flags, cap, roll);
    if pick.Some? && authority then flags[pick.value := true] else flags
  }

  /**
   * An activation breaks one working fixture at most and keeps the number
   * of broken fixtures at or below the cap whenever it was there before.
   */
  lemma ActivationRespectsCap(flags: seq<bool>, cap: int, roll: nat, authority: bool)
    ensures var r := ActivatedFlags(flags, cap, roll, authority);
      && CountTrue(r) <= CountTrue(flags) + 1
      && (CountTrue(flags) <= cap ==> CountTrue(r) <= cap)
      && (forall i :: 0 <= i < |flags| && r[i] != flags[i] ==> !flags[i] && r[i])
  {
    var pick := RepairPick(flags, cap, roll);
    if pick.Some? && authority {
      CountTrueUpdate(flags, pick.value, true);
    }
  }

  /** What a passenger or shard spawn attempt finds in the world. */
  datatype SpawnRoll = SpawnRoll(pointCount: nat, spawned: bool)

  /**
   * What a stain spawn attempt finds: the tags of every stain spawn point,
   * the random point and type draws, and whether the engine placed it.
   */
  datatype StainRoll = StainRoll(points: seq<seq<Tag>>, pointPick: nat, typePick: nat, spawned: bool)

  /** The inputs of one frame's spawn attempts. */
  datatype TickRolls = TickRolls(passenger: SpawnRoll, stain: StainRoll, repairPick: nat, shard: SpawnRoll)

  /** A placed stain: its point's tags, the type it was first given and the type it keeps. */
  datatype StainPlacement = StainPlacement(pointTags: seq<Tag>, initialType: StainType, finalType: StainType)

  /** Which kinds were spawned by one round of attempts. */
  datatype TickOutcome = TickOutcome(passenger: bool, stain: bool, repair: bool, shard: bool)
  {
    predicate Nothing()
    {
      !passenger && !stain && !repair && !shard
    }
  }

  const NoSpawns: TickOutcome := TickOutcome(false, false, false, false)

  /** Value view of the director's own fields. */
  datatype DirectorFields = DirectorFields(
    active: bool,
    elapsedSec: real,
    stage: SpawnStage,
    spawned: StageQuota,
    alive: StageQuota,
    nextPassengerTime: real,
    nextStainTime: real,
    nextRepairTime: real,
    nextShardTime: real)

  /** Whether a passenger or shard attempt succeeds: below quota, a point, a class, and the engine spawned it. */
  predicate SimpleSpawnSucceeds(count: int, quota: int, classSet: bool, roll: SpawnRoll)
  {
    count < quota && roll.pointCount > 0 && classSet && roll.spawned
  }

  /** Whether a stain attempt succeeds; placing a stain also needs authority. */
  predicate StainSpawnSucceeds(authority: bool, count: int, quota: int, classSet: bool, roll: StainRoll)
  {
    count < quota && |roll.points| > 0 && classSet && authority && roll.spawned
  }

  /** The next-spawn time of kind `c`. */
  function NextTime(s: DirectorFields, c: Category): real
  {
    match c
    case Passenger => s.nextPassengerTime
    case Stain => s.nextStainTime
    case Repair => s.nextRepairTime
    case Shard => s.nextShardTime
  }

  /** The cooldown of kind `c`. */
  function CooldownOf(cd: SpawnCooldown, c: Category): real
  {
    match c
    case Passenger => cd.passenger
    case Stain => cd.stain
    case Repair => cd.repair
    case Shard => cd.shard
  }

  /** Whether a round spawned kind `c`. */
  function Succeeded(out: TickOutcome, c: Category): bool
  {
    match c
    case Passenger => out.passenger
    case Stain => out.stain
    case Repair => out.repair
    case Shard => out.shard
  }

  /**
   * Whether the attempt at kind `c` in a round at time `now` succeeds,
   * judged on the director's fields `s` and the pool's broken flags
   * before the round: its next-spawn time has come, and the kind's own
   * conditions hold (a quota and the world for passengers, stains and
   * shards; RepairPick for repairs).
   */
  function KindSucceeds(cfg: DirectorConfig, authority: bool, s: DirectorFields, flags: seq<bool>,
                        now: real, rolls: TickRolls, c: Category): bool
  {
    var q := QuotaFor(cfg, s.stage);
    && now >= NextTime(s, c)
    && match c
       case Passenger => SimpleSpawnSucceeds(s.spawned.passengerTotal, q.passengerTotal, cfg.passengerClassSet, rolls.passenger)
       case Stain => StainSpawnSucceeds(authority, s.spawned.stainTotal, q.stainTotal, cfg.stainClassSet, rolls.stain)
       case Repair => RepairPick(flags, cfg.maxSimultaneousRepairs, rolls.repairPick).Some?
       case Shard => SimpleSpawnSucceeds(s.spawned.shardTotal, q.shardTotal, cfg.shardClassSet, rolls.shard)
  }

  /** TrySpawnTick's outcome: nothing in stage Inactive, otherwise each kind on its own. */
  function RoundOutcome(cfg: DirectorConfig, authority: bool, s: DirectorFields, flags: seq<bool>,
                        now: real, rolls: TickRolls): TickOutcome
  {
    if s.stage == Inactive then NoSpawns
    else TickOutcome(KindSucceeds(cfg, authority, s, flags, now, rolls, Passenger),
                     KindSucceeds(cfg, authority, s, flags, now, rolls, Stain),
                     KindSucceeds(cfg, authority, s, flags, now, rolls, Repair),
                     KindSucceeds(cfg, authority, s, flags, now, rolls, Shard))
  }

  /** The fields after a successful spawn of kind `c` at `now`: counted, and its next time pushed back. */
  function Counted(cfg: DirectorConfig, s: DirectorFields, c: Category, now: real): DirectorFields
  {
    var s1 := s.(spawned := s.spawned.Bump(c), alive := s.alive.Bump(c));
    var t := now + CooldownOf(cfg.cooldown, c);
    match c
    case Passenger => s1.(nextPassengerTime := t)
    case Stain => s1.(nextStainTime := t)
    case Repair => s1.(nextRepairTime := t)
    case Shard => s1.(nextShardTime := t)
  }

  /** The pool's broken flags after a round: changed only by a successful repair activation. */
  function RoundFlags(cfg: DirectorConfig, authority: bool, flags: seq<bool>, rolls: TickRolls,
                      out: TickOutcome): seq<bool>
  {
    if out.repair then ActivatedFlags(flags, cfg.maxSimultaneousRepairs, rolls.repairPick, authority) else flags
  }

  /** Counting one kind leaves the success of every other kind's attempt as it was. */
  lemma CountedKeepsOtherKinds(cfg: DirectorConfig, authority: bool, s: DirectorFields, flags: seq<bool>,
                               now: real, rolls: TickRolls, c: Category, ok: bool)
    ensures var s' := if ok then Counted(cfg, s, c, now) else s;
      && s'.stage == s.stage
      && forall d :: d != c ==>
           KindSucceeds(cfg, authority, s', flags, now, rolls, d) == KindSucceeds(cfg, authority, s, flags, now, rolls, d)
  {
  }

  /** The director's fields after a round with outcome `out` at time `now`. */
  function RoundAfter(cfg: DirectorConfig, s: DirectorFields, now: real, out: TickOutcome): DirectorFields
  {
    var s1 := if out.passenger then Counted(cfg, s, Passenger, now) else s;
    var s2 := if out.stain then Counted(cfg, s1, Stain, now) else s1;
    var s3 := if out.repair then Counted(cfg, s2, Repair, now) else s2;
    if out.shard then Counted(cfg, s3, Shard, now) else s3
  }

  /**
   * One kind's part of a round: a success counts kind `c` once and pushes
   * back its next time alone; a failure changes nothing.
   */
  lemma StepEffect(cfg: DirectorConfig, s: DirectorFields, c: Category, now: real, ok: bool)
    ensures var s' := if ok then Counted(cfg, s, c, now) else s;
      && s'.active == s.active && s'.elapsedSec == s.elapsedSec && s'.stage == s.stage
      && forall d ::
           && s'.spawned.Get(d) == s.spawned.Get(d) + (if ok && d == c then 1 else 0)
           && s'.alive.Get(d) == s.alive.Get(d) + (if ok && d == c then 1 else 0)
           && NextTime(s', d) == if ok && d == c then now + CooldownOf(cfg.cooldown, c) else NextTime(s, d)
  {
  }

  /**
   * Which kinds a round spawns: none in stage Inactive; otherwise kind `c`
   * exactly when its own attempt succeeds, which needs its next time to
   * have come.
   */
  lemma RoundSuccess(cfg: DirectorConfig, authority: bool, s: DirectorFields, flags: seq<bool>,
                     now: real, rolls: TickRolls, c: Category)
    ensures var out := RoundOutcome(cfg, authority, s, flags, now, rolls);
      && (s.stage == Inactive ==> out == NoSpawns)
      && (Succeeded(out, c) <==> s.stage != Inactive && KindSucceeds(cfg, authority, s, flags, now, rolls, c))
      && (Succeeded(out, c) ==> now >= NextTime(s, c))
  {
  }

  /**
   * The fields after a round: each kind that succeeded is counted exactly
   * once in both tallies and its next time is `now` plus its cooldown; a
   * kind that failed keeps its tallies and its next time. The clock, the
   * stage and the active flag are not touched.
   */
  lemma {:induction false} RoundAfterEffect(cfg: DirectorConfig, s: DirectorFields, now: real, out: TickOutcome)
    ensures var s' := RoundAfter(cfg, s, now, out);
      && s'.active == s.active && s'.elapsedSec == s.elapsedSec && s'.stage == s.stage
      && (out == NoSpawns ==> s' == s)
      && forall c ::
           && s'.spawned.Get(c) == s.spawned.Get(c) + (if Succeeded(out, c) then 1 else 0)
           && s'.alive.Get(c) == s.alive.Get(c) + (if Succeeded(out, c) then 1 else 0)
           && NextTime(s', c) == if Succeeded(out, c) then now + CooldownOf(cfg.cooldown, c) else NextTime(s, c)
  {
    var s1 := if out.passenger then Counted(cfg, s, Passenger, now) else s;
    var s2 := if out.stain then Counted(cfg, s1, Stain, now) else s1;
    var s3 := if out.repair then Counted(cfg, s2, Repair, now) else s2;
    StepEffect(cfg, s, Passenger, now, out.passenger);
    StepEffect(cfg, s1, Stain, now, out.stain);
    StepEffect(cfg, s2, Repair, now, out.repair);
    StepEffect(cfg, s3, Shard, now, out.shard);
  }

  /**
   * The quota gate: a passenger, stain or shard spawn needs its count below
   * the current stage's quota, so a count within the quota stays within it.
   */
  lemma QuotaGate(cfg: DirectorConfig, authority: bool, s: DirectorFields, flags: seq<bool>,
                  now: real, rolls: TickRolls, c: Category)
    requires c != Repair
    ensures var out := RoundOutcome(cfg, authority, s, flags, now, rolls);
      var q := QuotaFor(cfg, s.stage).Get(c);
      && (Succeeded(out, c) ==> s.spawned.Get(c) < q)
      && (s.spawned.Get(c) <= q ==> RoundAfter(cfg, s, now, out).spawned.Get(c) <= q)
  {
    var out := RoundOutcome(cfg, authority, s, flags, now, rolls);
    RoundSuccess(cfg, authority, s, flags, now, rolls, c);
    RoundAfterEffect(cfg, s, now, out);
  }

  /**
   * Repairs are not held to the stage quota: with the default tuning a
   * repair is activated in stage Early although a hundred have already
   * been spawned against a quota of six.
   */
  lemma RepairIgnoresQuota()
    ensures var s := DirectorFields(true, 0.0, Early, NoQuota.(repairTotal := 100), NoQuota, 0.0, 0.0, 0.0, 0.0);
      var rolls := TickRolls(SpawnRoll(0, false), StainRoll([], 0, 0, false), 0, SpawnRoll(0, false));
      && s.spawned.repairTotal > QuotaFor(DefaultConfig(), Early).repairTotal
      && RoundOutcome(DefaultConfig(), true, s, [false, false], 0.0, rolls).repair
  {
    var flags := [false, false];
    assert Unbroken(flags)[0] == 0 by { UnbrokenCount(flags); }
    assert CountTrue(flags) == 0 by { CountTrueBounded(flags); }
  }

  /** A round never pushes the number of broken pool fixtures past the cap it started within. */
  lemma RoundKeepsRepairCap(cfg: DirectorConfig, authority: bool, flags: seq<bool>, rolls: TickRolls, out: TickOutcome)
    ensures var r := RoundFlags(cfg, authority, flags, rolls, out);
      && |r| == |flags|
      && CountTrue(r) <= CountTrue(flags) + 1
      && (CountTrue(flags) <= cfg.maxSimultaneousRepairs ==> CountTrue(r) <= cfg.maxSimultaneousRepairs)
  {
    if out.repair {
      ActivationRespectsCap(flags, cfg.maxSimultaneousRepairs, rolls.repairPick, authority);
    }
  }

  /**
   * The stains and memory shards the director spawned that are still in
   * the level when its work is deactivated (each one is bound to report
   * its destruction back to the director).
   */
  datatype Leftovers = Leftovers(stains: nat, shards: nat)

  /**
   * The alive tallies after the end-of-day sweep destroys the `live`
   * leftovers: every destroyed stain or shard retires one of its kind.
   * Only the server sweeps, and a kind only when its actor class is set.
   */
  function Swept(cfg: DirectorConfig, authority: bool, alive: StageQuota, live: Leftovers): (r: StageQuota)
    ensures r.passengerTotal == alive.passengerTotal && r.repairTotal == alive.repairTotal
    ensures alive.NonNegative() ==> r.NonNegative() && AliveWork(r) <= AliveWork(alive)
    ensures !authority || (live.stains == 0 && live.shards == 0) ==> r == alive
  {
    if !authority then alive
    else
      var s := if cfg.stainClassSet then RetireMany(alive, Stain, live.stains) else alive;
      assert s.Get(Passenger) == alive.Get(Passenger) && s.Get(Repair) == alive.Get(Repair) && s.Get(Shard) == alive.Get(Shard);
      var r := if cfg.shardClassSet then RetireMany(s, Shard, live.shards) else s;
      assert r.Get(Passenger) == s.Get(Passenger) && r.Get(Repair) == s.Get(Repair);
      r
  }

  /**
   * When the sweep destroys every stain and shard counted alive, only the
   * live repairs are left: the leftover-work penalty, taken after the
   * sweep, never counts a stain or a shard.
   */
  lemma SweepLeavesOnlyRepairs(cfg: DirectorConfig, alive: StageQuota, live: Leftovers)
    requires cfg.stainClassSet && cfg.shardClassSet && alive.NonNegative()
    requires live.stains >= alive.stainTotal && live.shards >= alive.shardTotal
    ensures AliveWork(Swept(cfg, true, alive, live)) == alive.repairTotal
  {
    var s := RetireMany(alive, Stain, live.stains);
    assert s.Get(Stain) == 0 && s.Get(Shard) == alive.shardTotal;
    assert RetireMany(s, Shard, live.shards).Get(Shard) == 0;
  }

  /**
   * With the completion handler bound on two or more days, one completion
   * retires more than one live repair whenever two or more are alive, so
   * the tally falls below the number of fixtures still broken.
   */
  lemma RebindingOverRetires(alive: StageQuota, bindings: nat)
    requires bindings >= 2 && alive.Get(Repair) >= 2
    ensures alive.Retire(Repair).Get(Repair) == alive.Get(Repair) - 1
    ensures RetireMany(alive, Repair, bindings).Get(Repair) < alive.Get(Repair) - 1
  {
  }

  class SpawnDirector {
    /** Whether this copy is the server's (HasAuthority). */
    const authority: bool
    const cfg: DirectorConfig

    var active: bool
    var elapsedSec: real
    var currentStage: SpawnStage
    var spawned: StageQuota
    var alive: StageQuota
    var nextPassengerTime: real
    var nextStainTime: real
    var nextRepairTime: real
    var nextShardTime: real
    var repairPool: seq<InteractiveActor>

    function Snapshot(): DirectorFields
      reads this`active, this`elapsedSec, this`currentStage, this`spawned, this`alive,
            this`nextPassengerTime, this`nextStainTime, this`nextRepairTime, this`nextShardTime
    {
      DirectorFields(active, elapsedSec, currentStage, spawned, alive,
                     nextPassengerTime, nextStainTime, nextRepairTime, nextShardTime)
    }

    /**
     * Pool entries are distinct fixtures living in the same process as the
     * director; an inactive director is in stage Inactive; tallies are
     * never negative.
     */
    ghost predicate Valid()
      reads this`repairPool, this`active, this`currentStage, this`spawned, this`alive
    {
      && Distinct(repairPool)
      && (forall i :: 0 <= i < |repairPool| ==> repairPool[i].authority == authority)
      && (!active ==> currentStage == Inactive)
      && spawned.NonNegative()
      && alive.NonNegative()
    }

    /** The repair-concurrency bound (never below zero). */
    function RepairCap(): int
    {
      if cfg.maxSimultaneousRepairs < 0 then 0 else cfg.maxSimultaneousRepairs
    }

    /** At most RepairCap() fixtures of the pool are broken. */
    ghost predicate WithinRepairCap()
      reads this, repairPool
    {
      CountTrue(FlagsOf(repairPool)) <= RepairCap()
    }

    constructor(authority: bool, cfg: DirectorConfig)
      ensures this.authority == authority && this.cfg == cfg
      ensures Snapshot() == DirectorFields(false, 0.0, Inactive, NoQuota, NoQuota, 0.0, 0.0, 0.0, 0.0)
      ensures repairPool == []
      ensures Valid() && WithinRepairCap()
    {
      this.authority := authority;
      this.cfg := cfg;
      active := false;
      elapsedSec := 0.0;
      currentStage := Inactive;
      spawned := NoQuota;
      alive := NoQuota;
      nextPassengerTime := 0.0;
      nextStainTime := 0.0;
      nextRepairTime := 0.0;
      nextShardTime := 0.0;
      repairPool := [];
    }

    function GetStage(): SpawnStage
      reads this
    {
      currentStage
    }

    /** The director only works on the server and while a round runs. */
    function IsServerActive(): bool
      reads this
    {
      authority && active
    }

    function GetAliveWorkCount(): int
      reads this
    {
      AliveWork(alive)
    }

    /**
     * Collects the tagged fixtures of the level as the new pool, making
     * each of them working (and registering for its completion event).
     */
    method BuildRepairPool(world: seq<InteractiveActor>)
      requires Distinct(world)
      requires forall i :: 0 <= i < |world| ==> world[i].authority == authority
      modifies this`repairPool, world
      ensures repairPool == Tagged(world, cfg.repairPoolTag)
      ensures forall i :: 0 <= i < |repairPool| ==>
        var a := repairPool[i];
        a.Snapshot() == if authority then old(a.Snapshot()).(isBroken := false, progress := 0.0, inQteMode := false)
                        else old(a.Snapshot())
      ensures forall i :: 0 <= i < |world| && !InRepairPool(cfg.repairPoolTag, world[i].tags) ==>
        world[i].Snapshot() == old(world[i].Snapshot())
      ensures authority ==> NoneBroken(FlagsOf(repairPool)) && CountTrue(FlagsOf(repairPool)) == 0
    {
      CollectPool(world);
      forall k | 0 <= k < |repairPool|
        ensures var a := repairPool[k];
          a.Snapshot() == if authority then old(a.Snapshot()).(isBroken := false, progress := 0.0, inQteMode := false)
                          else old(a.Snapshot())
      {
        assert repairPool[k] in world;
      }
      if authority {
        assert NoneBroken(FlagsOf(repairPool));
        CountTrueBounded(FlagsOf(repairPool));
      }
    }

    /** The pass over the level's fixtures, one fixture at a time, in level order. */
    method CollectPool(world: seq<InteractiveActor>)
      requires Distinct(world)
      requires forall i :: 0 <= i < |world| ==> world[i].authority == authority
      modifies this`repairPool, world
      ensures repairPool == Tagged(world, cfg.repairPoolTag)
      ensures forall j :: 0 <= j < |world| ==>
        world[j].Snapshot() == Admitted(old(world[j].Snapshot()), authority && InRepairPool(cfg.repairPoolTag, world[j].tags))
    {
      repairPool := [];
      var i := 0;
      while i < |world|
        invariant 0 <= i <= |world|
        invariant repairPool == Tagged(world[..i], cfg.repairPoolTag)
        invariant forall j :: 0 <= j < |world| ==>
          world[j].Snapshot() == Admitted(old(world[j].Snapshot()), j < i && authority && InRepairPool(cfg.repairPoolTag, world[j].tags))
      {
        assert world[..i + 1][..i] == world[..i];
        AdmitFixture(world[i]);
        i := i + 1;
      }
      assert world[..i] == world;
    }

    /** Takes one fixture of the level into the pool when it qualifies, making it working. */
    method AdmitFixture(a: InteractiveActor)
      requires a.authority == authority
      modifies this`repairPool, a
      ensures repairPool == if InRepairPool(cfg.repairPoolTag, a.tags) then old(repairPool) + [a] else old(repairPool)
      ensures a.Snapshot() == Admitted(old(a.Snapshot()), authority && InRepairPool(cfg.repairPoolTag, a.tags))
    {
      if InRepairPool(cfg.repairPoolTag, a.tags) {
        a.SetIsBroken(false);
        repairPool := repairPool + [a];
      }
    }

    /**
     * Server only: starts a round. The clock, stage, tallies and three of
     * the four next-spawn times restart (the shard time is kept), and the
     * repair pool is rebuilt with every fixture working. The round length
     * is accepted but not used.
     */
    method BeginSpawnLoop(roundLengthSec: real, world: seq<InteractiveActor>)
      requires Valid()
      requires Distinct(world)
      requires forall i :: 0 <= i < |world| ==> world[i].authority == authority
      modifies this`active, this`elapsedSec, this`currentStage, this`spawned, this`alive,
               this`nextPassengerTime, this`nextStainTime, this`nextRepairTime, this`repairPool, world
      ensures Valid()
      ensures !authority ==> Snapshot() == old(Snapshot()) && repairPool == old(repairPool)
      ensures authority ==>
        && Snapshot() == old(Snapshot()).(active := true, elapsedSec := 0.0, stage := Early,
                                           spawned := NoQuota, alive := NoQuota,
                                           nextPassengerTime := 0.0, nextStainTime := 0.0, nextRepairTime := 0.0)
        && repairPool == Tagged(world, cfg.repairPoolTag)
        && NoneBroken(FlagsOf(repairPool))
        && CountTrue(FlagsOf(repairPool)) == 0
        && WithinRepairCap()
      ensures forall i :: 0 <= i < |world| && !InRepairPool(cfg.repairPoolTag, world[i].tags) ==>
        world[i].Snapshot() == old(world[i].Snapshot())
    {
      if !authority {
        return;
      }
      ResetRound();
      BuildRepairPool(world);
      TaggedDistinct(world, cfg.repairPoolTag);
      TaggedSameAuthority(world, cfg.repairPoolTag, authority);
    }

    /** The round restart of BeginSpawnLoop; the shard time is kept. */
    method ResetRound()
      modifies this`active, this`elapsedSec, this`currentStage, this`spawned, this`alive,
               this`nextPassengerTime, this`nextStainTime, this`nextRepairTime
      ensures Snapshot() == old(Snapshot()).(active := true, elapsedSec := 0.0, stage := Early,
                                             spawned := NoQuota, alive := NoQuota,
                                             nextPassengerTime := 0.0, nextStainTime := 0.0, nextRepairTime := 0.0)
    {
      active := true;
      elapsedSec := 0.0;
      currentStage := Early;
      spawned := NoQuota;
      alive := NoQuota;
      nextPassengerTime := 0.0;
      nextStainTime := 0.0;
      nextRepairTime := 0.0;
    }

    /** Server only: stops the round; the stage becomes Inactive. */
    method EndSpawnLoop()
      requires Valid()
      modifies this`active, this`currentStage
      ensures Valid() && repairPool == old(repairPool)
      ensures !authority ==> Snapshot() == old(Snapshot())
      ensures authority ==> Snapshot() == old(Snapshot()).(active := false, stage := Inactive)
    {
      if !authority {
        return;
      }
      active := false;
      currentStage := Inactive;
    }

    /** How many fixtures of the pool are broken right now. */
    method CountActiveRepairs() returns (c: int)
      ensures c == CountTrue(FlagsOf(repairPool))
    {
      ghost var flags := FlagsOf(repairPool);
      c := 0;
      var i := 0;
      while i < |repairPool|
        invariant 0 <= i <= |repairPool|
        invariant c == CountTrue(flags[..i])
      {
        assert flags[..i + 1][..i] == flags[..i];
        if repairPool[i].isBroken {
          c := c + 1;
        }
        i := i + 1;
      }
      assert flags[..i] == flags;
    }

    /**
     * Breaks one working fixture of the pool, picked by `roll` among the
     * working ones in pool order, unless the configured maximum are already
     * broken or none is working. No stage quota applies. Success counts one
     * more repair spawned and alive.
     */
    method ActivateRandomRepair(roll: nat) returns (ok: bool)
      requires Valid()
      modifies this`spawned, this`alive, repairPool
      ensures Valid() && repairPool == old(repairPool)
      ensures ok == RepairPick(old(FlagsOf(repairPool)), cfg.maxSimultaneousRepairs, roll).Some?
      ensures ok ==> Snapshot() == old(Snapshot()).(spawned := old(spawned).Bump(Repair),
                                                     alive := old(alive).Bump(Repair))
      ensures !ok ==> Snapshot() == old(Snapshot())
      ensures FlagsOf(repairPool) == ActivatedFlags(old(FlagsOf(repairPool)), cfg.maxSimultaneousRepairs, roll, authority)
      ensures forall i :: 0 <= i < |repairPool| ==>
        repairPool[i].Snapshot() == old(repairPool[i].Snapshot()).(isBroken := repairPool[i].isBroken)
    {
      var flags := FlagsOf(repairPool);
      if CountTrue(flags) >= cfg.maxSimultaneousRepairs {
        return false;
      }
      var candidates := Unbroken(flags);
      if |candidates| == 0 {
        return false;
      }
      var k := candidates[roll % |candidates|];
      BreakFixture(k);
      CountSpawn(Repair);
      ok := true;
    }

    /** One more of kind `c` spawned and alive. */
    method CountSpawn(c: Category)
      requires Valid()
      modifies this`spawned, this`alive
      ensures Valid()
      ensures Snapshot() == old(Snapshot()).(spawned := old(spawned).Bump(c), alive := old(alive).Bump(c))
    {
      spawned := spawned.Bump(c);
      alive := alive.Bump(c);
    }

    /** SetIsBroken(true) on the pool fixture at index k; the other fixtures are untouched. */
    method BreakFixture(k: nat)
      requires Valid() && k < |repairPool|
      modifies repairPool[k]
      ensures FlagsOf(repairPool) == old(FlagsOf(repairPool))[k := authority || old(repairPool[k].isBroken)]
      ensures forall i :: 0 <= i < |repairPool| ==>
        repairPool[i].Snapshot() == old(repairPool[i].Snapshot()).(isBroken := repairPool[i].isBroken)
    {
      ghost var before := FlagsOf(repairPool);
      var target := repairPool[k];
      target.SetIsBroken(true);
      FlagsAfterOneChange(repairPool, before, k);
    }

    /** A pool fixture finished its repair: one fewer repair alive (never below zero). */
    method OnRepairCompleted()
      requires Valid()
      modifies this`alive
      ensures Valid() && repairPool == old(repairPool)
      ensures Snapshot() == old(Snapshot()).(alive := old(alive).Retire(Repair))
    {
      alive := alive.Retire(Repair);
    }

    /**
     * A completion as the pool binding is written: every BuildRepairPool
     * binds OnRepairCompleted to each pool fixture once more, and the
     * engine keeps every binding, so once the pool has been built on
     * `bindings` days a single completion runs the handler that many times.
     */
    method BroadcastCompletionAsWritten(bindings: nat)
      requires Valid()
      modifies this`alive
      ensures Valid() && repairPool == old(repairPool)
      ensures alive == RetireMany(old(alive), Repair, bindings)
    {
      var k := 0;
      while k < bindings
        invariant k <= bindings && Valid() && repairPool == old(repairPool)
        invariant alive == RetireMany(old(alive), Repair, k)
      {
        OnRepairCompleted();
        k := k + 1;
      }
    }

    /** The live repair tally counts exactly the broken fixtures of the pool. */
    ghost predicate RepairTallyTracksPool()
      reads this`alive, this`repairPool, repairPool
    {
      alive.Get(Repair) == CountTrue(FlagsOf(repairPool))
    }

    /** A stain was destroyed: one fewer stain alive (never below zero). */
    method HandleStainDestroyed()
      requires Valid()
      modifies this`alive
      ensures Valid() && repairPool == old(repairPool)
      ensures Snapshot() == old(Snapshot()).(alive := old(alive).Retire(Stain))
    {
      alive := alive.Retire(Stain);
    }

    /** A memory shard was destroyed: one fewer shard alive (never below zero). */
    method HandleShardDestroyed()
      requires Valid()
      modifies this`alive
      ensures Valid() && repairPool == old(repairPool)
      ensures Snapshot() == old(Snapshot()).(alive := old(alive).Retire(Shard))
    {
      alive := alive.Retire(Shard);
    }

    /** Sets the stage from the clock. */
    method UpdateStage()
      modifies this`currentStage
      ensures currentStage == StageAt(cfg, elapsedSec)
    {
      currentStage := StageAt(cfg, elapsedSec);
    }

    /** The clock part of a frame: elapsed time grows by the frame time and the stage follows it. */
    method AdvanceClock(deltaSec: real)
      requires Valid() && active
      modifies this`elapsedSec, this`currentStage
      ensures Valid()
      ensures Snapshot() == old(Snapshot()).(elapsedSec := old(elapsedSec) + deltaSec,
                                             stage := StageAt(cfg, old(elapsedSec) + deltaSec))
      ensures FlagsOf(repairPool) == old(FlagsOf(repairPool))
      ensures forall i :: 0 <= i < |repairPool| ==> repairPool[i].Snapshot() == old(repairPool[i].Snapshot())
    {
      elapsedSec := elapsedSec + deltaSec;
      UpdateStage();
    }

    /** One passenger, if the current stage's quota allows it and the world can place it. */
    method TrySpawnPassenger(roll: SpawnRoll) returns (ok: bool)
      requires Valid()
      modifies this`spawned, this`alive
      ensures Valid()
      ensures ok == SimpleSpawnSucceeds(old(spawned).passengerTotal,
                                        QuotaFor(cfg, currentStage).passengerTotal, cfg.passengerClassSet, roll)
      ensures Snapshot() == old(Snapshot()).(spawned := old(spawned).BumpIf(Passenger, ok),
                                             alive := old(alive).BumpIf(Passenger, ok))
    {
      var q := QuotaFor(cfg, currentStage);
      if spawned.passengerTotal >= q.passengerTotal {
        return false;
      }
      if roll.pointCount == 0 || !cfg.passengerClassSet {
        return false;
      }
      if !roll.spawned {
        return false;
      }
      CountSpawn(Passenger);
      ok := true;
    }

    /**
     * SpawnStainAtPoint: on the server, with a stain class, places a stain
     * at the point and initialises it with a random allowed type.
     */
    method SpawnStainAtPoint(pointTags: seq<Tag>, typePick: nat, engineSpawned: bool)
      returns (initialType: Option<StainType>)
      ensures initialType.Some? <==> authority && cfg.stainClassSet && engineSpawned
      ensures initialType.Some? ==> initialType.value == PickTypeForPoint(pointTags, typePick)
    {
      if !authority || !cfg.stainClassSet {
        return None;
      }
      var t := PickTypeForPoint(pointTags, typePick);
      if !engineSpawned {
        return None;
      }
      initialType := Some(t);
    }

    /**
     * One stain, if the current stage's quota allows it and a stain point
     * exists. The point is drawn again after the first lookup, and the
     * second draw is the one used. The stain is first initialised with a
     * random allowed type and then re-initialised with the type of the
     * point's first type tag, which is the type it keeps.
     */
    method TrySpawnStain(roll: StainRoll) returns (ok: bool, placed: Option<StainPlacement>)
      requires Valid()
      modifies this`spawned, this`alive
      ensures Valid()
      ensures ok == StainSpawnSucceeds(authority, old(spawned).stainTotal,
                                       QuotaFor(cfg, currentStage).stainTotal, cfg.stainClassSet, roll)
      ensures ok <==> placed.Some?
      ensures ok ==>
        var tags := roll.points[roll.pointPick % |roll.points|];
        placed.value == StainPlacement(tags, PickTypeForPoint(tags, roll.typePick), FirstTagType(tags))
      ensures Snapshot() == old(Snapshot()).(spawned := old(spawned).BumpIf(Stain, ok),
                                             alive := old(alive).BumpIf(Stain, ok))
    {
      var q := QuotaFor(cfg, currentStage);
      if spawned.stainTotal >= q.stainTotal {
        return false, None;
      }
      if |roll.points| == 0 {
        return false, None;
      }
      if !cfg.stainClassSet {
        return false, None;
      }
      var point := roll.points[roll.pointPick % |roll.points|];
      var initial := SpawnStainAtPoint(point, roll.typePick, roll.spawned);
      if initial.None? {
        return false, None;
      }
      var finalType := FirstTagType(point);
      CountSpawn(Stain);
      ok := true;
      placed := Some(StainPlacement(point, initial.value, finalType));
    }

    /** One memory shard, if the current stage's quota allows it and the world can place it. */
    method TrySpawnShard(roll: SpawnRoll) returns (ok: bool)
      requires Valid()
      modifies this`spawned, this`alive
      ensures Valid()
      ensures ok == SimpleSpawnSucceeds(old(spawned).shardTotal,
                                        QuotaFor(cfg, currentStage).shardTotal, cfg.shardClassSet, roll)
      ensures Snapshot() == old(Snapshot()).(spawned := old(spawned).BumpIf(Shard, ok),
                                             alive := old(alive).BumpIf(Shard, ok))
    {
      var q := QuotaFor(cfg, currentStage);
      if spawned.shardTotal >= q.shardTotal {
        return false;
      }
      if roll.pointCount == 0 || !cfg.shardClassSet {
        return false;
      }
      if !roll.spawned {
        return false;
      }
      CountSpawn(Shard);
      ok := true;
    }

    /** The passenger part of a spawn round: attempted once its next-spawn time has come. */
    method PassengerStep(now: real, rolls: TickRolls, ghost flags: seq<bool>) returns (ok: bool)
      requires Valid()
      modifies this`spawned, this`alive, this`nextPassengerTime
      ensures Valid()
      ensures ok == KindSucceeds(cfg, authority, old(Snapshot()), flags, now, rolls, Passenger)
      ensures Snapshot() == if ok then Counted(cfg, old(Snapshot()), Passenger, now) else old(Snapshot())
      ensures FlagsOf(repairPool) == old(FlagsOf(repairPool))
      ensures forall i :: 0 <= i < |repairPool| ==> repairPool[i].Snapshot() == old(repairPool[i].Snapshot())
    {
      ok := false;
      if now >= nextPassengerTime {
        ok := TrySpawnPassenger(rolls.passenger);
        if ok {
          nextPassengerTime := now + cfg.cooldown.passenger;
        }
      }
    }

    /** The stain part of a spawn round. */
    method StainStep(now: real, rolls: TickRolls, ghost flags: seq<bool>) returns (ok: bool)
      requires Valid()
      modifies this`spawned, this`alive, this`nextStainTime
      ensures Valid()
      ensures ok == KindSucceeds(cfg, authority, old(Snapshot()), flags, now, rolls, Stain)
      ensures Snapshot() == if ok then Counted(cfg, old(Snapshot()), Stain, now) else old(Snapshot())
      ensures FlagsOf(repairPool) == old(FlagsOf(repairPool))
      ensures forall i :: 0 <= i < |repairPool| ==> repairPool[i].Snapshot() == old(repairPool[i].Snapshot())
    {
      ok := false;
      if now >= nextStainTime {
        var placed;
        ok, placed := TrySpawnStain(rolls.stain);
        if ok {
          nextStainTime := now + cfg.cooldown.stain;
        }
      }
    }

    /** The repair part of a spawn round. */
    method RepairStep(now: real, rolls: TickRolls, ghost flags: seq<bool>) returns (ok: bool)
      requires Valid() && flags == FlagsOf(repairPool)
      modifies this`spawned, this`alive, this`nextRepairTime, repairPool
      ensures Valid()
      ensures ok == KindSucceeds(cfg, authority, old(Snapshot()), flags, now, rolls, Repair)
      ensures Snapshot() == if ok then Counted(cfg, old(Snapshot()), Repair, now) else old(Snapshot())
      ensures FlagsOf(repairPool) == if ok then ActivatedFlags(flags, cfg.maxSimultaneousRepairs,
                                                                 rolls.repairPick, authority)
                                     else flags
      ensures forall i :: 0 <= i < |repairPool| ==>
        repairPool[i].Snapshot() == old(repairPool[i].Snapshot()).(isBroken := repairPool[i].isBroken)
    {
      ok := false;
      if now >= nextRepairTime {
        ok := ActivateRandomRepair(rolls.repairPick);
        if ok {
          nextRepairTime := now + cfg.cooldown.repair;
        }
      }
    }

    /** The memory-shard part of a spawn round. */
    method ShardStep(now: real, rolls: TickRolls, ghost flags: seq<bool>) returns (ok: bool)
      requires Valid()
      modifies this`spawned, this`alive, this`nextShardTime
      ensures Valid()
      ensures ok == KindSucceeds(cfg, authority, old(Snapshot()), flags, now, rolls, Shard)
      ensures Snapshot() == if ok then Counted(cfg, old(Snapshot()), Shard, now) else old(Snapshot())
      ensures FlagsOf(repairPool) == old(FlagsOf(repairPool))
      ensures forall i :: 0 <= i < |repairPool| ==> repairPool[i].Snapshot() == old(repairPool[i].Snapshot())
    {
      ok := false;
      if now >= nextShardTime {
        ok := TrySpawnShard(rolls.shard);
        if ok {
          nextShardTime := now + cfg.cooldown.shard;
        }
      }
    }

    /** TrySpawnTick: one round of spawn attempts at time `now`. */
    method TrySpawnTick(now: real, rolls: TickRolls) returns (out: TickOutcome)
      requires Valid()
      modifies this`spawned, this`alive, this`nextPassengerTime, this`nextStainTime,
               this`nextRepairTime, this`nextShardTime, repairPool
      ensures Valid()
      ensures out == RoundOutcome(cfg, authority, old(Snapshot()), old(FlagsOf(repairPool)), now, rolls)
      ensures Snapshot() == RoundAfter(cfg, old(Snapshot()), now, out)
      ensures FlagsOf(repairPool) == RoundFlags(cfg, authority, old(FlagsOf(repairPool)), rolls, out)
      ensures forall i :: 0 <= i < |repairPool| ==>
        repairPool[i].Snapshot() == old(repairPool[i].Snapshot()).(isBroken := repairPool[i].isBroken)
    {
      out := NoSpawns;
      if currentStage == Inactive {
        return;
      }
      ghost var s0 := Snapshot();
      ghost var flags := FlagsOf(repairPool);
      var passenger := PassengerStep(now, rolls, flags);
      CountedKeepsOtherKinds(cfg, authority, s0, flags, now, rolls, Passenger, passenger);
      ghost var s1 := Snapshot();
      var stain := StainStep(now, rolls, flags);
      CountedKeepsOtherKinds(cfg, authority, s1, flags, now, rolls, Stain, stain);
      ghost var s2 := Snapshot();
      var repair := RepairStep(now, rolls, flags);
      CountedKeepsOtherKinds(cfg, authority, s2, flags, now, rolls, Repair, repair);
      var shard := ShardStep(now, rolls, flags);
      out := TickOutcome(passenger, stain, repair, shard);
    }

    /**
     * The per-frame update. It does nothing unless the director is the
     * server's and a round is active; otherwise the clock advances by the
     * frame time, the stage follows the clock, and one round of spawn
     * attempts runs at the new time.
     */
    method Tick(deltaSec: real, rolls: TickRolls) returns (out: TickOutcome)
      requires Valid()
      modifies this`elapsedSec, this`currentStage, this`spawned, this`alive, this`nextPassengerTime,
               this`nextStainTime, this`nextRepairTime, this`nextShardTime, repairPool
      ensures Valid()
      ensures !old(IsServerActive()) ==>
        Snapshot() == old(Snapshot()) && out.Nothing()
        && forall i :: 0 <= i < |repairPool| ==> repairPool[i].Snapshot() == old(repairPool[i].Snapshot())
      ensures old(IsServerActive()) ==>
        var clocked := old(Snapshot()).(elapsedSec := old(elapsedSec) + deltaSec,
                                        stage := StageAt(cfg, old(elapsedSec) + deltaSec));
        && out == RoundOutcome(cfg, authority, clocked, old(FlagsOf(repairPool)), clocked.elapsedSec, rolls)
        && Snapshot() == RoundAfter(cfg, clocked, clocked.elapsedSec, out)
        && FlagsOf(repairPool) == RoundFlags(cfg, authority, old(FlagsOf(repairPool)), rolls, out)
        && forall i :: 0 <= i < |repairPool| ==>
             repairPool[i].Snapshot() == old(repairPool[i].Snapshot()).(isBroken := repairPool[i].isBroken)
    {
      out := NoSpawns;
      if !IsServerActive() {
        return;
      }
      AdvanceClock(deltaSec);
      out := TrySpawnTick(elapsedSec, rolls);
    }

    /**
     * Server only: every broken pool fixture is made working again (which
     * also ends any QTE on it), then the `live` leftover stains and shards
     * are destroyed, each reporting back to the alive tallies.
     */
    method DeactivateAllWork(live: Leftovers)
      requires Valid()
      modifies repairPool, this`alive
      ensures Valid() && alive == Swept(cfg, authority, old(alive), live)
      ensures forall i :: 0 <= i < |repairPool| ==>
        repairPool[i].Snapshot() ==
          (if authority && old(repairPool[i].isBroken)
           then old(repairPool[i].Snapshot()).(isBroken := false, progress := 0.0, inQteMode := false)
           else old(repairPool[i].Snapshot()))
      ensures authority ==> CountTrue(FlagsOf(repairPool)) == 0 && WithinRepairCap()
    {
      ResetRepairs();
      DestroyLeftovers(live);
    }

    /** Server only: every broken pool fixture is made working again. */
    method ResetRepairs()
      requires Valid()
      modifies repairPool
      ensures forall i :: 0 <= i < |repairPool| ==>
        repairPool[i].Snapshot() ==
          (if authority && old(repairPool[i].isBroken)
           then old(repairPool[i].Snapshot()).(isBroken := false, progress := 0.0, inQteMode := false)
           else old(repairPool[i].Snapshot()))
      ensures authority ==> CountTrue(FlagsOf(repairPool)) == 0 && WithinRepairCap()
    {
      if !authority {
        return;
      }
      var i := 0;
      while i < |repairPool|
        invariant 0 <= i <= |repairPool|
        invariant forall j :: 0 <= j < |repairPool| ==>
          repairPool[j].Snapshot() ==
            (if j < i && old(repairPool[j].isBroken)
             then old(repairPool[j].Snapshot()).(isBroken := false, progress := 0.0, inQteMode := false)
             else old(repairPool[j].Snapshot()))
      {
        var r := repairPool[i];
        if r.isBroken {
          r.SetIsBroken(false);
        }
        i := i + 1;
      }
      assert CountTrue(FlagsOf(repairPool)) == 0 by {
        assert NoneBroken(FlagsOf(repairPool));
        CountTrueBounded(FlagsOf(repairPool));
      }
    }

    /**
     * Server only: destroys the `live` stains and shards left in the
     * level; each destruction reports back at once through
     * HandleStainDestroyed or HandleShardDestroyed. A kind whose actor
     * class is not set is not searched for.
     */
    method DestroyLeftovers(live: Leftovers)
      requires Valid()
      modifies this`alive
      ensures Valid() && alive == Swept(cfg, authority, old(alive), live)
    {
      if !authority {
        return;
      }
      if cfg.stainClassSet {
        var k := 0;
        while k < live.stains
          invariant k <= live.stains
          invariant Valid() && alive == RetireMany(old(alive), Stain, k)
        {
          HandleStainDestroyed();
          k := k + 1;
        }
      }
      ghost var swept := alive;
      if cfg.shardClassSet {
        var k := 0;
        while k < live.shards
          invariant k <= live.shards
          invariant Valid() && alive == RetireMany(swept, Shard, k)
        {
          HandleShardDestroyed();
          k := k + 1;
        }
      }
    }
  }
}
