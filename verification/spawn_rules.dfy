/*
 * The pure rules of the spawn director (NSSpawnDirector): its tuning, the
 * stage schedule of a work round, the per-stage quotas, how a stain's
 * type follows from the tags of its spawn point, and counting over the
 * broken flags of the repair pool.
 */
module SpawnRules {
  import opened Types

  const WallTag: Tag := "Stain_Wall"
  const FloorTag: Tag := "Stain_Floor"
  const ObjectTag: Tag := "Stain_Object"
  /** The default repair-pool tag: fixtures carrying it form the repair pool. */
  const RepairPoolTag: Tag := "Repairable"

  /** The four kinds of work the director hands out. */
  datatype Category = Passenger | Stain | Repair | Shard

  /** FStageQuota: one count per kind, used for quotas and for the spawned / alive tallies. */
  datatype StageQuota = StageQuota(passengerTotal: int, stainTotal: int, repairTotal: int, shardTotal: int)
  {
    function Get(c: Category): int
    {
      match c
      case Passenger => passengerTotal
      case Stain => stainTotal
      case Repair => repairTotal
      case Shard => shardTotal
    }

    /** One more of kind `c`. */
    function Bump(c: Category): (r: StageQuota)
      ensures forall d :: r.Get(d) == Get(d) + (if d == c then 1 else 0)
    {
      match c
      case Passenger => this.(passengerTotal := passengerTotal + 1)
      case Stain => this.(stainTotal := stainTotal + 1)
      case Repair => this.(repairTotal := repairTotal + 1)
      case Shard => this.(shardTotal := shardTotal + 1)
    }

    /** One fewer of kind `c`, never below zero. */
    function Retire(c: Category): (r: StageQuota)
      ensures r.Get(c) == if Get(c) > 0 then Get(c) - 1 else 0
      ensures forall d :: d != c ==> r.Get(d) == Get(d)
    {
      match c
      case Passenger => this.(passengerTotal := if passengerTotal - 1 < 0 then 0 else passengerTotal - 1)
      case Stain => this.(stainTotal := if stainTotal - 1 < 0 then 0 else stainTotal - 1)
      case Repair => this.(repairTotal := if repairTotal - 1 < 0 then 0 else repairTotal - 1)
      case Shard => this.(shardTotal := if shardTotal - 1 < 0 then 0 else shardTotal - 1)
    }

    function BumpIf(c: Category, b: bool): StageQuota
    {
      if b then Bump(c) else this
    }

    predicate NonNegative()
    {
      passengerTotal >= 0 && stainTotal >= 0 && repairTotal >= 0 && shardTotal >= 0
    }
  }

  const NoQuota: StageQuota := StageQuota(0, 0, 0, 0)

  /** FSpawnCooldown: seconds between two successful spawns of one kind. */
  datatype SpawnCooldown = SpawnCooldown(passenger: real, stain: real, repair: real, shard: real)

  /**
   * The director's tunables. The three `...ClassSet` flags say whether an
   * actor class was assigned for passengers, stains and memory shards.
   */
  datatype DirectorConfig = DirectorConfig(
    earlyEndSec: real,
    peakEndSec: real,
    cleanupEndSec: real,
    earlyQuota: StageQuota,
    peakQuota: StageQuota,
    cleanupQuota: StageQuota,
    cooldown: SpawnCooldown,
    maxSimultaneousRepairs: int,
    passengerClassSet: bool,
    stainClassSet: bool,
    shardClassSet: bool,
    repairPoolTag: Option<Tag>)

  /**
   * Whether a fixture with these tags joins the repair pool: it carries
   * the pool tag, or no pool tag is configured and every fixture joins.
   */
  predicate InRepairPool(poolTag: Option<Tag>, tags: seq<Tag>)
  {
    poolTag.None? || poolTag.value in tags
  }

  /** The shipped tuning, with every actor class assigned. */
  function DefaultConfig(): DirectorConfig
  {
    DirectorConfig(120.0, 480.0, 600.0,
                   StageQuota(12, 6, 6, 2), StageQuota(18, 10, 10, 3), StageQuota(8, 6, 6, 2),
                   SpawnCooldown(5.0, 8.0, 10.0, 6.0),
                   2, true, true, true, Some(RepairPoolTag))
  }

  predicate ThresholdsOrdered(cfg: DirectorConfig)
  {
    cfg.earlyEndSec <= cfg.peakEndSec <= cfg.cleanupEndSec
  }

  /** The shipped tuning has ordered stages, positive cooldowns and non-negative quotas. */
  lemma DefaultConfigSound()
    ensures ThresholdsOrdered(DefaultConfig())
    ensures var cd := DefaultConfig().cooldown;
      cd.passenger > 0.0 && cd.stain > 0.0 && cd.repair > 0.0 && cd.shard > 0.0
    ensures DefaultConfig().earlyQuota.NonNegative() && DefaultConfig().peakQuota.NonNegative()
      && DefaultConfig().cleanupQuota.NonNegative()
    ensures DefaultConfig().maxSimultaneousRepairs == 2
    ensures DefaultConfig().repairPoolTag == Some(RepairPoolTag)
  {
  }

  /** UpdateStage: the stage of a round `elapsed` seconds in. */
  function StageAt(cfg: DirectorConfig, elapsed: real): SpawnStage
  {
    if elapsed < cfg.earlyEndSec then Early
    else if elapsed < cfg.peakEndSec then Peak
    else if elapsed < cfg.cleanupEndSec then Cleanup
    else Inactive
  }

  /** With ordered thresholds the stage only moves forward as time passes. */
  lemma StageAtMonotone(cfg: DirectorConfig, t1: real, t2: real)
    requires ThresholdsOrdered(cfg) && t1 <= t2
    ensures StageRank(StageAt(cfg, t1)) <= StageRank(StageAt(cfg, t2))
  {
  }

  /** The shipped schedule hands out work for exactly the 600 s of a work round. */
  lemma DefaultScheduleCoversRound(t: real)
    ensures StageAt(DefaultConfig(), t) == Inactive <==> t >= 600.0
  {
  }

  /** GetQuotaFor: Early and Peak have their own quotas, any other stage uses Cleanup's. */
  function QuotaFor(cfg: DirectorConfig, stage: SpawnStage): StageQuota
  {
    match stage
    case Early => cfg.earlyQuota
    case Peak => cfg.peakQuota
    case _ => cfg.cleanupQuota
  }

  /** The type tags a spawn point carries, as the stain types they allow. */
  predicate HasTypeTag(tags: seq<Tag>)
  {
    WallTag in tags || FloorTag in tags || ObjectTag in tags
  }

  /**
   * GetAllowedStainTypesFromTags: Wall, Floor, Object in that order, each
   * present exactly when its tag is on the point.
   */
  function AllowedStainTypes(tags: seq<Tag>): (r: seq<StainType>)
    ensures Wall in r <==> WallTag in tags
    ensures Floor in r <==> FloorTag in tags
    ensures Object in r <==> ObjectTag in tags
    ensures Untyped !in r
    ensures |r| == 0 <==> !HasTypeTag(tags)
  {
    (if WallTag in tags then [Wall] else [])
    + (if FloorTag in tags then [Floor] else [])
    + (if ObjectTag in tags then [Object] else [])
  }

  /**
   * PickTypeForPoint: a random one (`roll`) of the allowed types, or of all
   * three when the point has no type tag; never Untyped.
   */
  function PickTypeForPoint(tags: seq<Tag>, roll: nat): (t: StainType)
    ensures t != Untyped
    ensures HasTypeTag(tags) ==> t in AllowedStainTypes(tags)
  {
    var allowed := AllowedStainTypes(tags);
    var choices := if |allowed| == 0 then [Wall, Object, Floor] else allowed;
    choices[roll % |choices|]
  }

  /**
   * Every type PickTypeForPoint may return is reached by some roll: each
   * allowed type of a tagged point, and any of the three on an untagged one.
   */
  lemma PickReachesEveryChoice(tags: seq<Tag>, t: StainType)
    requires t != Untyped && (HasTypeTag(tags) ==> t in AllowedStainTypes(tags))
    ensures exists roll: nat :: PickTypeForPoint(tags, roll) == t
  {
    var allowed := AllowedStainTypes(tags);
    if |allowed| == 0 {
      var i := if t == Wall then 0 else if t == Object then 1 else 2;
      assert PickTypeForPoint(tags, i) == t;
    } else {
      var i :| 0 <= i < |allowed| && allowed[i] == t;
      assert i % |allowed| == i;
      assert PickTypeForPoint(tags, i) == t;
    }
  }

  /**
   * The type TrySpawnStain finally gives a stain: that of the first tag, in
   * the point's tag order, that is a type tag; Untyped when there is none.
   */
  function FirstTagType(tags: seq<Tag>): (t: StainType)
    ensures t == Untyped <==> !HasTypeTag(tags)
    ensures t != Untyped ==> TagOf(t) in tags
  {
    if |tags| == 0 then Untyped
    else if tags[0] == WallTag then Wall
    else if tags[0] == FloorTag then Floor
    else if tags[0] == ObjectTag then Object
    else
      assert tags == [tags[0]] + tags[1..];
      FirstTagType(tags[1..])
  }

  /** Tags that are not type tags are skipped: only the first type tag decides. */
  lemma {:induction false} FirstTagTypeSkipsOtherTags(skipped: seq<Tag>, rest: seq<Tag>)
    requires !HasTypeTag(skipped)
    ensures FirstTagType(skipped + rest) == FirstTagType(rest)
  {
    if |skipped| > 0 {
      assert (skipped + rest)[1..] == skipped[1..] + rest;
      assert forall x :: x in skipped[1..] ==> x in skipped;
      FirstTagTypeSkipsOtherTags(skipped[1..], rest);
    } else {
      assert skipped + rest == rest;
    }
  }

  /**
   * The retyping rule: after any tags that name no type, the first type
   * tag decides the stain's type, whatever follows it.
   */
  lemma FirstTypeTagDecides(skipped: seq<Tag>, t: StainType, rest: seq<Tag>)
    requires !HasTypeTag(skipped) && t != Untyped
    ensures FirstTagType(skipped + [TagOf(t)] + rest) == t
  {
    assert skipped + [TagOf(t)] + rest == skipped + ([TagOf(t)] + rest);
    FirstTagTypeSkipsOtherTags(skipped, [TagOf(t)] + rest);
  }

  /** The tag that selects a stain type (Untyped has none and maps to the empty tag). */
  function TagOf(t: StainType): Tag
  {
    match t
    case Wall => WallTag
    case Floor => FloorTag
    case Object => ObjectTag
    case Untyped => ""
  }

  /** When a point carries exactly one type tag, the random pick and the tag scan agree. */
  lemma SingleTypeTagAgrees(tags: seq<Tag>, roll: nat)
    requires |AllowedStainTypes(tags)| == 1
    ensures PickTypeForPoint(tags, roll) == FirstTagType(tags)
  {
  }

  /**
   * Otherwise they can disagree: on a point tagged Wall then Floor the
   * random pick may be Floor while the scan gives Wall, and on a point
   * without type tags the pick is a real type while the scan gives Untyped.
   */
  lemma PickAndScanCanDisagree()
    ensures PickTypeForPoint([WallTag, FloorTag], 1) == Floor
    ensures FirstTagType([WallTag, FloorTag]) == Wall
    ensures PickTypeForPoint(["Spawn_Stain"], 0) == Wall
    ensures FirstTagType(["Spawn_Stain"]) == Untyped
  {
    assert [WallTag, FloorTag][0] == WallTag;
    assert "Spawn_Stain" != WallTag && "Spawn_Stain" != FloorTag && "Spawn_Stain" != ObjectTag;
    assert ["Spawn_Stain"][1..] == [];
  }

  /** GetAliveWorkCount: outstanding repairs, stains and shards; passengers are not work. */
  function AliveWork(alive: StageQuota): int
  {
    alive.repairTotal + alive.stainTotal + alive.shardTotal
  }

  /** The tallies after `n` removals of kind `c`, each one a Retire. */
  function RetireMany(q: StageQuota, c: Category, n: nat): (r: StageQuota)
    ensures forall d :: d != c ==> r.Get(d) == q.Get(d)
    ensures q.Get(c) >= 0 ==> r.Get(c) == if q.Get(c) - n < 0 then 0 else q.Get(c) - n
  {
    if n == 0 then q else RetireMany(q, c, n - 1).Retire(c)
  }

  lemma AliveWorkIgnoresPassengers(alive: StageQuota, passengers: int)
    ensures AliveWork(alive.(passengerTotal := passengers)) == AliveWork(alive)
    ensures alive.NonNegative() ==> AliveWork(alive) >= 0
  {
  }

  // ---- Counting broken fixtures ----

  /** Number of `true` entries (broken fixtures) in a flag sequence. */
  function CountTrue(flags: seq<bool>): nat
  {
    if |flags| == 0 then 0
    else CountTrue(flags[..|flags| - 1]) + (if flags[|flags| - 1] then 1 else 0)
  }

  /** Indices of the `false` entries (working fixtures), in increasing order. */
  function Unbroken(flags: seq<bool>): (r: seq<nat>)
    ensures forall j :: 0 <= j < |r| ==> r[j] < |flags| && !flags[r[j]]
    ensures forall i :: 0 <= i < |flags| && !flags[i] ==> i in r
  {
    if |flags| == 0 then []
    else
      var n := |flags| - 1;
      Unbroken(flags[..n]) + (if flags[n] then [] else [n])
  }

  /** Every entry is either broken or working: the two tallies add up to the pool size. */
  lemma {:induction false} UnbrokenCount(flags: seq<bool>)
    ensures |Unbroken(flags)| + CountTrue(flags) == |flags|
  {
    if |flags| > 0 {
      UnbrokenCount(flags[..|flags| - 1]);
    }
  }

  /** Every fixture broken. */
  predicate AllBroken(flags: seq<bool>)
  {
    forall i :: 0 <= i < |flags| ==> flags[i]
  }

  /** There is no working index exactly when every fixture is broken. */
  lemma {:induction false} UnbrokenEmpty(flags: seq<bool>)
    ensures |Unbroken(flags)| == 0 <==> AllBroken(flags)
  {
    if |flags| > 0 {
      var n := |flags| - 1;
      UnbrokenEmpty(flags[..n]);
      assert forall i :: 0 <= i < n ==> flags[..n][i] == flags[i];
    }
  }

  /** No fixture broken. */
  predicate NoneBroken(flags: seq<bool>)
  {
    forall i :: 0 <= i < |flags| ==> !flags[i]
  }

  /** The count is at most the length, and zero exactly when nothing is broken. */
  lemma {:induction false} CountTrueBounded(flags: seq<bool>)
    ensures CountTrue(flags) <= |flags|
    ensures CountTrue(flags) == 0 <==> NoneBroken(flags)
  {
    if |flags| > 0 {
      var n := |flags| - 1;
      CountTrueBounded(flags[..n]);
      assert forall i :: 0 <= i < n ==> flags[..n][i] == flags[i];
    }
  }

  /** Changing one flag changes the count by exactly the difference at that index. */
  lemma {:induction false} CountTrueUpdate(flags: seq<bool>, k: nat, b: bool)
    requires k < |flags|
    ensures CountTrue(flags[k := b]) == CountTrue(flags) - (if flags[k] then 1 else 0) + (if b then 1 else 0)
  {
    var n := |flags| - 1;
    if k == n {
      assert flags[k := b][..n] == flags[..n];
    } else {
      assert flags[k := b][..n] == flags[..n][k := b];
      CountTrueUpdate(flags[..n], k, b);
    }
  }

  predicate Distinct<T(==)>(s: seq<T>)
  {
    forall i, j :: 0 <= i < j < |s| ==> s[i] != s[j]
  }
}
