/*
 * The wiring between the machines on the server: a fixture whose repair
 * completes awards one repair's score through the game mode and reports
 * the completion to the spawn director, which is subscribed to every
 * fixture of its repair pool; a mop stroke that finishes a stain awards
 * one stain's score.
 */
module Dispatch {
  import opened Types
  import opened Round
  import opened SpawnRules
  import opened QteRepair
  import opened Spawning
  import opened Phases
  import opened Cleaning

  /**
   * A QTE key press on a fixture. A press that completes the repair
   * scores one repair for the day and, when the fixture belongs to the
   * director's pool, retires one live repair at the director. Only a
   * fixture that was broken can complete.
   */
  method SubmitRepairInput(mode: GameMode, fixture: InteractiveActor, pressed: Key) returns (completed: bool)
    requires mode.Valid() && fixture.Valid()
    modifies fixture, mode.gs`dayScore, mode.director
    ensures mode.Valid() && fixture.Valid()
    ensures completed ==> old(fixture.isBroken && fixture.inQteMode) && !fixture.isBroken && !fixture.inQteMode
    ensures completed <==> old(fixture.authority && fixture.inQteMode) && old(fixture.currentPromptKey) == Some(pressed)
                           && HitProgress(old(fixture.repairProgress), fixture.qte) >= 1.0
    ensures mode.gs.dayScore == old(mode.gs.dayScore) + (if completed then mode.cfg.scorePerRepair else 0)
    ensures mode.director != null ==>
      mode.director.alive == if completed && fixture in mode.director.repairPool
                             then old(mode.director.alive).Retire(Repair)
                             else old(mode.director.alive)
    ensures mode.director != null && old(mode.director.RepairTallyTracksPool()) ==> mode.director.RepairTallyTracksPool()
  {
    ghost var before := if mode.director != null then FlagsOf(mode.director.repairPool) else [];
    ghost var wasBroken := fixture.isBroken;
    completed := PressQteKey(fixture, pressed);
    if completed {
      ReportCompletion(mode, fixture);
    }
    if mode.director != null && fixture in mode.director.repairPool {
      PoolFlagsAfterSubmit(mode.director, fixture, before, wasBroken);
    }
  }

  /**
   * The key press on the fixture, seen from outside: whether it completed
   * the repair, and that only a completion changes the broken flag.
   */
  method PressQteKey(fixture: InteractiveActor, pressed: Key) returns (completed: bool)
    requires fixture.Valid()
    modifies fixture
    ensures fixture.Valid()
    ensures completed ==> old(fixture.isBroken && fixture.inQteMode) && !fixture.isBroken && !fixture.inQteMode
    ensures !completed ==> fixture.isBroken == old(fixture.isBroken)
    ensures completed <==> old(fixture.authority && fixture.inQteMode) && old(fixture.currentPromptKey) == Some(pressed)
                           && HitProgress(old(fixture.repairProgress), fixture.qte) >= 1.0
  {
    completed := fixture.SubmitQteInput(pressed);
  }

  /**
   * A completed repair reaches the game mode, which scores it, and, for a
   * fixture of the director's pool, the director, which retires one live
   * repair.
   */
  method ReportCompletion(mode: GameMode, fixture: InteractiveActor)
    requires mode.Valid()
    modifies mode.gs`dayScore, mode.director
    ensures mode.Valid()
    ensures mode.gs.dayScore == old(mode.gs.dayScore) + mode.cfg.scorePerRepair
    ensures mode.director != null ==> mode.director.repairPool == old(mode.director.repairPool)
    ensures mode.director != null ==>
      mode.director.alive == if fixture in mode.director.repairPool
                             then old(mode.director.alive).Retire(Repair)
                             else old(mode.director.alive)
  {
    mode.AddScoreRepair(1);
    if mode.director != null && fixture in mode.director.repairPool {
      mode.director.OnRepairCompleted();
    }
  }

  /**
   * Once only `fixture` of the pool has changed, its broken flag alone
   * decides the broken count: fixing a broken pool fixture lowers it by
   * one, and keeping the flag keeps it.
   */
  lemma PoolFlagsAfterSubmit(d: SpawnDirector, fixture: InteractiveActor, before: seq<bool>, wasBroken: bool)
    requires Distinct(d.repairPool) && fixture in d.repairPool && |before| == |d.repairPool|
    requires forall i :: 0 <= i < |before| && d.repairPool[i] != fixture ==> before[i] == d.repairPool[i].isBroken
    requires forall i :: 0 <= i < |before| && d.repairPool[i] == fixture ==> before[i] == wasBroken
    ensures wasBroken && !fixture.isBroken ==> CountTrue(FlagsOf(d.repairPool)) == CountTrue(before) - 1
    ensures wasBroken == fixture.isBroken ==> FlagsOf(d.repairPool) == before
  {
    var pool := d.repairPool;
    var k :| 0 <= k < |pool| && pool[k] == fixture;
    FlagsAfterOneChange(pool, before, k);
    CountTrueUpdate(before, k, fixture.isBroken);
  }

  /**
   * One mop stroke on the server. A stroke that finishes the stain scores
   * one stain for the day and stops the mop timer, so the same stain
   * cannot score again.
   */
  method MopTickScoring(mode: GameMode, pc: PlayerCharacter, targetGone: bool, finished: bool) returns (scored: bool)
    requires mode.Valid() && pc.Valid() && pc.mopTickArmed
    modifies pc`mopTarget, pc`cleanState, pc`actionLocked, pc`movementInputEnabled, pc`mopTickArmed,
             mode.gs`dayScore
    ensures mode.Valid() && pc.Valid()
    ensures scored <==> !targetGone && finished
    ensures mode.gs.dayScore == old(mode.gs.dayScore) + (if scored then mode.cfg.scorePerStain else 0)
    ensures scored ==> !pc.mopTickArmed && pc.cleanState == NotCleaning && !pc.actionLocked
  {
    scored := pc.MopTick(targetGone, finished);
    if scored {
      mode.AddScoreStain(1);
    }
  }
}
