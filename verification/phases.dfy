/*
 * The round / phase controller of the server (ANSGameModeBase): players
 * ready up in the lobby, a five-second start countdown runs once everyone
 * is ready (and is cancelled when someone un-readies), a 600-second work
 * round follows with the spawn director pacing the work, and the day ends
 * with scoring into reputation, a fade, and either the next day or the end
 * of the run. The mode also admits or rejects joining players.
 *
 * The replicated values live in the GameState `gs`; the mode writes them.
 * Engine timers are boolean "armed" fields, and each timer callback is a
 * method that may only run while its timer is armed. Fades, teleports,
 * input unlocking, the hosting-service hooks and client RPCs are not state
 * here.
 */
module Phases {
  import opened Types
  import opened Round
  import opened SpawnRules
  import opened QteRepair
  import opened Spawning

  /** The last day of a run. */
  const MaxDays: int := 7
  /** The length of the start countdown, in whole seconds. */
  const CountdownSec: int := 5
  /** The length of a work round, in whole seconds. */
  const WorkRoundSec: int := 600

  const GameInProgress: string := "GAME_IN_PROGRESS"
  const GameFull: string := "GAME_FULL"

  /** The game mode's tunables. */
  datatype ModeConfig = ModeConfig(
    maxPlayers: int,
    scorePerStain: int,
    scorePerRepair: int,
    penaltyPerLeftover: int,
    shutdownWhenEmpty: bool,
    emptyShutdownDelay: real)

  /** Four players; 5 points per stain, 10 per repair, no leftover penalty; shut down 10 s after the last player leaves. */
  function DefaultMode(): ModeConfig
  {
    ModeConfig(4, 5, 10, 0, true, 10.0)
  }

  /** Everyone present is ready, and someone is present. */
  predicate AllReady(totalPlayers: int, readyCount: int)
  {
    totalPlayers > 0 && readyCount == totalPlayers
  }

  /**
   * The phase after a ready change: the countdown starts from the lobby
   * when everyone is ready, and is abandoned when not everyone is.
   */
  function ReadyPhase(phase: GamePhase, allReady: bool): (p: GamePhase)
    ensures p == Starting && phase != Starting ==> allReady && phase == Waiting
    ensures p == Waiting && phase != Waiting ==> !allReady && phase == Starting
    ensures phase != Waiting && phase != Starting ==> p == phase
  {
    if allReady && phase == Waiting then Starting
    else if !allReady && phase == Starting then Waiting
    else phase
  }

  /** The day's score after the leftover-work penalty, which applies only when it is positive and a director exists. */
  function PenalizedScore(score: int, aliveWork: int, penalty: int, hasDirector: bool): (r: int)
    ensures penalty <= 0 || !hasDirector ==> r == score
    ensures aliveWork >= 0 ==> r <= score
  {
    if penalty > 0 && hasDirector then score - aliveWork * penalty else score
  }

  /**
   * Reputation after a day: it rises exactly when the day's score is not
   * negative, and a non-negative reputation never becomes negative.
   */
  function NextReputation(score: int, reputation: int): (r: int)
    ensures reputation >= 0 ==> r >= 0 && (r > reputation <==> score >= 0)
  {
    if score >= 0 then reputation + 1
    else if reputation - 1 < 0 then 0 else reputation - 1
  }

  /** The run's progress between days: the day number, the reputation, and whether the run is over. */
  datatype Campaign = Campaign(day: int, reputation: int, over: bool)

  predicate CampaignValid(c: Campaign)
  {
    1 <= c.day <= MaxDays && c.reputation >= 0
  }

  /**
   * ResetForNextDay's verdict: the next day starts when reputation is left
   * and the last day has not been played; otherwise the run is over on
   * the same day.
   */
  function CloseDay(c: Campaign): (r: Campaign)
    ensures r.reputation == c.reputation
    ensures !r.over <==> c.reputation > 0 && c.day < MaxDays
    ensures r.day == if r.over then c.day else c.day + 1
  {
    if c.reputation > 0 && c.day < MaxDays then Campaign(c.day + 1, c.reputation, false)
    else Campaign(c.day, c.reputation, true)
  }

  /** A whole day's end: the (penalised) score moves reputation, then the day is closed. */
  function EndOfDay(c: Campaign, score: int): Campaign
  {
    CloseDay(c.(reputation := NextReputation(score, c.reputation)))
  }

  /** The days of a run, each with its final score, played until the run is over. */
  function Run(c: Campaign, scores: seq<int>): Campaign
    decreases |scores|
  {
    if c.over || |scores| == 0 then c
    else Run(EndOfDay(c, scores[0]), scores[1..])
  }

  /** A run keeps its day within 1..MaxDays and its reputation non-negative. */
  lemma {:induction false} RunStaysValid(c: Campaign, scores: seq<int>)
    requires CampaignValid(c)
    ensures CampaignValid(Run(c, scores))
    ensures Run(c, scores).day >= c.day
    decreases |scores|
  {
    if !c.over && |scores| > 0 {
      RunStaysValid(EndOfDay(c, scores[0]), scores[1..]);
    }
  }

  /** Whatever the scores, a run is over once it has had as many days as remain up to MaxDays. */
  lemma {:induction false} RunEndsByLastDay(c: Campaign, scores: seq<int>)
    requires CampaignValid(c)
    requires |scores| >= MaxDays - c.day + 1
    ensures Run(c, scores).over
    decreases |scores|
  {
    if !c.over {
      var next := EndOfDay(c, scores[0]);
      if !next.over {
        RunEndsByLastDay(next, scores[1..]);
      }
    }
  }

  /**
   * A run in which no day scores below zero goes to the last day and ends
   * there, one reputation point richer per day played.
   */
  lemma {:induction false} SteadyRunClears(c: Campaign, scores: seq<int>)
    requires CampaignValid(c) && !c.over && c.reputation >= 1
    requires |scores| == MaxDays - c.day + 1
    requires forall i :: 0 <= i < |scores| ==> scores[i] >= 0
    ensures Run(c, scores) == Campaign(MaxDays, c.reputation + |scores|, true)
    decreases |scores|
  {
    var next := EndOfDay(c, scores[0]);
    if c.day < MaxDays {
      assert forall i :: 0 <= i < |scores[1..]| ==> scores[1..][i] == scores[i + 1];
      SteadyRunClears(next, scores[1..]);
    }
  }

  /** From the starting reputation of 1, a single negative day ends the run on that day with no reputation left. */
  lemma BadFirstDayEndsRun(score: int)
    requires score < 0
    ensures Run(Campaign(1, 1, false), [score]) == Campaign(1, 0, true)
  {
  }

  /** The mode's own mutable fields, as a value. */
  datatype ModeFields = ModeFields(
    lockJoins: bool,
    readySet: set<ActorId>,
    players: set<ActorId>,
    countdownArmed: bool,
    workTickArmed: bool,
    fadePending: bool,
    emptyShutdownArmed: bool,
    exitRequested: bool)

  class GameMode {
    const cfg: ModeConfig
    /** The replicated round record this mode writes. */
    const gs: GameState

    /** The spawn director, once one has been found or spawned. */
    var director: SpawnDirector?
    /** While set, PreLogin turns newcomers away. */
    var lockJoins: bool
    /** The controllers that are ready. */
    var readySet: set<ActorId>
    /** The connected players (the game state's player array). */
    var players: set<ActorId>
    /** StartCountdownHandle, a 1 s looping timer. */
    var countdownArmed: bool
    /** WorkTickHandle, a 1 s looping timer. */
    var workTickArmed: bool
    /** FadeHandle, the one-shot timer that ends the day's fade. */
    var fadePending: bool
    /** EmptyShutdownHandle, the one-shot timer of the empty-server shutdown. */
    var emptyShutdownArmed: bool
    /** The process has been asked to exit. */
    var exitRequested: bool

    function Snapshot(): ModeFields
      reads this`lockJoins, this`readySet, this`players, this`countdownArmed, this`workTickArmed,
            this`fadePending, this`emptyShutdownArmed, this`exitRequested
    {
      ModeFields(lockJoins, readySet, players, countdownArmed, workTickArmed, fadePending,
                 emptyShutdownArmed, exitRequested)
    }

    /** The ready count is the size of the ready set. */
    ghost predicate ReadyValid()
      reads this`readySet, gs`readyCount
    {
      gs.readyCount == |readySet|
    }

    /**
     * The timers and locks follow the phase: the countdown timer runs
     * exactly in phase Starting, with 1..5 seconds left, and the work timer
     * exactly in phase InProgress, with 1..600 seconds left; the fade is
     * pending only in phase Ending; joins are closed from the countdown
     * until the day ends and open in the lobby; ready toggling is locked
     * during the round; the replicated stage is Inactive outside a round
     * and without a director.
     */
    ghost predicate PhaseValid()
      reads this`director, this`lockJoins, this`countdownArmed, this`workTickArmed, this`fadePending,
            gs`phase, gs`startCountdownSec, gs`timeLeftSec, gs`readyLocked, gs`spawnStage
    {
      && (countdownArmed <==> gs.phase == Starting)
      && (workTickArmed <==> gs.phase == InProgress)
      && (fadePending ==> gs.phase == Ending)
      && 0 <= gs.startCountdownSec <= CountdownSec
      && (gs.startCountdownSec > 0 <==> gs.phase == Starting)
      && 0 <= gs.timeLeftSec <= WorkRoundSec
      && (gs.timeLeftSec > 0 <==> gs.phase == InProgress)
      && (gs.phase == Waiting ==> !lockJoins)
      && (gs.phase == Starting || gs.phase == InProgress ==> lockJoins)
      && (gs.phase == InProgress ==> gs.readyLocked)
      && (gs.readyLocked ==> gs.phase == InProgress || gs.phase == Ending)
      && (gs.phase != InProgress || director == null ==> gs.spawnStage == Inactive)
    }

    /**
     * The day stays within 1..MaxDays and reputation is never negative;
     * resting in phase Ending with no fade pending means the run is over.
     */
    ghost predicate RunValid()
      reads this`fadePending, gs`phase, gs`day, gs`reputation
    {
      && 1 <= gs.day <= MaxDays
      && gs.reputation >= 0
      && (gs.phase == Ending && !fadePending ==> gs.reputation == 0 || gs.day == MaxDays)
    }

    /** The controller's invariant. */
    ghost predicate Valid()
      reads this`director, this`lockJoins, this`readySet, this`countdownArmed, this`workTickArmed,
            this`fadePending, this`emptyShutdownArmed, gs`readyCount, gs`phase, gs`startCountdownSec,
            gs`timeLeftSec, gs`readyLocked, gs`day, gs`reputation, gs`spawnStage, director
    {
      && ReadyValid()
      && PhaseValid()
      && RunValid()
      && (director != null ==> director.Valid())
      && (emptyShutdownArmed ==> cfg.shutdownWhenEmpty)
    }

    /** A mode over a fresh round record: lobby, joins open, nobody present, no timers. */
    constructor(cfg: ModeConfig, gs: GameState)
      requires gs.Snapshot() == InitialRecord()
      ensures this.cfg == cfg && this.gs == gs && director == null
      ensures Snapshot() == ModeFields(false, {}, {}, false, false, false, false, false)
      ensures Valid()
    {
      this.cfg := cfg;
      this.gs := gs;
      director := null;
      lockJoins := false;
      readySet := {};
      players := {};
      countdownArmed := false;
      workTickArmed := false;
      fadePending := false;
      emptyShutdownArmed := false;
      exitRequested := false;
    }

    /**
     * A player's ready toggle. Ignored for a missing controller and once
     * readiness is locked; otherwise the ready set gains or loses the
     * player, the counts are refreshed, and the countdown starts from the
     * lobby when everyone is ready or is cancelled when someone is not.
     */
    method NotifyPlayerReadyState(who: Option<ActorId>, ready: bool)
      requires Valid()
      modifies this`readySet, this`lockJoins, this`countdownArmed, gs`readyCount, gs`totalPlayers,
               gs`startCountdownSec, gs`phase
      ensures Valid()
      ensures who.None? || old(gs.readyLocked) ==> unchanged(this) && unchanged(gs)
      ensures who.Some? && !old(gs.readyLocked) ==>
        var r := if ready then old(readySet) + {who.value} else old(readySet) - {who.value};
        var p := ReadyPhase(old(gs.phase), AllReady(|players|, |r|));
        && readySet == r
        && gs.readyCount == |r| && gs.totalPlayers == |players|
        && gs.phase == p
        && countdownArmed == (p == Starting)
        && (p == old(gs.phase) ==> lockJoins == old(lockJoins) && gs.startCountdownSec == old(gs.startCountdownSec))
        && (p != old(gs.phase) ==>
              lockJoins == (p == Starting) && gs.startCountdownSec == (if p == Starting then CountdownSec else 0))
    {
      if who.None? || gs.readyLocked {
        return;
      }
      RecordReady(who.value, ready);
      FollowReadiness();
    }

    /** Starts the countdown when everyone is ready in the lobby, cancels it when someone is not. */
    method FollowReadiness()
      requires Valid()
      modifies this`lockJoins, this`countdownArmed, gs`startCountdownSec, gs`phase
      ensures Valid()
      ensures var p := ReadyPhase(old(gs.phase), AllReady(gs.totalPlayers, gs.readyCount));
        && gs.phase == p
        && countdownArmed == (p == Starting)
        && (p == old(gs.phase) ==> lockJoins == old(lockJoins) && gs.startCountdownSec == old(gs.startCountdownSec))
        && (p != old(gs.phase) ==>
              lockJoins == (p == Starting) && gs.startCountdownSec == (if p == Starting then CountdownSec else 0))
    {
      var allReady := gs.totalPlayers > 0 && gs.readyCount == gs.totalPlayers;
      if allReady {
        if gs.phase == Waiting {
          BeginStartCountdown();
        }
      } else {
        if gs.phase == Starting {
          CancelStartCountdown();
        }
      }
    }

    /** The ready set gains or loses `p`, and both counts are refreshed. */
    method RecordReady(p: ActorId, ready: bool)
      requires Valid()
      modifies this`readySet, gs`readyCount, gs`totalPlayers
      ensures Valid()
      ensures readySet == if ready then old(readySet) + {p} else old(readySet) - {p}
      ensures gs.readyCount == |readySet| && gs.totalPlayers == |players|
    {
      if ready {
        readySet := readySet + {p};
      } else {
        readySet := readySet - {p};
      }
      gs.readyCount := |readySet|;
      gs.totalPlayers := |players|;
    }

    /** Everyone is ready: joins close and a five-second countdown starts. */
    method BeginStartCountdown()
      modifies this`lockJoins, this`countdownArmed, gs`startCountdownSec, gs`phase
      ensures lockJoins && countdownArmed
      ensures gs.startCountdownSec == CountdownSec && gs.phase == Starting
    {
      lockJoins := true;
      gs.startCountdownSec := CountdownSec;
      gs.phase := Starting;
      countdownArmed := true;
    }

    /** Someone is no longer ready: the countdown stops, joins reopen and the lobby resumes. */
    method CancelStartCountdown()
      modifies this`lockJoins, this`countdownArmed, gs`startCountdownSec, gs`phase
      ensures !lockJoins && !countdownArmed
      ensures gs.startCountdownSec == 0 && gs.phase == Waiting
    {
      countdownArmed := false;
      lockJoins := false;
      gs.startCountdownSec := 0;
      gs.phase := Waiting;
    }
  
    /** The director exists only in a consistent state. */
    ghost predicate DirectorOk()
      reads this`director, director
    {
      director != null ==> director.Valid()
    }

    /** The director a round would use: the known one, or else the one the level provides. */
    function RoundDirector(located: SpawnDirector?): SpawnDirector?
      reads this`director
    {
      if director != null then director else located
    }

    /**
     * The moment the start countdown has run out: the lobby state with the
     * countdown timer stopped at zero and readiness locked.
     */
    ghost predicate CountdownElapsed()
      reads this`director, this`lockJoins, this`readySet, this`countdownArmed, this`workTickArmed,
            this`fadePending, this`emptyShutdownArmed, gs`readyCount, gs`phase, gs`startCountdownSec,
            gs`timeLeftSec, gs`readyLocked, gs`day, gs`reputation, gs`spawnStage, director
    {
      && ReadyValid() && RunValid() && DirectorOk()
      && (emptyShutdownArmed ==> cfg.shutdownWhenEmpty)
      && gs.phase == Starting && gs.startCountdownSec == 0 && gs.timeLeftSec == 0
      && !countdownArmed && !workTickArmed && !fadePending
      && gs.readyLocked && lockJoins && gs.spawnStage == Inactive
    }

    /**
     * One second of the start countdown. At zero the countdown timer
     * stops, readiness is locked and the work phase starts.
     */
    method TickStartCountdown(world: seq<InteractiveActor>, located: SpawnDirector?)
      requires Valid() && countdownArmed
      requires director == null ==> HostsRound(located, world)
      requires director != null ==> HostsRound(director, world)
      modifies this`lockJoins, this`countdownArmed, this`workTickArmed, this`director, gs`startCountdownSec,
               gs`readyLocked, gs`dayScore, gs`timeLeftSec, gs`phase, gs`spawnStage, director, located, world
      ensures Valid()
      ensures old(gs.startCountdownSec) > 1 ==>
        && gs.startCountdownSec == old(gs.startCountdownSec) - 1
        && unchanged(this) && gs.phase == Starting && unchanged(gs`readyLocked, gs`dayScore, gs`timeLeftSec, gs`spawnStage)
      ensures old(gs.startCountdownSec) <= 1 ==>
        && gs.startCountdownSec == 0 && !countdownArmed && gs.readyLocked
        && WorkPhaseStarted(old(RoundDirector(located)), world)
    {
      gs.startCountdownSec := if gs.startCountdownSec - 1 < 0 then 0 else gs.startCountdownSec - 1;
      if gs.startCountdownSec <= 0 {
        countdownArmed := false;
        gs.readyLocked := true;
        StartWorkPhase(world, located);
      }
    }

    /**
     * What starting the work phase leaves behind: joins closed, score zero,
     * 600 seconds on the work timer and the timer running; the director is
     * kept (or taken from the level) and, on the server, restarted on the
     * level's fixtures, with the replicated stage Early.
     */
    ghost predicate WorkPhaseStarted(d: SpawnDirector?, world: seq<InteractiveActor>)
      reads this`lockJoins, this`workTickArmed, this`director, gs`dayScore, gs`timeLeftSec, gs`phase, gs`spawnStage, d,
            if d != null then d.repairPool else []
    {
      && lockJoins && workTickArmed && director == d
      && gs.dayScore == 0 && gs.timeLeftSec == WorkRoundSec && gs.phase == InProgress
      && (d != null ==> gs.spawnStage == Early)
      && (d != null && d.authority ==>
            d.active && d.currentStage == Early && d.repairPool == Tagged(world, d.cfg.repairPoolTag)
            && CountTrue(FlagsOf(d.repairPool)) == 0)
    }

    /** The countdown is over: the day's work round begins. */
    method StartWorkPhase(world: seq<InteractiveActor>, located: SpawnDirector?)
      requires CountdownElapsed()
      requires director == null ==> HostsRound(located, world)
      requires director != null ==> HostsRound(director, world)
      modifies this`lockJoins, this`workTickArmed, this`director, gs`dayScore, gs`timeLeftSec, gs`phase,
               gs`spawnStage, director, located, world
      ensures Valid()
      ensures WorkPhaseStarted(old(RoundDirector(located)), world)
    {
      lockJoins := true;
      gs.dayScore := 0;
      gs.timeLeftSec := WorkRoundSec;
      gs.phase := InProgress;
      workTickArmed := true;
      AttachDirector(world, located);
    }

    /** Finds the director if needed and starts its spawn loop for the round. */
    method AttachDirector(world: seq<InteractiveActor>, located: SpawnDirector?)
      requires Valid() && gs.phase == InProgress
      requires director == null ==> HostsRound(located, world)
      requires director != null ==> HostsRound(director, world)
      modifies this`director, gs`spawnStage, director, located, world
      ensures Valid()
      ensures director == old(RoundDirector(located))
      ensures director != null ==> gs.spawnStage == Early
      ensures director == null ==> gs.spawnStage == old(gs.spawnStage)
      ensures director != null && director.authority ==>
        director.active && director.currentStage == Early && director.repairPool == Tagged(world, director.cfg.repairPoolTag)
        && CountTrue(FlagsOf(director.repairPool)) == 0
    {
      if director == null {
        director := located;
      }
      if director != null {
        StartDirectorRound(director, world);
        gs.spawnStage := Early;
      }
    }
  
    /** The work round's clock has run out; the day has not been closed yet. */
    ghost predicate WorkTimeUp()
      reads this`director, this`lockJoins, this`readySet, this`countdownArmed, this`workTickArmed,
            this`fadePending, this`emptyShutdownArmed, gs`readyCount, gs`phase, gs`startCountdownSec,
            gs`timeLeftSec, gs`readyLocked, gs`day, gs`reputation, gs`spawnStage, director
    {
      && ReadyValid() && RunValid() && DirectorOk()
      && (emptyShutdownArmed ==> cfg.shutdownWhenEmpty)
      && gs.phase == InProgress && gs.timeLeftSec == 0 && gs.startCountdownSec == 0
      && !countdownArmed && !workTickArmed && !fadePending
      && gs.readyLocked && lockJoins
      && (director == null ==> gs.spawnStage == Inactive)
    }

    /**
     * One second of the work round: the clock drops by one, floored at
     * zero, and the replicated stage follows the director's. At zero the
     * work timer stops and the day ends; `live` is what the director's
     * end-of-day sweep finds in the level.
     */
    method TickWorkTimer(live: Leftovers)
      requires Valid() && workTickArmed
      modifies this`workTickArmed, this`fadePending, gs`timeLeftSec, gs`spawnStage, gs`phase, gs`dayScore,
               gs`reputation, director, PoolOf(director)
      ensures Valid() && director == old(director)
      ensures old(gs.timeLeftSec) > 1 ==>
        && gs.timeLeftSec == old(gs.timeLeftSec) - 1 && gs.phase == InProgress
        && gs.spawnStage == (if director != null then director.currentStage else old(gs.spawnStage))
        && unchanged(this) && unchanged(gs`dayScore, gs`reputation)
        && (director != null ==> unchanged(director))
      ensures old(gs.timeLeftSec) <= 1 ==> gs.timeLeftSec == 0 && !workTickArmed && DayEnded(old(gs.dayScore), old(gs.reputation), old(SweptWorkOf(director, live)))
    {
      gs.timeLeftSec := if gs.timeLeftSec - 1 < 0 then 0 else gs.timeLeftSec - 1;
      if director != null {
        var stage := director.GetStage();
        if gs.spawnStage != stage {
          gs.spawnStage := stage;
        }
      }
      if gs.timeLeftSec <= 0 {
        workTickArmed := false;
        StartEndingPhase(live);
      }
    }

    /** The director's outstanding work, or none without a director. */
    function AliveWorkOf(d: SpawnDirector?): int
      reads d
    {
      if d != null then d.GetAliveWorkCount() else 0
    }

    /** The director's outstanding work once the end-of-day sweep has destroyed the `live` leftovers. */
    function SweptWorkOf(d: SpawnDirector?, live: Leftovers): int
      reads d
    {
      if d != null then AliveWork(Swept(d.cfg, d.authority, d.alive, live)) else 0
    }

    /**
     * What ending the day leaves behind: phase Ending with the fade
     * pending; the director stopped and every pool fixture working again
     * (on the server); the stage Inactive; the day's score penalised for
     * leftover work and reputation moved by it.
     */
    ghost predicate DayEnded(score: int, reputation: int, aliveWork: int)
      reads this`fadePending, this`director, gs`phase, gs`spawnStage, gs`dayScore, gs`reputation, director,
            PoolOf(director)
    {
      && gs.phase == Ending && fadePending && gs.spawnStage == Inactive
      && gs.dayScore == PenalizedScore(score, aliveWork, cfg.penaltyPerLeftover, director != null)
      && gs.reputation == NextReputation(gs.dayScore, reputation)
      && (director != null && director.authority ==>
            !director.active && director.currentStage == Inactive && CountTrue(FlagsOf(director.repairPool)) == 0)
    }

    /** The pool of the director, if there is one. */
    function PoolOf(d: SpawnDirector?): seq<InteractiveActor>
      reads d
    {
      if d != null then d.repairPool else []
    }

    /**
     * The day is over: work stops, which destroys the `live` leftover
     * stains and shards; the day is then scored on the work still counted
     * alive, and the fade begins.
     */
    method StartEndingPhase(live: Leftovers)
      requires WorkTimeUp()
      modifies this`fadePending, gs`phase, gs`spawnStage, gs`dayScore, gs`reputation, director, PoolOf(director)
      ensures Valid() && director == old(director)
      ensures DayEnded(old(gs.dayScore), old(gs.reputation), old(SweptWorkOf(director, live)))
    {
      CloseRound(live);
      EvaluateDay();
      fadePending := true;
    }

    /** Phase Ending with the spawn loop stopped; scoring still to come. */
    ghost predicate RoundClosed()
      reads this`director, this`lockJoins, this`readySet, this`countdownArmed, this`workTickArmed,
            this`fadePending, this`emptyShutdownArmed, gs`readyCount, gs`phase, gs`startCountdownSec,
            gs`timeLeftSec, gs`readyLocked, gs`day, gs`reputation, gs`spawnStage, director
    {
      && ReadyValid() && DirectorOk()
      && 1 <= gs.day <= MaxDays && gs.reputation >= 0
      && (emptyShutdownArmed ==> cfg.shutdownWhenEmpty)
      && gs.phase == Ending && gs.timeLeftSec == 0 && gs.startCountdownSec == 0
      && !countdownArmed && !workTickArmed && !fadePending
      && gs.readyLocked && lockJoins && gs.spawnStage == Inactive
    }

    /** Sets phase Ending and stops the director's round. */
    method CloseRound(live: Leftovers)
      requires WorkTimeUp()
      modifies gs`phase, gs`spawnStage, director, PoolOf(director)
      ensures RoundClosed() && director == old(director)
      ensures director != null ==> director.alive == Swept(director.cfg, director.authority, old(director.alive), live)
      ensures director != null && director.authority ==>
        !director.active && director.currentStage == Inactive && CountTrue(FlagsOf(director.repairPool)) == 0
    {
      gs.phase := Ending;
      if director != null {
        StopDirector(live);
        gs.spawnStage := Inactive;
      }
    }

    /**
     * The director ends its loop and, on the server, makes every fixture
     * working again and destroys the `live` leftover stains and shards.
     */
    method StopDirector(live: Leftovers)
      requires director != null && director.Valid()
      modifies director`active, director`currentStage, director`alive, director.repairPool
      ensures director.Valid() && director.repairPool == old(director.repairPool)
      ensures director.alive == Swept(director.cfg, director.authority, old(director.alive), live)
      ensures director.authority ==>
        !director.active && director.currentStage == Inactive && CountTrue(FlagsOf(director.repairPool)) == 0
    {
      director.EndSpawnLoop();
      director.DeactivateAllWork(live);
    }

    /**
     * Scores the day: the leftover-work penalty (when positive and a
     * director exists), then reputation up by one for a non-negative score
     * or down by one, floored at zero, otherwise.
     */
    method EvaluateDay()
      modifies gs`dayScore, gs`reputation
      ensures gs.dayScore == PenalizedScore(old(gs.dayScore), AliveWorkOf(director), cfg.penaltyPerLeftover, director != null)
      ensures gs.reputation == NextReputation(gs.dayScore, old(gs.reputation))
    {
      if cfg.penaltyPerLeftover > 0 && director != null {
        var left := director.GetAliveWorkCount();
        gs.dayScore := gs.dayScore - left * cfg.penaltyPerLeftover;
      }
      if gs.dayScore >= 0 {
        gs.reputation := gs.reputation + 1;
      } else {
        gs.reputation := if gs.reputation - 1 < 0 then 0 else gs.reputation - 1;
      }
    }

    /**
     * The fade after the day has ended: the one-shot fade timer is spent
     * and the next day is prepared.
     */
    method FadeFinished(live: Leftovers)
      requires Valid() && fadePending
      modifies this`fadePending, this`lockJoins, this`readySet, this`countdownArmed, this`workTickArmed,
               gs`readyLocked, gs`readyCount, gs`timeLeftSec, gs`startCountdownSec, gs`spawnStage, gs`phase,
               gs`day, gs`dayScore, director, PoolOf(director)
      ensures Valid() && !fadePending && director == old(director)
      ensures NextDayReady(old(gs.day), old(gs.reputation), old(gs.dayScore), old(lockJoins))
    {
      fadePending := false;
      ResetForNextDay(live);
    }

    /** Valid, except that a finished fade may leave phase Ending before the day is closed. */
    ghost predicate FadeOver()
      reads this`director, this`lockJoins, this`readySet, this`countdownArmed, this`workTickArmed,
            this`fadePending, this`emptyShutdownArmed, gs`readyCount, gs`phase, gs`startCountdownSec,
            gs`timeLeftSec, gs`readyLocked, gs`day, gs`reputation, gs`spawnStage, director
    {
      && ReadyValid() && PhaseValid() && DirectorOk()
      && 1 <= gs.day <= MaxDays && gs.reputation >= 0
      && (emptyShutdownArmed ==> cfg.shutdownWhenEmpty)
      && !fadePending
    }

    /**
     * What closing the day leaves behind, for the day, reputation, score
     * and join lock it started from: no timers, nobody ready, readiness
     * unlocked, no clocks and stage Inactive, the director stopped with
     * every fixture working (on the server); then the next day in the
     * lobby with joins open and the score cleared, or, when reputation is
     * gone or the last day is played, phase Ending on the same day.
     */
    ghost predicate NextDayReady(day: int, reputation: int, score: int, locked: bool)
      reads this`director, this`lockJoins, this`readySet, this`countdownArmed, this`workTickArmed,
            gs`readyLocked, gs`readyCount, gs`timeLeftSec, gs`startCountdownSec, gs`spawnStage, gs`phase,
            gs`day, gs`reputation, gs`dayScore, director, PoolOf(director)
    {
      var c := CloseDay(Campaign(day, reputation, false));
      && !countdownArmed && !workTickArmed && readySet == {}
      && !gs.readyLocked && gs.readyCount == 0 && gs.timeLeftSec == 0 && gs.startCountdownSec == 0
      && gs.spawnStage == Inactive
      && gs.day == c.day && gs.reputation == c.reputation
      && gs.phase == (if c.over then Ending else Waiting)
      && gs.dayScore == (if c.over then score else 0)
      && lockJoins == (if c.over then locked else false)
      && (director != null && director.authority ==>
            !director.active && director.currentStage == Inactive && CountTrue(FlagsOf(director.repairPool)) == 0)
    }

    /**
     * Clears the day: timers, the director, readiness, clocks and stage;
     * then either advances to the next day or stays in phase Ending when
     * the run is over.
     */
    method ResetForNextDay(live: Leftovers)
      requires FadeOver()
      modifies this`lockJoins, this`readySet, this`countdownArmed, this`workTickArmed,
               gs`readyLocked, gs`readyCount, gs`timeLeftSec, gs`startCountdownSec, gs`spawnStage, gs`phase,
               gs`day, gs`dayScore, director, PoolOf(director)
      ensures Valid() && director == old(director)
      ensures NextDayReady(old(gs.day), old(gs.reputation), old(gs.dayScore), old(lockJoins))
    {
      workTickArmed := false;
      countdownArmed := false;
      if director != null {
        StopDirector(live);
      }
      CloseRecord();
    }

    /** The timers are stopped and the director is consistent; the rest of the day is still to clear. */
    ghost predicate TimersStopped()
      reads this`director, this`lockJoins, this`readySet, this`countdownArmed, this`workTickArmed,
            this`fadePending, this`emptyShutdownArmed, gs`readyCount, gs`phase, gs`startCountdownSec,
            gs`timeLeftSec, gs`readyLocked, gs`day, gs`reputation, gs`spawnStage, director
    {
      && DirectorOk()
      && 1 <= gs.day <= MaxDays && gs.reputation >= 0
      && (emptyShutdownArmed ==> cfg.shutdownWhenEmpty)
      && !fadePending && !countdownArmed && !workTickArmed
    }

    /**
     * Clears readiness, clocks and stage, then decides the day: the next
     * day in the lobby with joins open, or phase Ending when reputation is
     * gone or the last day is played.
     */
    method CloseRecord()
      requires TimersStopped()
      modifies this`lockJoins, this`readySet, gs`readyLocked, gs`readyCount, gs`timeLeftSec, gs`startCountdownSec,
               gs`spawnStage, gs`phase, gs`day, gs`dayScore
      ensures Valid()
      ensures var c := CloseDay(Campaign(old(gs.day), old(gs.reputation), false));
        && readySet == {} && !gs.readyLocked && gs.readyCount == 0 && gs.timeLeftSec == 0
        && gs.startCountdownSec == 0 && gs.spawnStage == Inactive
        && gs.day == c.day && gs.phase == (if c.over then Ending else Waiting)
        && gs.dayScore == (if c.over then old(gs.dayScore) else 0)
        && lockJoins == (if c.over then old(lockJoins) else false)
    {
      gs.readyLocked := false;
      gs.readyCount := 0;
      gs.timeLeftSec := 0;
      gs.startCountdownSec := 0;
      gs.spawnStage := Inactive;
      readySet := {};
      gs.phase := Waiting;
      if !(gs.reputation <= 0) && !(gs.day >= MaxDays) {
        gs.day := gs.day + 1;
        gs.timeLeftSec := 0;
        gs.dayScore := 0;
        lockJoins := false;
        gs.phase := Waiting;
      } else {
        gs.phase := Ending;
      }
    }
  
    /**
     * Join admission: an error set earlier is kept; otherwise a locked
     * server answers GAME_IN_PROGRESS before capacity is looked at, and a
     * full one GAME_FULL. The empty answer admits the player.
     */
    function PreLogin(prior: string): (error: string)
      reads this`lockJoins, this`players
      ensures error == "" <==> prior == "" && !lockJoins && |players| < cfg.maxPlayers
      ensures prior != "" ==> error == prior
      ensures prior == "" && lockJoins ==> error == GameInProgress
      ensures prior == "" && !lockJoins && |players| >= cfg.maxPlayers ==> error == GameFull
    {
      if prior != "" then prior
      else if lockJoins then GameInProgress
      else if |players| >= cfg.maxPlayers then GameFull
      else ""
    }

    /**
     * A player has joined. Beyond capacity they are sent away (and stay
     * counted until the engine logs them out); otherwise the player count
     * is published and a pending empty-server shutdown is cancelled.
     */
    method PostLogin(p: ActorId) returns (admitted: bool)
      requires Valid()
      modifies this`players, this`emptyShutdownArmed, gs`totalPlayers
      ensures Valid() && players == old(players) + {p}
      ensures admitted <==> |players| <= cfg.maxPlayers
      ensures admitted ==> gs.totalPlayers == |players| && !emptyShutdownArmed
      ensures !admitted ==> gs.totalPlayers == old(gs.totalPlayers) && emptyShutdownArmed == old(emptyShutdownArmed)
    {
      players := players + {p};
      if |players| > cfg.maxPlayers {
        return false;
      }
      gs.totalPlayers := |players|;
      emptyShutdownArmed := false;
      admitted := true;
    }

    /**
     * A player has left, handled as intended: the leaver is off the player
     * list before the handler body runs, so the published count and the
     * empty check no longer include them. The player stops being ready,
     * and a server left empty schedules its shutdown. A running start
     * countdown is left alone.
     */
    method Logout(p: ActorId)
      requires Valid()
      modifies this`players, this`readySet, this`emptyShutdownArmed, gs`totalPlayers, gs`readyCount
      ensures Valid() && players == old(players) - {p} && gs.totalPlayers == |players|
      ensures readySet == old(readySet) - {p} && gs.readyCount == |readySet|
      ensures emptyShutdownArmed == (old(emptyShutdownArmed) || (cfg.shutdownWhenEmpty && players == {}))
    {
      ForgetPlayer(p);
      LogoutHandler(p);
    }

    /**
     * Logout as the handler is written, run while the engine still lists
     * the leaving player (its player state and controller are removed only
     * after the handler returns): the published count and the empty check
     * both still see the leaver. The last player's own logout therefore
     * never arms the empty-server shutdown, and the count stays one high.
     */
    method LogoutAsWritten(p: ActorId)
      requires Valid()
      modifies this`players, this`readySet, this`emptyShutdownArmed, gs`totalPlayers, gs`readyCount
      ensures Valid() && players == old(players) - {p} && gs.totalPlayers == |old(players)|
      ensures readySet == old(readySet) - {p} && gs.readyCount == |readySet|
      ensures emptyShutdownArmed == (old(emptyShutdownArmed) || (cfg.shutdownWhenEmpty && old(players) == {}))
      ensures p in old(players) ==> gs.totalPlayers == |players| + 1 && emptyShutdownArmed == old(emptyShutdownArmed)
    {
      LogoutHandler(p);
      ForgetPlayer(p);
    }

    /**
     * The body of the Logout handler over the player list as it stands:
     * the count is published from it, the player stops being ready, and
     * the shutdown is armed when the list is empty.
     */
    method LogoutHandler(p: ActorId)
      requires Valid()
      modifies this`readySet, this`emptyShutdownArmed, gs`totalPlayers, gs`readyCount
      ensures Valid() && gs.totalPlayers == |players|
      ensures readySet == old(readySet) - {p} && gs.readyCount == |readySet|
      ensures emptyShutdownArmed == (old(emptyShutdownArmed) || (cfg.shutdownWhenEmpty && players == {}))
    {
      gs.totalPlayers := |players|;
      RemoveReady(p);
      gs.readyCount := |readySet|;
      MaybeScheduleEmptyShutdown();
    }

    /** The engine drops the leaving player from the player list. */
    method ForgetPlayer(p: ActorId)
      requires Valid()
      modifies this`players
      ensures Valid() && players == old(players) - {p}
      ensures p in old(players) ==> |players| + 1 == |old(players)|
    {
      players := players - {p};
    }

    /** Walks the ready set and drops the leaving player when met. */
    method RemoveReady(p: ActorId)
      modifies this`readySet
      ensures readySet == old(readySet) - {p}
    {
      var pending := readySet;
      while pending != {}
        invariant readySet == old(readySet) && pending <= readySet
        invariant p in readySet ==> p in pending
        decreases |pending|
      {
        var q :| q in pending;
        if q == p {
          readySet := readySet - {q};
          return;
        }
        pending := pending - {q};
      }
    }

    /** When shutdown-when-empty is on and nobody is left, arms the shutdown timer. */
    method MaybeScheduleEmptyShutdown()
      modifies this`emptyShutdownArmed
      ensures emptyShutdownArmed == (old(emptyShutdownArmed) || (cfg.shutdownWhenEmpty && players == {}))
    {
      if !cfg.shutdownWhenEmpty {
        return;
      }
      if |players| == 0 {
        emptyShutdownArmed := true;
      }
    }

    /**
     * The shutdown timer fires: the process is asked to exit unless
     * someone has joined in the meantime.
     */
    method DoEmptyShutdown()
      requires Valid() && emptyShutdownArmed
      modifies this`emptyShutdownArmed, this`exitRequested
      ensures Valid() && !emptyShutdownArmed
      ensures exitRequested == (old(exitRequested) || players == {})
      ensures exitRequested && !old(exitRequested) ==> cfg.shutdownWhenEmpty
    {
      emptyShutdownArmed := false;
      if |players| > 0 {
        return;
      }
      exitRequested := true;
    }

    /** Awards `count` cleaned stains to the day's score. */
    method AddScoreStain(count: int)
      requires Valid()
      modifies gs`dayScore
      ensures Valid() && gs.dayScore == old(gs.dayScore) + cfg.scorePerStain * count
    {
      gs.AddScore(cfg.scorePerStain * count);
    }

    /** Awards `count` completed repairs to the day's score. */
    method AddScoreRepair(count: int)
      requires Valid()
      modifies gs`dayScore
      ensures Valid() && gs.dayScore == old(gs.dayScore) + cfg.scorePerRepair * count
    {
      gs.AddScore(cfg.scorePerRepair * count);
    }
}

  /**
   * Starts `d`'s spawn loop for a work round over `world`: on the server
   * the director runs from stage Early with a fresh pool of the level's
   * tagged fixtures, none of them broken.
   */
  method StartDirectorRound(d: SpawnDirector, world: seq<InteractiveActor>)
    requires HostsRound(d, world)
    modifies d`active, d`elapsedSec, d`currentStage, d`spawned, d`alive, d`nextPassengerTime, d`nextStainTime,
             d`nextRepairTime, d`repairPool, world
    ensures d.Valid()
    ensures d.authority ==>
      d.active && d.currentStage == Early && d.repairPool == Tagged(world, d.cfg.repairPoolTag) && CountTrue(FlagsOf(d.repairPool)) == 0
  {
    d.BeginSpawnLoop(WorkRoundSec as real, world);
  }

  /**
   * The default mode turns the leftover penalty off, so a day keeps its
   * score whatever work is left, and it shuts an empty server down after
   * a delay that is not negative.
   */
  lemma DefaultModeSound()
    ensures forall score, aliveWork, hasDirector ::
      PenalizedScore(score, aliveWork, DefaultMode().penaltyPerLeftover, hasDirector) == score
    ensures DefaultMode().shutdownWhenEmpty && DefaultMode().emptyShutdownDelay >= 0.0
    ensures DefaultMode().maxPlayers == 4
  {
  }

  /** From the countdown to the end of the work round, every newcomer is turned away as a game in progress. */
  lemma JoinsClosedDuringRound(m: GameMode)
    requires m.Valid()
    requires m.gs.phase == Starting || m.gs.phase == InProgress
    ensures m.PreLogin("") == GameInProgress
  {
  }

  /** In the lobby, a newcomer is admitted exactly while the server is not full. */
  lemma LobbyAdmitsUntilFull(m: GameMode)
    requires m.Valid() && m.gs.phase == Waiting
    ensures m.PreLogin("") == "" <==> |m.players| < m.cfg.maxPlayers
  {
  }

  /** A director that can run a round over `world`: consistent, and sharing its process with every fixture. */
  ghost predicate HostsRound(d: SpawnDirector?, world: seq<InteractiveActor>)
    reads d
  {
    d != null ==>
      && d.Valid()
      && Distinct(world)
      && forall i :: 0 <= i < |world| ==> world[i].authority == d.authority
  }
}

