/*
 * The player's equip / clean machine (APlayerCharacter): a player carries
 * nothing, the vacuum or the mop; with the mop they scrub one stain at a
 * time, with the vacuum they pull memory shards in. While either action
 * runs the action lock is held, so the equipment cannot change and no
 * second action can start.
 *
 * The server's answers about the world are parameters: the stain the
 * server's own search finds, whether a client's chosen stain is close
 * enough, whether a mop stroke finished the stain, which shards are gone
 * or within collecting distance. Meshes, montages, sounds, collision
 * geometry and the network are not state here.
 */
module Cleaning {
  import opened Types

  /** EEquipmentType; the source's `None` is called `Unequipped` here. */
  datatype EquipmentType = Unequipped | Vacuum | Mop

  /** ECleanState; the source's `None` is called `NotCleaning` here. */
  datatype CleanState = NotCleaning | Vacuuming | Mopping

  /** Walking and running speeds of the character movement. */
  const WalkSpeed: real := 200.0
  const RunSpeed: real := 700.0

  /** The movement speed the sprint flag selects. */
  function SpeedFor(sprinting: bool): (r: real)
    ensures r >= WalkSpeed
    ensures r == RunSpeed <==> sprinting
  {
    if sprinting then RunSpeed else WalkSpeed
  }

  /**
   * The equipment an equip key asks for: the key's tool, or nothing when
   * that tool is already in hand.
   */
  function SlotChoice(current: EquipmentType, slot: EquipmentType): (next: EquipmentType)
    requires slot != Unequipped
    ensures next == Unequipped <==> current == slot
    ensures next != Unequipped ==> next == slot
  {
    if current == slot then Unequipped else slot
  }

  /** Pressing the same equip key twice leaves that tool, or nothing, in hand. */
  lemma SlotPressedTwice(current: EquipmentType, slot: EquipmentType)
    requires slot != Unequipped
    ensures SlotChoice(SlotChoice(current, slot), slot) == if current == slot then slot else Unequipped
  {
  }

  /**
   * The stain a mop start works on: the client's pick when it is a stain
   * close enough to the player, otherwise whatever the server finds.
   */
  function MopTargetChoice(picked: Option<ActorId>, pickedNear: bool, found: Option<ActorId>): (r: Option<ActorId>)
    ensures picked.Some? && pickedNear ==> r == picked
    ensures !(picked.Some? && pickedNear) ==> r == found
    ensures r.Some? <==> (picked.Some? && pickedNear) || found.Some?
  {
    if picked.Some? && pickedNear then picked else found
  }

  /** The character's fields, as a value. */
  datatype CharacterFields = CharacterFields(
    equip: EquipmentType,
    cleanState: CleanState,
    actionLocked: bool,
    mopTarget: Option<ActorId>,
    mopTickArmed: bool,
    vacuumTickArmed: bool,
    fieldOn: bool,
    suction: set<ActorId>,
    sprinting: bool,
    maxWalkSpeed: real,
    movementInputEnabled: bool)

  /** A freshly spawned character: empty hands, idle, walking, free to move. */
  function InitialCharacter(): CharacterFields
  {
    CharacterFields(Unequipped, NotCleaning, false, None, false, false, false, {}, false, WalkSpeed, true)
  }

  class PlayerCharacter {
    /** This copy is the server's. */
    const authority: bool

    var equip: EquipmentType
    var cleanState: CleanState
    /** Held while an action runs. */
    var actionLocked: bool
    /** The stain being mopped. */
    var mopTarget: Option<ActorId>
    /** MopTickHandle, the 0.05 s looping mop timer. */
    var mopTickArmed: bool
    /** VacuumTickHandle, the 0.05 s looping vacuum timer. */
    var vacuumTickArmed: bool
    /** The vacuum's overlap field is switched on. */
    var fieldOn: bool
    /** ActiveVacuumSet: the shards being pulled in. */
    var suction: set<ActorId>
    var sprinting: bool
    var maxWalkSpeed: real
    var movementInputEnabled: bool

    function Snapshot(): CharacterFields
      reads this
    {
      CharacterFields(equip, cleanState, actionLocked, mopTarget, mopTickArmed, vacuumTickArmed, fieldOn,
                      suction, sprinting, maxWalkSpeed, movementInputEnabled)
    }

    /**
     * The lock is held exactly while cleaning; mopping needs the mop and a
     * stain, vacuuming the vacuum; each action's timer runs exactly while
     * that action does, and so does the vacuum's field; shards are pulled
     * only while vacuuming; the speed follows the sprint flag.
     */
    ghost predicate Valid()
      reads this
    {
      && (actionLocked <==> cleanState != NotCleaning)
      && (cleanState == Mopping ==> equip == Mop)
      && (cleanState == Vacuuming ==> equip == Vacuum)
      && (mopTarget.Some? <==> cleanState == Mopping)
      && (mopTickArmed <==> cleanState == Mopping)
      && (vacuumTickArmed <==> cleanState == Vacuuming)
      && (fieldOn <==> cleanState == Vacuuming)
      && (suction != {} ==> cleanState == Vacuuming)
      && maxWalkSpeed == SpeedFor(sprinting)
    }

    constructor(authority: bool)
      ensures this.authority == authority
      ensures Snapshot() == InitialCharacter()
      ensures Valid()
    {
      this.authority := authority;
      equip := Unequipped;
      cleanState := NotCleaning;
      actionLocked := false;
      mopTarget := None;
      mopTickArmed := false;
      vacuumTickArmed := false;
      fieldOn := false;
      suction := {};
      sprinting := false;
      maxWalkSpeed := WalkSpeed;
      movementInputEnabled := true;
    }

    /** The vacuum is in hand. */
    predicate IsVacuumEquipped()
      reads this`equip
    {
      equip == Vacuum
    }

    /** The vacuum is in hand and an action holds the lock. */
    predicate IsVacuumActive()
      reads this`equip, this`actionLocked
    {
      actionLocked && IsVacuumEquipped()
    }

    /** Equip key 1: the vacuum, or nothing when it is already in hand; ignored under the lock. */
    method InputEquipSlot1()
      requires Valid()
      modifies this`equip
      ensures Valid()
      ensures equip == if old(actionLocked) then old(equip) else SlotChoice(old(equip), Vacuum)
    {
      if actionLocked {
        return;
      }
      SetEquip(SlotChoice(equip, Vacuum));
    }

    /** Equip key 2: the mop, or nothing when it is already in hand; ignored under the lock. */
    method InputEquipSlot2()
      requires Valid()
      modifies this`equip
      ensures Valid()
      ensures equip == if old(actionLocked) then old(equip) else SlotChoice(old(equip), Mop)
    {
      if actionLocked {
        return;
      }
      SetEquip(SlotChoice(equip, Mop));
    }

    /** The server changes the equipment unless an action holds the lock. */
    method SetEquip(newEquip: EquipmentType)
      requires Valid()
      modifies this`equip
      ensures Valid()
      ensures equip == if old(actionLocked) then old(equip) else newEquip
    {
      if actionLocked {
        return;
      }
      if newEquip == equip {
        return;
      }
      equip := newEquip;
    }

    /** Movement input is allowed exactly while not cleaning. */
    method OnRepCleanState()
      modifies this`movementInputEnabled
      ensures movementInputEnabled <==> cleanState == NotCleaning
    {
      movementInputEnabled := cleanState == NotCleaning;
    }

    /**
     * Starts mopping with the stain the server finds; ignored while
     * cleaning or locked, without the mop, or when no stain is found.
     */
    method BeginClean(found: Option<ActorId>)
      requires Valid()
      modifies this`mopTarget, this`cleanState, this`actionLocked, this`movementInputEnabled, this`mopTickArmed
      ensures Valid()
      ensures MopStarts(old(Snapshot()), found) ==> Snapshot() == Mopped(old(Snapshot()), found.value)
      ensures !MopStarts(old(Snapshot()), found) ==> Snapshot() == old(Snapshot())
    {
      if cleanState != NotCleaning || actionLocked {
        return;
      }
      if equip != Mop {
        return;
      }
      if found.None? {
        return;
      }
      StartMopping(found.value);
    }

    /**
     * Starts mopping with the client's pick when it is close enough, or
     * else with the stain the server finds; ignored while cleaning or
     * locked, without the mop, or with no stain at all.
     */
    method BeginCleanWithTarget(picked: Option<ActorId>, pickedNear: bool, found: Option<ActorId>)
      requires Valid()
      modifies this`mopTarget, this`cleanState, this`actionLocked, this`movementInputEnabled, this`mopTickArmed
      ensures Valid()
      ensures var t := MopTargetChoice(picked, pickedNear, found);
        && (MopStarts(old(Snapshot()), t) ==> Snapshot() == Mopped(old(Snapshot()), t.value))
        && (!MopStarts(old(Snapshot()), t) ==> Snapshot() == old(Snapshot()))
    {
      if cleanState != NotCleaning || actionLocked {
        return;
      }
      if equip != Mop {
        return;
      }
      var target: Option<ActorId> := None;
      if picked.Some? && pickedNear {
        target := picked;
      }
      if target.None? {
        target := found;
      }
      if target.None? {
        return;
      }
      StartMopping(target.value);
    }

    /**
     * The same start as the server code is written: once the guards pass,
     * a log line asks the accepted pick for its stain type before the
     * fallback search runs, so a rejected pick (none, gone, or too far)
     * makes that call on a null target and halts the server. `halted`
     * reports that outcome, in which no state is kept; an accepted pick
     * starts mopping as BeginCleanWithTarget does.
     */
    method BeginCleanWithTargetAsWritten(picked: Option<ActorId>, pickedNear: bool, found: Option<ActorId>)
      returns (halted: bool)
      requires Valid()
      modifies this`mopTarget, this`cleanState, this`actionLocked, this`movementInputEnabled, this`mopTickArmed
      ensures Valid()
      ensures halted <==> old(cleanState == NotCleaning && !actionLocked && equip == Mop) && !(picked.Some? && pickedNear)
      ensures halted ==> Snapshot() == old(Snapshot())
      ensures !halted ==> var t := MopTargetChoice(picked, pickedNear, found);
        && (MopStarts(old(Snapshot()), t) ==> Snapshot() == Mopped(old(Snapshot()), t.value))
        && (!MopStarts(old(Snapshot()), t) ==> Snapshot() == old(Snapshot()))
    {
      halted := false;
      if cleanState != NotCleaning || actionLocked {
        return;
      }
      if equip != Mop {
        return;
      }
      if !(picked.Some? && pickedNear) {
        return true;
      }
      StartMopping(picked.value);
    }

    /** Locks the character onto `target` and starts the mop timer. */
    method StartMopping(target: ActorId)
      requires Valid() && cleanState == NotCleaning && equip == Mop
      modifies this`mopTarget, this`cleanState, this`actionLocked, this`movementInputEnabled, this`mopTickArmed
      ensures Valid()
      ensures Snapshot() == Mopped(old(Snapshot()), target)
    {
      mopTarget := Some(target);
      cleanState := Mopping;
      actionLocked := true;
      OnRepCleanState();
      mopTickArmed := true;
    }

    /** Ends mopping: the stain is released, the timer stopped, the lock dropped. */
    method EndClean()
      requires Valid()
      modifies this`mopTarget, this`cleanState, this`actionLocked, this`movementInputEnabled, this`mopTickArmed
      ensures Valid()
      ensures old(cleanState) == Mopping ==> Snapshot() == MopEnded(old(Snapshot()))
      ensures old(cleanState) != Mopping ==> Snapshot() == old(Snapshot())
    {
      if cleanState != Mopping {
        return;
      }
      mopTarget := None;
      mopTickArmed := false;
      cleanState := NotCleaning;
      actionLocked := false;
      OnRepCleanState();
    }

    /**
     * One mop stroke. A stain that has disappeared ends the mopping with
     * no score; a stroke that finishes the stain scores it (`scored`) and
     * ends the mopping, which stops the timer, so a stain scores once.
     */
    method MopTick(targetGone: bool, finished: bool) returns (scored: bool)
      requires Valid() && mopTickArmed
      modifies this`mopTarget, this`cleanState, this`actionLocked, this`movementInputEnabled, this`mopTickArmed
      ensures Valid()
      ensures scored <==> !targetGone && finished
      ensures !targetGone && !finished ==> Snapshot() == old(Snapshot())
      ensures targetGone || finished ==> Snapshot() == MopEnded(old(Snapshot())) && !mopTickArmed
    {
      scored := false;
      if cleanState != Mopping || mopTarget.None? || targetGone {
        EndClean();
        return;
      }
      if finished {
        scored := true;
        EndClean();
      }
    }

    /** Starts vacuuming: the lock, the overlap field and the vacuum timer. */
    method BeginVacuum()
      requires Valid()
      modifies this`cleanState, this`actionLocked, this`fieldOn, this`vacuumTickArmed
      ensures Valid()
      ensures VacuumStarts(old(Snapshot())) ==>
        Snapshot() == old(Snapshot()).(cleanState := Vacuuming, actionLocked := true, fieldOn := true,
                                       vacuumTickArmed := true)
      ensures !VacuumStarts(old(Snapshot())) ==> Snapshot() == old(Snapshot())
    {
      if cleanState != NotCleaning || actionLocked {
        return;
      }
      if equip != Vacuum {
        return;
      }
      cleanState := Vacuuming;
      actionLocked := true;
      fieldOn := true;
      vacuumTickArmed := true;
    }

    /**
     * Stops vacuuming: the lock is dropped, the timer and field stop, and
     * every shard being pulled is let go (`released`).
     */
    method EndVacuum() returns (released: set<ActorId>)
      requires Valid()
      modifies this`cleanState, this`actionLocked, this`fieldOn, this`vacuumTickArmed, this`suction
      ensures Valid()
      ensures released == old(suction)
      ensures old(cleanState) == Vacuuming ==>
        Snapshot() == old(Snapshot()).(cleanState := NotCleaning, actionLocked := false, fieldOn := false,
                                       vacuumTickArmed := false, suction := {})
      ensures old(cleanState) != Vacuuming ==> Snapshot() == old(Snapshot())
    {
      released := {};
      if cleanState != Vacuuming {
        return;
      }
      cleanState := NotCleaning;
      actionLocked := false;
      vacuumTickArmed := false;
      released := suction;
      suction := {};
      fieldOn := false;
    }

    /**
     * One vacuum tick on the server: every pulled shard that has
     * disappeared is dropped, and every one within collecting distance is
     * collected and dropped.
     */
    method VacuumTick(gone: set<ActorId>, near: set<ActorId>) returns (collected: set<ActorId>)
      requires Valid() && vacuumTickArmed
      modifies this`suction
      ensures Valid()
      ensures !authority ==> suction == old(suction) && collected == {}
      ensures authority ==> collected == (old(suction) - gone) * near && suction == old(suction) - gone - near
    {
      collected := {};
      if !authority || cleanState != Vacuuming {
        return;
      }
      var toRemove: set<ActorId> := {};
      var pending := suction;
      while pending != {}
        invariant pending <= suction
        invariant forall x :: x in toRemove <==> x in suction && x !in pending && (x in gone || x in near)
        invariant forall x :: x in collected <==> x in suction && x !in pending && x !in gone && x in near
        decreases |pending|
      {
        var a :| a in pending;
        if a in gone {
          toRemove := toRemove + {a};
        } else if a in near {
          collected := collected + {a};
          toRemove := toRemove + {a};
        }
        pending := pending - {a};
      }
      suction := suction - toRemove;
    }

    /**
     * A shard enters the vacuum's field: on the server, while vacuuming, a
     * valid shard not yet pulled starts being pulled (`started`).
     */
    method OnVacuumOverlapBegin(other: ActorId, valid: bool, isShard: bool) returns (started: bool)
      requires Valid()
      modifies this`suction
      ensures Valid()
      ensures started <==> authority && old(IsVacuumActive()) && valid && isShard && other !in old(suction)
      ensures suction == if started then old(suction) + {other} else old(suction)
    {
      started := false;
      if !authority {
        return;
      }
      if !IsVacuumActive() {
        return;
      }
      if !valid {
        return;
      }
      if !isShard {
        return;
      }
      if other in suction {
        return;
      }
      suction := suction + {other};
      started := true;
    }

    /**
     * A shard leaves the vacuum's field. A shard being pulled returns
     * straight away, so it is never let go here; any other valid shard
     * only has a stop broadcast to clients (`broadcast`).
     */
    method OnVacuumOverlapEnd(other: ActorId, valid: bool, isShard: bool) returns (broadcast: bool)
      requires Valid()
      modifies this`suction
      ensures Valid() && suction == old(suction)
      ensures broadcast <==> authority && other !in suction && valid && isShard
    {
      broadcast := false;
      if !authority {
        return;
      }
      if other in suction {
        return;
      }
      if !valid {
        return;
      }
      if !isShard {
        return;
      }
      broadcast := true;
    }

    /** Applies the speed the sprint flag selects. */
    method UpdateMovementSpeedFromState()
      modifies this`maxWalkSpeed
      ensures maxWalkSpeed == SpeedFor(sprinting)
    {
      maxWalkSpeed := if sprinting then RunSpeed else WalkSpeed;
    }

    /** The server applies a client's sprint request. */
    method ServerSetSprinting(on: bool)
      requires Valid()
      modifies this`sprinting, this`maxWalkSpeed
      ensures Valid() && sprinting == on
      ensures maxWalkSpeed == if on then RunSpeed else WalkSpeed
    {
      sprinting := on;
      UpdateMovementSpeedFromState();
    }

    /** The local player starts sprinting; a client also asks the server (`askServer`). */
    method StartSprinting() returns (askServer: bool)
      requires Valid()
      modifies this`sprinting, this`maxWalkSpeed
      ensures Valid() && sprinting && maxWalkSpeed == RunSpeed
      ensures askServer == !authority
    {
      sprinting := true;
      UpdateMovementSpeedFromState();
      askServer := !authority;
    }

    /** The local player stops sprinting; a client also asks the server (`askServer`). */
    method StopSprinting() returns (askServer: bool)
      requires Valid()
      modifies this`sprinting, this`maxWalkSpeed
      ensures Valid() && !sprinting && maxWalkSpeed == WalkSpeed
      ensures askServer == !authority
    {
      sprinting := false;
      UpdateMovementSpeedFromState();
      askServer := !authority;
    }
  }

  /** A mop start goes ahead: idle and unlocked, mop in hand, and a stain to work on. */
  predicate MopStarts(s: CharacterFields, target: Option<ActorId>)
  {
    s.cleanState == NotCleaning && !s.actionLocked && s.equip == Mop && target.Some?
  }

  /** Mopping `target`: locked, movement input off, mop timer running. */
  function Mopped(s: CharacterFields, target: ActorId): CharacterFields
  {
    s.(mopTarget := Some(target), cleanState := Mopping, actionLocked := true, movementInputEnabled := false,
       mopTickArmed := true)
  }

  /** Mopping over: no stain, idle, unlocked, movement input on, mop timer stopped. */
  function MopEnded(s: CharacterFields): CharacterFields
  {
    s.(mopTarget := None, cleanState := NotCleaning, actionLocked := false, movementInputEnabled := true,
       mopTickArmed := false)
  }

  /** A vacuum start goes ahead: idle and unlocked, with the vacuum in hand. */
  predicate VacuumStarts(s: CharacterFields)
  {
    s.cleanState == NotCleaning && !s.actionLocked && s.equip == Vacuum
  }

  /** In a consistent state the vacuum is active exactly while vacuuming. */
  lemma VacuumActiveIffVacuuming(pc: PlayerCharacter)
    requires pc.Valid()
    ensures pc.IsVacuumActive() <==> pc.cleanState == Vacuuming
  {
  }

  /** Ending a mop stroke session returns the character to the state it was in before mopping began. */
  lemma MopRoundTrip(s: CharacterFields, target: ActorId)
    requires MopStarts(s, Some(target)) && s.mopTarget == None && !s.mopTickArmed && s.movementInputEnabled
    ensures MopEnded(Mopped(s, target)) == s
  {
  }
}
