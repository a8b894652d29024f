/*
 * A repairable station fixture (AInteractiveActor): it is either working
 * or broken, and a broken one is repaired through a timed key-prompt
 * mini-game (QTE). The server arms a prompt after a fixed interval, shows
 * a random key, and a timeout counts as a failure; each hit raises the
 * repair progress, each failure lowers it, both clamped to [0, 1], and the
 * repair completes when the progress reaches 1.
 *
 * Engine timers are the boolean fields `promptArmed` and `timeoutArmed`;
 * their expiry is a method that may only run while the timer is armed.
 * Client RPCs, montages, widgets and outline materials are not state here.
 */
module QteRepair {
  import opened Types

  /** A key name (FKey). */
  type Key = string

  /** FQTEConfig: the tunables of the repair mini-game. */
  datatype QteConfig = QteConfig(
    promptInterval: real,
    promptTimeout: real,
    successGain: real,
    failPenalty: real,
    keys: seq<Key>)

  /** The defaults: a prompt every 1.5 s, 1.25 s to answer, +0.25 / -0.10, keys Q W E R. */
  function DefaultQte(): QteConfig
  {
    QteConfig(1.5, 1.25, 0.25, 0.10, ["Q", "W", "E", "R"])
  }

  /** FMath::Clamp(x, 0, 1). */
  function Clamp01(x: real): (r: real)
    ensures 0.0 <= r <= 1.0
    ensures 0.0 <= x <= 1.0 ==> r == x
    ensures x > 1.0 ==> r == 1.0
    ensures x < 0.0 ==> r == 0.0
  {
    if x < 0.0 then 0.0 else if x > 1.0 then 1.0 else x
  }

  /** Progress after a correct key: raised by the gain, capped at 1. */
  function HitProgress(p: real, cfg: QteConfig): (r: real)
    ensures 0.0 <= r <= 1.0
    ensures 0.0 <= p + cfg.successGain <= 1.0 ==> r == p + cfg.successGain
    ensures cfg.successGain >= 0.0 && p <= 1.0 ==> r >= p
  {
    Clamp01(p + cfg.successGain)
  }

  /** Progress after a wrong key or a timeout: lowered by the penalty, floored at 0. */
  function MissProgress(p: real, cfg: QteConfig): (r: real)
    ensures 0.0 <= r <= 1.0
    ensures 0.0 <= p - cfg.failPenalty <= 1.0 ==> r == p - cfg.failPenalty
    ensures cfg.failPenalty >= 0.0 && p >= 0.0 ==> r <= p
  {
    Clamp01(p - cfg.failPenalty)
  }

  /** Progress after `n` hits in a row, ignoring completion. */
  function HitsFrom(p: real, cfg: QteConfig, n: nat): real
    decreases n
  {
    if n == 0 then p else HitsFrom(HitProgress(p, cfg), cfg, n - 1)
  }

  /** The sum of `n` gains of size `g`. */
  function TotalGain(g: real, n: nat): (r: real)
    ensures g >= 0.0 ==> r >= 0.0
    decreases n
  {
    if n == 0 then 0.0 else TotalGain(g, n - 1) + g
  }

  lemma {:induction false} TotalGainIsProduct(g: real, n: nat)
    ensures TotalGain(g, n) == (n as real) * g
    decreases n
  {
    if n > 0 {
      TotalGainIsProduct(g, n - 1);
      assert (n as real) * g == ((n - 1) as real) * g + g;
    }
  }

  /** Raising and capping, then raising by `m >= 0` and capping, is one raise by the sum. */
  lemma ClampShift(p: real, g: real, m: real)
    requires 0.0 <= p <= 1.0 && g >= 0.0 && m >= 0.0
    ensures Clamp01(Clamp01(p + g) + m) == Clamp01(p + (m + g))
  {
  }

  /** `n` consecutive hits add the `n` gains at once, capped at 1. */
  lemma {:induction false} HitsFromTotal(p: real, cfg: QteConfig, n: nat)
    requires 0.0 <= p <= 1.0 && cfg.successGain >= 0.0
    ensures HitsFrom(p, cfg, n) == Clamp01(p + TotalGain(cfg.successGain, n))
    decreases n
  {
    if n > 0 {
      var g := cfg.successGain;
      HitsFromTotal(HitProgress(p, cfg), cfg, n - 1);
      ClampShift(p, g, TotalGain(g, n - 1));
    }
  }

  /** With a non-negative gain, `n` consecutive hits add `n` gains, capped at 1. */
  lemma {:induction false} HitsFromClosedForm(p: real, cfg: QteConfig, n: nat)
    requires 0.0 <= p <= 1.0 && cfg.successGain >= 0.0
    ensures HitsFrom(p, cfg, n) == Clamp01(p + (n as real) * cfg.successGain)
  {
    HitsFromTotal(p, cfg, n);
    TotalGainIsProduct(cfg.successGain, n);
  }

  /** With the default tuning a repair from scratch needs exactly four hits. */
  lemma DefaultRepairTakesFourHits()
    ensures HitsFrom(0.0, DefaultQte(), 3) < 1.0
    ensures HitsFrom(0.0, DefaultQte(), 4) == 1.0
  {
    HitsFromClosedForm(0.0, DefaultQte(), 3);
    HitsFromClosedForm(0.0, DefaultQte(), 4);
  }

  /** Value view of the mutable fields. */
  datatype RepairFields = RepairFields(
    isBroken: bool,
    progress: real,
    inQteMode: bool,
    promptKey: Option<Key>,
    owner: Option<ActorId>,
    promptArmed: bool,
    timeoutArmed: bool)

  class InteractiveActor {
    /** Whether this copy is the server's (HasAuthority). */
    const authority: bool
    /** The actor's tags, fixed in the level. */
    const tags: seq<Tag>
    const qte: QteConfig

    var isBroken: bool
    var repairProgress: real
    var inQteMode: bool
    /** The key of the last prompt (an unset FKey is None). */
    var currentPromptKey: Option<Key>
    /** The controller that started the current QTE, if it was valid. */
    var qteOwner: Option<ActorId>
    var promptArmed: bool
    var timeoutArmed: bool

    function Snapshot(): RepairFields
      reads this
    {
      RepairFields(isBroken, repairProgress, inQteMode, currentPromptKey, qteOwner,
                   promptArmed, timeoutArmed)
    }

    /**
     * Progress stays in [0, 1]; only a broken fixture can be in a QTE;
     * a working fixture has no progress.
     */
    ghost predicate Valid()
      reads this
    {
      && 0.0 <= repairProgress <= 1.0
      && (inQteMode ==> isBroken)
      && (!isBroken ==> repairProgress == 0.0)
    }

    /** A placed fixture starts broken, with no progress and no QTE running. */
    constructor(authority: bool, tags: seq<Tag>, qte: QteConfig)
      ensures this.authority == authority && this.tags == tags && this.qte == qte
      ensures Snapshot() == RepairFields(true, 0.0, false, None, None, false, false)
      ensures Valid()
    {
      this.authority := authority;
      this.tags := tags;
      this.qte := qte;
      isBroken := true;
      repairProgress := 0.0;
      inQteMode := false;
      currentPromptKey := None;
      qteOwner := None;
      promptArmed := false;
      timeoutArmed := false;
    }

    function IsBroken(): bool
      reads this
    {
      isBroken
    }

    function IsInQteMode(): bool
      reads this
    {
      inQteMode
    }

    /** The "press to repair" panel is shown only on a broken fixture no one is repairing. */
    function PanelShown(): (shown: bool)
      reads this
      ensures shown ==> isBroken
      ensures inQteMode ==> !shown
    {
      !inQteMode && isBroken
    }

    /** The outline is fully visible exactly while the fixture is broken. */
    function OutlineOpacity(): (opacity: real)
      reads this
      ensures opacity == 1.0 || opacity == 0.0
      ensures opacity == 1.0 <==> isBroken
    {
      if isBroken then 1.0 else 0.0
    }

    /**
     * Server only: marks the fixture broken or working. Fixing it also
     * drops the progress and leaves QTE mode; the QTE timers are left as
     * they are.
     */
    method SetIsBroken(broken: bool)
      modifies this
      ensures !authority ==> Snapshot() == old(Snapshot())
      ensures authority && broken ==> Snapshot() == old(Snapshot()).(isBroken := true)
      ensures authority && !broken ==>
        Snapshot() == old(Snapshot()).(isBroken := false, progress := 0.0, inQteMode := false)
      ensures old(Valid()) ==> Valid()
    {
      if !authority {
        return;
      }
      isBroken := broken;
      if !isBroken {
        repairProgress := 0.0;
        inQteMode := false;
      }
    }

    /**
     * A player asks to start repairing. Accepted only on the server, for a
     * broken fixture not already in a QTE, and when the player has a
     * controller; the owner is recorded even when that last check fails.
     * On acceptance the progress restarts at 0 and the first prompt is armed.
     */
    method RequestStartRepair(byController: Option<ActorId>)
      requires Valid()
      modifies this
      ensures Valid()
      ensures !authority || !old(isBroken) || old(inQteMode) ==> Snapshot() == old(Snapshot())
      ensures authority && old(isBroken) && !old(inQteMode) && byController.None? ==>
        Snapshot() == old(Snapshot()).(owner := None)
      ensures authority && old(isBroken) && !old(inQteMode) && byController.Some? ==>
        Snapshot() == old(Snapshot()).(owner := byController, inQteMode := true,
                                       progress := 0.0, promptArmed := true)
    {
      if !authority || !isBroken || inQteMode {
        return;
      }
      qteOwner := byController;
      if qteOwner.None? {
        return;
      }
      inQteMode := true;
      repairProgress := 0.0;
      promptArmed := true;
    }

    /**
     * The prompt timer fires: during a QTE with a non-empty key list a key
     * is drawn (`roll` stands for the random index) and the answer timeout
     * is armed.
     */
    method IssuePrompt(roll: nat)
      requires Valid() && promptArmed
      modifies this
      ensures Valid()
      ensures authority && inQteMode && |qte.keys| > 0 ==>
        Snapshot() == old(Snapshot()).(promptArmed := false,
                                       promptKey := Some(qte.keys[roll % |qte.keys|]),
                                       timeoutArmed := true)
      ensures !(authority && inQteMode && |qte.keys| > 0) ==>
        Snapshot() == old(Snapshot()).(promptArmed := false)
    {
      promptArmed := false;
      if !authority || !inQteMode {
        return;
      }
      if |qte.keys| == 0 {
        return;
      }
      currentPromptKey := Some(qte.keys[roll % |qte.keys|]);
      timeoutArmed := true;
    }

    /** A failure during a QTE: lower the progress and arm the next prompt. */
    method ApplyFail()
      requires Valid()
      modifies this
      ensures Valid()
      ensures authority && inQteMode ==>
        Snapshot() == old(Snapshot()).(progress := MissProgress(old(repairProgress), qte),
                                       promptArmed := true)
      ensures !(authority && inQteMode) ==> Snapshot() == old(Snapshot())
    {
      if !authority || !inQteMode {
        return;
      }
      repairProgress := MissProgress(repairProgress, qte);
      if inQteMode {
        promptArmed := true;
      }
    }

    /** The answer timeout fires: it is a failure, exactly as a wrong key. */
    method PromptTimedOut()
      requires Valid() && timeoutArmed
      modifies this
      ensures Valid()
      ensures authority && inQteMode ==>
        Snapshot() == old(Snapshot()).(timeoutArmed := false,
                                       progress := MissProgress(old(repairProgress), qte),
                                       promptArmed := true)
      ensures !(authority && inQteMode) ==> Snapshot() == old(Snapshot()).(timeoutArmed := false)
    {
      timeoutArmed := false;
      ApplyFail();
    }

    /**
     * Ends a successful repair: both timers are cleared, QTE mode ends and
     * the fixture is working again (so its progress is 0). The recorded
     * owner is kept. Score and the completion broadcast are raised by the
     * caller.
     */
    method CompleteRepair()
      requires authority
      modifies this
      ensures Snapshot() == old(Snapshot()).(promptArmed := false, timeoutArmed := false,
                                             inQteMode := false, isBroken := false, progress := 0.0)
      ensures Valid()
    {
      promptArmed := false;
      timeoutArmed := false;
      inQteMode := false;
      SetIsBroken(false);
    }

    /** A correct key: raise the progress and complete the repair once it reaches 1. */
    method ApplySuccess() returns (completed: bool)
      requires Valid() && authority && inQteMode
      modifies this
      ensures Valid()
      ensures completed <==> HitProgress(old(repairProgress), qte) >= 1.0
      ensures completed ==>
        Snapshot() == old(Snapshot()).(promptArmed := false, timeoutArmed := false,
                                       inQteMode := false, isBroken := false, progress := 0.0)
      ensures !completed ==>
        Snapshot() == old(Snapshot()).(progress := HitProgress(old(repairProgress), qte))
    {
      repairProgress := HitProgress(repairProgress, qte);
      completed := repairProgress >= 1.0;
      if completed {
        CompleteRepair();
      }
    }

    /**
     * The QTE owner's key press reaches the server. Outside a QTE it is
     * ignored. Otherwise the answer timeout is cleared; the pressed key is
     * a hit when it equals the last prompted key, and anything else is a
     * failure. A hit that brings the progress to 1 completes the repair
     * (`completed`); in every other case exactly one next prompt is armed.
     */
    method SubmitQteInput(pressed: Key) returns (completed: bool)
      requires Valid()
      modifies this
      ensures Valid()
      ensures !(old(authority && inQteMode)) ==> Snapshot() == old(Snapshot()) && !completed
      ensures old(authority && inQteMode) ==>
        var hit := old(currentPromptKey) == Some(pressed);
        && (completed <==> hit && HitProgress(old(repairProgress), qte) >= 1.0)
        && (completed ==>
              Snapshot() == old(Snapshot()).(promptArmed := false, timeoutArmed := false,
                                             inQteMode := false, isBroken := false, progress := 0.0))
        && (hit && !completed ==>
              Snapshot() == old(Snapshot()).(timeoutArmed := false, promptArmed := true,
                                             progress := HitProgress(old(repairProgress), qte)))
        && (!hit ==>
              Snapshot() == old(Snapshot()).(timeoutArmed := false, promptArmed := true,
                                             progress := MissProgress(old(repairProgress), qte)))
    {
      completed := false;
      if !authority || !inQteMode {
        return;
      }
      timeoutArmed := false;
      if currentPromptKey == Some(pressed) {
        completed := ApplySuccess();
      } else {
        ApplyFail();
      }
      if inQteMode {
        promptArmed := true;
      }
    }

    /**
     * Any player may stop the running QTE: both timers are cleared and QTE
     * mode ends, while the progress, the broken flag and the recorded owner
     * stay as they are.
     */
    method StopRepair(requester: Option<ActorId>)
      requires Valid()
      modifies this
      ensures Valid()
      ensures old(inQteMode) ==>
        Snapshot() == old(Snapshot()).(promptArmed := false, timeoutArmed := false, inQteMode := false)
      ensures !old(inQteMode) ==> Snapshot() == old(Snapshot())
    {
      if !inQteMode {
        return;
      }
      promptArmed := false;
      timeoutArmed := false;
      inQteMode := false;
    }
  }
}
