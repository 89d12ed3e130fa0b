/**
 * The training-session record of `src/training_info.rs`: a pending flag set
 * by the global-reset hook, a running flag, and the three facts the start
 * message needs (stage, player fighter kind, CPU fighter kind), each -1 while
 * unknown. The source's getters are the fields themselves.
 */
module Training {

  /** The value the record stores for "not known yet". */
  const Unknown: int := -1

  /** The record's fields as one value. */
  datatype Snapshot = Snapshot(
    startPending: bool, isRunning: bool, stageId: int, p1FighterKind: int, cpuFighterKind: int)
  {
    /** `have_enough_info_to_start`: both fighter kinds and the stage are known. */
    predicate HaveEnoughInfoToStart()
    {
      p1FighterKind != Unknown && cpuFighterKind != Unknown && stageId != Unknown
    }
  }

  class TrainingInfo {
    var startPending: bool
    var isRunning: bool
    var stageId: int
    var p1FighterKind: int
    var cpuFighterKind: int

    function Snap(): Snapshot
      reads this
    {
      Snapshot(startPending, isRunning, stageId, p1FighterKind, cpuFighterKind)
    }

    predicate HaveEnoughInfoToStart()
      reads this
    {
      Snap().HaveEnoughInfoToStart()
    }

    /** `TrainingInfo::new`: idle, nothing pending, nothing known. */
    constructor ()
      ensures !startPending && !isRunning
      ensures stageId == Unknown && p1FighterKind == Unknown && cpuFighterKind == Unknown
      ensures !HaveEnoughInfoToStart()
    {
      startPending := false;
      isRunning := false;
      stageId := Unknown;
      p1FighterKind := Unknown;
      cpuFighterKind := Unknown;
    }

    /** `stop`: no longer running and every fact forgotten; the pending flag is left alone. */
    method Stop()
      modifies this
      ensures !isRunning && startPending == old(startPending)
      ensures stageId == Unknown && p1FighterKind == Unknown && cpuFighterKind == Unknown
      ensures !HaveEnoughInfoToStart()
    {
      isRunning := false;
      stageId := Unknown;
      p1FighterKind := Unknown;
      cpuFighterKind := Unknown;
    }

    /** `set_start_pending`: raises the pending flag and nothing else. */
    method SetStartPending()
      modifies this
      ensures startPending && isRunning == old(isRunning)
      ensures stageId == old(stageId) && p1FighterKind == old(p1FighterKind)
      ensures cpuFighterKind == old(cpuFighterKind)
    {
      startPending := true;
    }

    /** `start`: pending becomes running; the recorded facts stay as they are. */
    method Start()
      modifies this
      ensures !startPending && isRunning
      ensures stageId == old(stageId) && p1FighterKind == old(p1FighterKind)
      ensures cpuFighterKind == old(cpuFighterKind)
      ensures HaveEnoughInfoToStart() == old(HaveEnoughInfoToStart())
    {
      startPending := false;
      isRunning := true;
    }

    /** `set_player_info`: records the player's fighter kind only. */
    method SetPlayerInfo(fighterKind: int)
      modifies this
      ensures p1FighterKind == fighterKind
      ensures startPending == old(startPending) && isRunning == old(isRunning)
      ensures stageId == old(stageId) && cpuFighterKind == old(cpuFighterKind)
    {
      p1FighterKind := fighterKind;
    }

    /** `set_cpu_info`: records the CPU's fighter kind only. */
    method SetCpuInfo(fighterKind: int)
      modifies this
      ensures cpuFighterKind == fighterKind
      ensures startPending == old(startPending) && isRunning == old(isRunning)
      ensures stageId == old(stageId) && p1FighterKind == old(p1FighterKind)
    {
      cpuFighterKind := fighterKind;
    }

    /** `set_stage`: records the stage only. */
    method SetStage(stageId: int)
      modifies this
      ensures this.stageId == stageId
      ensures startPending == old(startPending) && isRunning == old(isRunning)
      ensures p1FighterKind == old(p1FighterKind) && cpuFighterKind == old(cpuFighterKind)
    {
      this.stageId := stageId;
    }
  }
}
