/**
 * The match record of `src/game_info.rs`: a running flag, the stage, and two
 * player slots (entry id, display name, fighter kind), -1 while unknown.
 *
 * The skin fields are an assumption: the frame hook passes a skin to
 * `set_player_info` and the match-start payload reads `p1_fighter_skin()` and
 * `p2_fighter_skin()`, but the record as written has neither. They are added
 * here and behave exactly like the fighter kinds (start at -1, written with
 * the kind, untouched by `set_match_end`).
 */
module Game {
  import opened Bytes

  /** The value the record stores for "not known yet". */
  const Unknown: int := -1

  /** One participant's slot, as the match-start message reads it. */
  datatype Slot = Slot(entryId: int, name: seq<byte>, fighterKind: int, fighterSkin: int)

  /** The record's fields as one value. */
  datatype Snapshot = Snapshot(matchIsRunning: bool, stageId: int, p1: Slot, p2: Slot)
  {
    /** `have_enough_info_to_start_match`: both slots are taken and the stage is known. */
    predicate HaveEnoughInfoToStartMatch()
    {
      p1.entryId != Unknown && p2.entryId != Unknown && stageId != Unknown
    }

    /** What `set_player_info` makes of the record: slot 1 while it is free, otherwise slot 2. */
    function WithPlayer(slot: Slot): Snapshot
    {
      if p1.entryId == Unknown then this.(p1 := slot) else this.(p2 := slot)
    }
  }

  /** The record after `set_player_info` with each of the slots in turn. */
  function WithPlayers(g: Snapshot, slots: seq<Slot>): Snapshot
    decreases |slots|
  {
    if |slots| == 0 then g else WithPlayers(g.WithPlayer(slots[0]), slots[1..])
  }

  /**
   * Once slot 1 holds a known entry, further calls never touch it: every
   * one overwrites slot 2, so slot 2 ends up with the last of them.
   */
  lemma {:induction false} FirstSlotStaysFilled(g: Snapshot, slots: seq<Slot>)
    requires g.p1.entryId != Unknown
    ensures WithPlayers(g, slots).p1 == g.p1
    ensures WithPlayers(g, slots).stageId == g.stageId && WithPlayers(g, slots).matchIsRunning == g.matchIsRunning
    ensures |slots| > 0 ==> WithPlayers(g, slots).p2 == slots[|slots| - 1]
    decreases |slots|
  {
    if |slots| > 0 {
      var g1 := g.WithPlayer(slots[0]);
      FirstSlotStaysFilled(g1, slots[1..]);
      if |slots| > 1 {
        assert slots[1..][|slots[1..]| - 1] == slots[|slots| - 1];
      }
    }
  }

  /**
   * The same known entry reported twice fills both slots with it, and the
   * record then has enough information to start a match.
   */
  lemma SameEntryFillsBothSlots(g: Snapshot, slot: Slot)
    requires g.p1.entryId == Unknown && slot.entryId != Unknown && g.stageId != Unknown
    ensures var g2 := g.WithPlayer(slot).WithPlayer(slot);
            g2.p1 == slot && g2.p2 == slot && g2.HaveEnoughInfoToStartMatch()
  {
  }

  class GameInfo {
    var matchIsRunning: bool
    var stageId: int
    var p1EntryId: int
    var p1Name: seq<byte>
    var p1FighterKind: int
    var p1FighterSkin: int
    var p2EntryId: int
    var p2Name: seq<byte>
    var p2FighterKind: int
    var p2FighterSkin: int

    function P1(): Slot reads this { Slot(p1EntryId, p1Name, p1FighterKind, p1FighterSkin) }
    function P2(): Slot reads this { Slot(p2EntryId, p2Name, p2FighterKind, p2FighterSkin) }

    function Snap(): Snapshot
      reads this
    {
      Snapshot(matchIsRunning, stageId, P1(), P2())
    }

    predicate HaveEnoughInfoToStartMatch()
      reads this
    {
      Snap().HaveEnoughInfoToStartMatch()
    }

    /** `GameInfo::new`: not running, everything unknown, both names empty. */
    constructor ()
      ensures !matchIsRunning && stageId == Unknown
      ensures P1() == Slot(Unknown, [], Unknown, Unknown)
      ensures P2() == Slot(Unknown, [], Unknown, Unknown)
      ensures !HaveEnoughInfoToStartMatch()
    {
      matchIsRunning := false;
      stageId := Unknown;
      p1EntryId, p1Name, p1FighterKind, p1FighterSkin := Unknown, [], Unknown, Unknown;
      p2EntryId, p2Name, p2FighterKind, p2FighterSkin := Unknown, [], Unknown, Unknown;
    }

    /** `set_match_end`: not running, both slots freed; stage, names, kinds and skins are kept. */
    method SetMatchEnd()
      modifies this
      ensures !matchIsRunning && stageId == old(stageId)
      ensures P1() == old(P1()).(entryId := Unknown)
      ensures P2() == old(P2()).(entryId := Unknown)
      ensures !HaveEnoughInfoToStartMatch()
    {
      matchIsRunning := false;
      p1EntryId := Unknown;
      p2EntryId := Unknown;
    }

    /** `set_match_start`: raises the running flag and nothing else. */
    method SetMatchStart()
      modifies this
      ensures matchIsRunning && stageId == old(stageId)
      ensures P1() == old(P1()) && P2() == old(P2())
    {
      matchIsRunning := true;
    }

    /**
     * `set_player_info`: fills slot 1 while its entry id is unknown, and
     * otherwise (over)writes slot 2; the other slot is not touched.
     */
    method SetPlayerInfo(entryId: int, name: seq<byte>, fighterKind: int, fighterSkin: int)
      modifies this
      ensures matchIsRunning == old(matchIsRunning) && stageId == old(stageId)
      ensures old(p1EntryId) == Unknown ==>
                P1() == Slot(entryId, name, fighterKind, fighterSkin) && P2() == old(P2())
      ensures old(p1EntryId) != Unknown ==>
                P2() == Slot(entryId, name, fighterKind, fighterSkin) && P1() == old(P1())
      ensures Snap() == old(Snap()).WithPlayer(Slot(entryId, name, fighterKind, fighterSkin))
    {
      if p1EntryId == Unknown {
        p1EntryId := entryId;
        p1Name := name;
        p1FighterKind := fighterKind;
        p1FighterSkin := fighterSkin;
      } else {
        p2EntryId := entryId;
        p2Name := name;
        p2FighterKind := fighterKind;
        p2FighterSkin := fighterSkin;
      }
    }

    /** `set_stage`: records the stage only. */
    method SetStage(stageId: int)
      modifies this
      ensures this.stageId == stageId && matchIsRunning == old(matchIsRunning)
      ensures P1() == old(P1()) && P2() == old(P2())
    {
      this.stageId := stageId;
    }
  }
}
