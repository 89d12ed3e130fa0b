/**
 * A client's reading of the single-write messages of `Protocol`: the tag
 * byte selects a layout, fixed fields are read big-endian, and a name is
 * as long as its length byte says. Each encoder's round trip through this
 * reader is proved below; the mapping dump is read by `Entries.DecodeAll`.
 */
module Wire {
  import opened Wrappers
  import opened Bytes
  import opened Protocol
  import Game

  /** One player slot as read from a match message. */
  datatype SlotFields = SlotFields(entryId: byte, fighterKind: byte, fighterSkin: byte, name: seq<byte>)

  datatype Frame =
    | VersionFrame(major: byte, minor: byte)
    | MatchFrame(resume: bool, stage: nat, players: byte, p1: SlotFields, p2: SlotFields)
    | MatchEndFrame
    | TrainingFrame(resume: bool, stage: nat, p1FighterKind: byte, cpuFighterKind: byte)
    | TrainingEndFrame
    | FighterFrame(frame: nat, entryId: byte, posXBits: nat, posYBits: nat,
                   damage: nat, hitstun: nat, shield: nat, status: nat, motion: nat,
                   hitStatus: byte, stockCount: byte,
                   attackConnected: bool, facingRight: bool, opponentInHitlag: bool)

  /** The match payload: fixed part of 10 bytes, then two length-prefixed names filling the rest. */
  function DecodeMatch(resume: bool, b: seq<byte>): Option<Frame>
  {
    if |b| < 10 then None
    else
      var n1 := b[9] as int;
      if |b| < 11 + n1 then None
      else
        var n2 := b[10 + n1] as int;
        if |b| != 11 + n1 + n2 then None
        else Some(MatchFrame(resume, FromBE(b[..2]), b[2],
                             SlotFields(b[3], b[4], b[5], b[10..10 + n1]),
                             SlotFields(b[6], b[7], b[8], b[11 + n1..])))
  }

  function DecodeTraining(resume: bool, b: seq<byte>): Option<Frame>
  {
    if |b| != 4 then None else Some(TrainingFrame(resume, FromBE(b[..2]), b[2], b[3]))
  }

  function DecodeFighter(b: seq<byte>): Option<Frame>
  {
    if |b| != 29 then None
    else Some(FighterFrame(FromBE(b[0..4]), b[4], FromBE(b[5..9]), FromBE(b[9..13]),
                           FromBE(b[13..15]), FromBE(b[15..17]), FromBE(b[17..19]), FromBE(b[19..21]),
                           FromBE(b[21..26]), b[26], b[27],
                           b[28] % 2 == 1, b[28] / 2 % 2 == 1, b[28] / 4 % 2 == 1))
  }

  /** One message; None for a malformed one or a tag that is not a session message. */
  function Decode(s: seq<byte>): Option<Frame>
  {
    if |s| == 0 then None
    else
      var b := s[1..];
      match FromTag(s[0])
      case Some(ProtocolVersion) => if |b| == 2 then Some(VersionFrame(b[0], b[1])) else None
      case Some(MatchStart) => DecodeMatch(false, b)
      case Some(MatchResume) => DecodeMatch(true, b)
      case Some(MatchEnd) => if |b| == 0 then Some(MatchEndFrame) else None
      case Some(TrainingStart) => DecodeTraining(false, b)
      case Some(TrainingResume) => DecodeTraining(true, b)
      case Some(TrainingEnd) => if |b| == 0 then Some(TrainingEndFrame) else None
      case Some(FighterState) => DecodeFighter(b)
      case _ => None
  }

  lemma DecodeVersionReply()
    ensures Decode(VersionReply()) == Some(VersionFrame(Major, Minor))
  {
    assert VersionReply()[1..] == [Major, Minor];
  }

  /** What a slot looks like after the one-byte casts. */
  function Fields(p: Game.Slot): SlotFields
  {
    SlotFields(U8(p.entryId), U8(p.fighterKind), U8(p.fighterSkin), p.name)
  }

  lemma DecodeMatchPayload(resume: bool, stageId: int, p1: Game.Slot, p2: Game.Slot)
    requires |p1.name| < 0x100 && |p2.name| < 0x100
    ensures DecodeMatch(resume, MatchStartPayload(stageId, p1, p2))
            == Some(MatchFrame(resume, U16(stageId), 2, Fields(p1), Fields(p2)))
  {
    var b := MatchStartPayload(stageId, p1, p2);
    var n1, n2 := |p1.name|, |p2.name|;
    var fixed := U16BE(stageId) + [2, U8(p1.entryId), U8(p1.fighterKind), U8(p1.fighterSkin),
                                   U8(p2.entryId), U8(p2.fighterKind), U8(p2.fighterSkin)];
    assert |fixed| == 9;
    assert b == fixed + [U8(n1)] + p1.name + [U8(n2)] + p2.name;
    assert b[9] == n1;
    assert b[10 + n1] == n2;
    assert b[10..10 + n1] == p1.name;
    assert b[11 + n1..] == p2.name;
    U16BERoundTrip(stageId);
  }

  /**
   * A match start or resume reads back as its stage (low 16 bits), the
   * player count 2 and both slots, provided each name is shorter than 256
   * bytes (a longer name's length byte is its length modulo 256).
   */
  lemma DecodeMatchMessages(stageId: int, p1: Game.Slot, p2: Game.Slot)
    requires |p1.name| < 0x100 && |p2.name| < 0x100
    ensures Decode(MatchStartMessage(stageId, p1, p2))
            == Some(MatchFrame(false, U16(stageId), 2, Fields(p1), Fields(p2)))
    ensures Decode(MatchResumeMessage(stageId, p1, p2))
            == Some(MatchFrame(true, U16(stageId), 2, Fields(p1), Fields(p2)))
  {
    DecodeMatchPayload(false, stageId, p1, p2);
    DecodeMatchPayload(true, stageId, p1, p2);
  }

  /** A training start or resume reads back as the stage's low 16 bits and both kinds' low bytes. */
  lemma DecodeTrainingMessages(stageId: int, p1FighterKind: int, cpuFighterKind: int)
    ensures Decode(TrainingStartMessage(stageId, p1FighterKind, cpuFighterKind))
            == Some(TrainingFrame(false, U16(stageId), U8(p1FighterKind), U8(cpuFighterKind)))
    ensures Decode(TrainingResumeMessage(stageId, p1FighterKind, cpuFighterKind))
            == Some(TrainingFrame(true, U16(stageId), U8(p1FighterKind), U8(cpuFighterKind)))
  {
    U16BERoundTrip(stageId);
  }

  lemma DecodeEndMessages()
    ensures Decode(MatchEndMessage()) == Some(MatchEndFrame)
    ensures Decode(TrainingEndMessage()) == Some(TrainingEndFrame)
  {
  }

  /** Where each field of the fighter payload sits, whatever its bytes. */
  lemma FighterPayloadSlices(frame: seq<byte>, id: seq<byte>, posX: seq<byte>, posY: seq<byte>,
                             damage: seq<byte>, hitstun: seq<byte>, shield: seq<byte>,
                             status: seq<byte>, motion: seq<byte>, tail: seq<byte>)
    requires |frame| == |posX| == |posY| == 4 && |id| == 1
    requires |damage| == |hitstun| == |shield| == |status| == 2 && |motion| == 5 && |tail| == 3
    ensures var b := frame + id + posX + posY + damage + hitstun + shield + status + motion + tail;
            |b| == 29 && b[4] == id[0] && b[26] == tail[0] && b[27] == tail[1] && b[28] == tail[2]
            && b[0..4] == frame && b[5..9] == posX && b[9..13] == posY && b[13..15] == damage
            && b[15..17] == hitstun && b[17..19] == shield && b[19..21] == status && b[21..26] == motion
  {
    var head := frame + id + posX + posY;
    var mid := damage + hitstun + shield + status;
    assert head[0..4] == frame && head[5..9] == posX && head[9..13] == posY;
    assert mid[0..2] == damage && mid[2..4] == hitstun && mid[4..6] == shield && mid[6..8] == status;
    var b := head + mid + motion + tail;
    assert b[0..13] == head;
    assert b[13..21] == mid;
    assert b[21..26] == motion;
    assert b[26..] == tail;
  }

  /**
   * The 30-byte frame reads back field by field: the frame counter and both
   * position bit patterns whole, the three scaled values saturated to 16
   * bits, the status's low 16 bits, the motion hash's low 40 bits, the hit
   * status's low byte, the stock count, and the three flags.
   */
  lemma DecodeFighterState(s: FighterSample)
    ensures Decode(FighterStateMessage(s)) == Some(FighterFrame(
      s.frame, U8(s.entryId), s.posXBits, s.posYBits,
      SatU16(s.damageScaled), SatU16(s.hitstunScaled), SatU16(s.shieldScaled),
      U16(s.statusKind), s.motionKind % Pow256(5), U8(s.hitStatus), s.stockCount,
      s.attackConnected, s.facingPositive, s.opponentInHitlag))
  {
    var m := FighterStateMessage(s);
    var b := m[1..];
    var frame, posX, posY := U32BE(s.frame), U32BE(s.posXBits), U32BE(s.posYBits);
    var damage, hitstun := U16BE(SatU16(s.damageScaled)), U16BE(SatU16(s.hitstunScaled));
    var shield, status := U16BE(SatU16(s.shieldScaled)), U16BE(s.statusKind);
    var motion := MotionBytes(s.motionKind);
    var flags := Flags(s.attackConnected, s.facingPositive, s.opponentInHitlag);
    var tail := [U8(s.hitStatus), s.stockCount, flags];
    assert b == FighterStatePayload(s);
    FighterPayloadSlices(frame, [U8(s.entryId)], posX, posY, damage, hitstun, shield, status, motion, tail);
    U32BERoundTrip(s.frame);
    U32BERoundTrip(s.posXBits);
    U32BERoundTrip(s.posYBits);
    U16BERoundTrip(SatU16(s.damageScaled));
    U16BERoundTrip(SatU16(s.hitstunScaled));
    U16BERoundTrip(SatU16(s.shieldScaled));
    U16BERoundTrip(s.statusKind);
  }
}
