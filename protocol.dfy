/**
 * The server-to-client messages of `src/protocol.rs`: one tag byte, then a
 * fixed layout per tag, multi-byte fields big-endian, names preceded by a
 * one-byte length. Floats reach this module already converted: the
 * positions as their IEEE-754 bit patterns, the scaled damage, hitstun and
 * shield as the product truncated toward zero (the cast `as u16` then
 * saturates), and the facing direction as the result of `facing > 0.0`.
 */
module Protocol {
  import opened Wrappers
  import opened Bytes
  import opened Io
  import Game
  import Training

  /** The tags, in declaration order; the tag byte is the position (`#[repr(u8)]`). */
  datatype MessageType =
    | ProtocolVersion
    | MappingInfoChecksum
    | MappingInfoRequest
    | MappingInfoFighterKinds
    | MappingInfoFighterStatusKinds
    | MappingInfoStageKinds
    | MappingInfoHitStatusKinds
    | MappingInfoRequestComplete
    | MatchStart
    | MatchResume
    | MatchEnd
    | TrainingStart
    | TrainingResume
    | TrainingReset
    | TrainingEnd
    | FighterState

  /** `MessageType::into()`: the tag byte. */
  function Tag(t: MessageType): (b: byte)
    ensures b < 16
  {
    match t
    case ProtocolVersion => 0
    case MappingInfoChecksum => 1
    case MappingInfoRequest => 2
    case MappingInfoFighterKinds => 3
    case MappingInfoFighterStatusKinds => 4
    case MappingInfoStageKinds => 5
    case MappingInfoHitStatusKinds => 6
    case MappingInfoRequestComplete => 7
    case MatchStart => 8
    case MatchResume => 9
    case MatchEnd => 10
    case TrainingStart => 11
    case TrainingResume => 12
    case TrainingReset => 13
    case TrainingEnd => 14
    case FighterState => 15
  }

  /** `MessageType::try_from(b)`: the tag with byte b, if there is one. */
  function FromTag(b: int): (r: Option<MessageType>)
    ensures r.Some? ==> Tag(r.value) == b
    ensures r.None? <==> !(0 <= b < 16)
  {
    if b == 0 then Some(ProtocolVersion)
    else if b == 1 then Some(MappingInfoChecksum)
    else if b == 2 then Some(MappingInfoRequest)
    else if b == 3 then Some(MappingInfoFighterKinds)
    else if b == 4 then Some(MappingInfoFighterStatusKinds)
    else if b == 5 then Some(MappingInfoStageKinds)
    else if b == 6 then Some(MappingInfoHitStatusKinds)
    else if b == 7 then Some(MappingInfoRequestComplete)
    else if b == 8 then Some(MatchStart)
    else if b == 9 then Some(MatchResume)
    else if b == 10 then Some(MatchEnd)
    else if b == 11 then Some(TrainingStart)
    else if b == 12 then Some(TrainingResume)
    else if b == 13 then Some(TrainingReset)
    else if b == 14 then Some(TrainingEnd)
    else if b == 15 then Some(FighterState)
    else None
  }

  /** Every tag converts back to itself, so distinct tags have distinct bytes. */
  lemma TagRoundTrip(t: MessageType)
    ensures FromTag(Tag(t)) == Some(t)
  {
    match t
    case ProtocolVersion =>
    case MappingInfoChecksum =>
    case MappingInfoRequest =>
    case MappingInfoFighterKinds =>
    case MappingInfoFighterStatusKinds =>
    case MappingInfoStageKinds =>
    case MappingInfoHitStatusKinds =>
    case MappingInfoRequestComplete =>
    case MatchStart =>
    case MatchResume =>
    case MatchEnd =>
    case TrainingStart =>
    case TrainingResume =>
    case TrainingReset =>
    case TrainingEnd =>
    case FighterState =>
  }

  lemma TagInjective(s: MessageType, t: MessageType)
    ensures Tag(s) == Tag(t) <==> s == t
  {
    TagRoundTrip(s);
    TagRoundTrip(t);
  }

  // ---------------------------------------------------------------------
  // Protocol version

  const Major: byte := 1
  const Minor: byte := 1

  /** The reply of `send_protocol_version`. */
  function VersionReply(): (r: seq<byte>)
    ensures |r| == 3 && FromTag(r[0]) == Some(ProtocolVersion)
  {
    [Tag(ProtocolVersion), Major, Minor]
  }

  /** `send_protocol_version`: one write of the version reply; its error is returned. */
  method SendProtocolVersion(socket: Stream<int>) returns (r: Result<(), int>)
    modifies socket
    ensures Performed([VersionReply()], socket.outcome, old(socket.calls), old(socket.sent),
                      socket.calls, socket.sent, r)
  {
    r := socket.Send(VersionReply());
  }

  // ---------------------------------------------------------------------
  // Match messages

  /**
   * `match_start_payload`: stage (u16, big-endian), the player count 2,
   * entry/kind/skin of slot 1 and of slot 2 (one byte each, truncated),
   * then each name as a one-byte length and the name's bytes.
   */
  function MatchStartPayload(stageId: int, p1: Game.Slot, p2: Game.Slot): (r: seq<byte>)
    ensures |r| == 11 + |p1.name| + |p2.name|
    ensures r[..2] == U16BE(stageId) && r[2] == 2
  {
    U16BE(stageId) + [2,
      U8(p1.entryId), U8(p1.fighterKind), U8(p1.fighterSkin),
      U8(p2.entryId), U8(p2.fighterKind), U8(p2.fighterSkin)]
    + [U8(|p1.name|)] + p1.name
    + [U8(|p2.name|)] + p2.name
  }

  /** `broadcast_match_start`: the payload with the MatchStart tag inserted in front. */
  function MatchStartMessage(stageId: int, p1: Game.Slot, p2: Game.Slot): (r: seq<byte>)
    ensures |r| == 12 + |p1.name| + |p2.name|
    ensures FromTag(r[0]) == Some(MatchStart) && r[1..] == MatchStartPayload(stageId, p1, p2)
  {
    [Tag(MatchStart)] + MatchStartPayload(stageId, p1, p2)
  }

  /** The MatchResume reply: the MatchStart payload under its own tag. */
  function MatchResumeMessage(stageId: int, p1: Game.Slot, p2: Game.Slot): (r: seq<byte>)
    ensures |r| == 12 + |p1.name| + |p2.name|
    ensures FromTag(r[0]) == Some(MatchResume) && r[1..] == MatchStartPayload(stageId, p1, p2)
  {
    [Tag(MatchResume)] + MatchStartPayload(stageId, p1, p2)
  }

  /** `broadcast_match_end`: the tag alone. */
  function MatchEndMessage(): (r: seq<byte>)
    ensures |r| == 1 && FromTag(r[0]) == Some(MatchEnd)
  {
    [Tag(MatchEnd)]
  }

  /**
   * `send_match_resume`: while a match runs, one write of the resume
   * message (its error is returned); otherwise nothing is written and the
   * result is Ok.
   */
  method SendMatchResume(socket: Stream<int>, info: Game.GameInfo) returns (r: Result<(), int>)
    modifies socket
    ensures !info.matchIsRunning ==>
              r.Ok? && socket.calls == old(socket.calls) && socket.sent == old(socket.sent)
    ensures info.matchIsRunning ==>
              Performed([MatchResumeMessage(info.stageId, info.P1(), info.P2())],
                        socket.outcome, old(socket.calls), old(socket.sent),
                        socket.calls, socket.sent, r)
  {
    if info.matchIsRunning {
      r := socket.Send(MatchResumeMessage(info.stageId, info.P1(), info.P2()));
    } else {
      r := Ok(());
    }
  }

  // ---------------------------------------------------------------------
  // Training messages

  /**
   * `training_start_payload`: the stage as `(stage >> 8) & 0xFF` and
   * `stage & 0xFF`, then the low bytes of the player and CPU fighter kinds.
   */
  function TrainingStartPayload(stageId: int, p1FighterKind: int, cpuFighterKind: int): (r: seq<byte>)
    ensures |r| == 4
    ensures r[..2] == U16BE(stageId)
    ensures r[2] == U8(p1FighterKind) && r[3] == U8(cpuFighterKind)
  {
    ShiftMaskBytes(stageId) + [U8(p1FighterKind), U8(cpuFighterKind)]
  }

  /** `broadcast_training_start`: the TrainingStart tag, then the payload. */
  function TrainingStartMessage(stageId: int, p1FighterKind: int, cpuFighterKind: int): (r: seq<byte>)
    ensures |r| == 5 && FromTag(r[0]) == Some(TrainingStart)
    ensures r[1..] == TrainingStartPayload(stageId, p1FighterKind, cpuFighterKind)
  {
    [Tag(TrainingStart)] + TrainingStartPayload(stageId, p1FighterKind, cpuFighterKind)
  }

  /** The TrainingResume reply: the TrainingStart payload under its own tag. */
  function TrainingResumeMessage(stageId: int, p1FighterKind: int, cpuFighterKind: int): (r: seq<byte>)
    ensures |r| == 5 && FromTag(r[0]) == Some(TrainingResume)
    ensures r[1..] == TrainingStartPayload(stageId, p1FighterKind, cpuFighterKind)
  {
    [Tag(TrainingResume)] + TrainingStartPayload(stageId, p1FighterKind, cpuFighterKind)
  }

  /** `broadcast_training_end`: the tag alone. */
  function TrainingEndMessage(): (r: seq<byte>)
    ensures |r| == 1 && FromTag(r[0]) == Some(TrainingEnd)
  {
    [Tag(TrainingEnd)]
  }

  /** `send_training_resume`: like the match resume, for a running training session. */
  method SendTrainingResume(socket: Stream<int>, info: Training.TrainingInfo) returns (r: Result<(), int>)
    modifies socket
    ensures !info.isRunning ==>
              r.Ok? && socket.calls == old(socket.calls) && socket.sent == old(socket.sent)
    ensures info.isRunning ==>
              Performed([TrainingResumeMessage(info.stageId, info.p1FighterKind, info.cpuFighterKind)],
                        socket.outcome, old(socket.calls), old(socket.sent),
                        socket.calls, socket.sent, r)
  {
    if info.isRunning {
      r := socket.Send(TrainingResumeMessage(info.stageId, info.p1FighterKind, info.cpuFighterKind));
    } else {
      r := Ok(());
    }
  }

  // ---------------------------------------------------------------------
  // Fighter state

  /**
   * The arguments of `broadcast_fighter_info`, floats already converted:
   * posXBits/posYBits are `to_bits()` of the f32 positions, the three
   * scaled values are the f32 products (damage*50, hitstun*100,
   * shield*200) truncated toward zero, facingPositive is `facing > 0.0`.
   * The hitlag argument is accepted by the source and never sent.
   */
  datatype FighterSample = FighterSample(
    frame: u32, entryId: int, posXBits: u32, posYBits: u32, facingPositive: bool,
    damageScaled: int, hitstunScaled: int, shieldScaled: int,
    statusKind: int, motionKind: u64, hitStatus: u64, stockCount: byte,
    attackConnected: bool, opponentInHitlag: bool)

  function Bit(b: bool): (v: byte) ensures v <= 1 && (v == 1 <==> b) { if b then 1 else 0 }

  /** The flags byte: bit 0 attack connected, bit 1 facing right, bit 2 opponent in hitlag. */
  function Flags(attackConnected: bool, facingPositive: bool, opponentInHitlag: bool): (f: byte)
    ensures f < 8
    ensures (f % 2 == 1) == attackConnected
    ensures (f / 2 % 2 == 1) == facingPositive
    ensures (f / 4 % 2 == 1) == opponentInHitlag
  {
    Bit(attackConnected) + 2 * Bit(facingPositive) + 4 * Bit(opponentInHitlag)
  }

  /** The five low bytes of the motion hash: `to_be_bytes()` of the u64 without its first three. */
  function MotionBytes(m: u64): (r: seq<byte>)
    ensures r == BE(m, 5) && FromBE(r) == m % Pow256(5)
  {
    BEDropHigh(m, 5, 3);
    FromBEOfBE(m, 5);
    BE(m, 8)[3..]
  }

  /** The 30-byte FighterState frame of `broadcast_fighter_info`: its tag, then the 29-byte payload. */
  function FighterStateMessage(s: FighterSample): (r: seq<byte>)
    ensures |r| == 30 && FromTag(r[0]) == Some(FighterState) && r[1..] == FighterStatePayload(s)
  {
    [Tag(FighterState)] + FighterStatePayload(s)
  }

  /** The fields of a fighter sample in the order they are written. */
  function FighterStatePayload(s: FighterSample): (r: seq<byte>)
    ensures |r| == 29
  {
    U32BE(s.frame)
    + [U8(s.entryId)]
    + U32BE(s.posXBits)
    + U32BE(s.posYBits)
    + U16BE(SatU16(s.damageScaled))
    + U16BE(SatU16(s.hitstunScaled))
    + U16BE(SatU16(s.shieldScaled))
    + U16BE(s.statusKind)
    + MotionBytes(s.motionKind)
    + [U8(s.hitStatus), s.stockCount, Flags(s.attackConnected, s.facingPositive, s.opponentInHitlag)]
  }
}
