/**
 * The mapping dump of `src/protocol.rs`: the four name tables (fighter
 * kinds, stage kinds, fighter status kinds, hit status kinds), the CRC-32
 * checksum over them, and the order in which a client is sent all of it.
 * The tables themselves are not part of this model and are parameters; so is
 * the CRC function, which sees the bytes fed to the digest in order.
 */
module Mapping {
  import opened Wrappers
  import opened Bytes
  import opened Seqs
  import opened Io
  import opened Entries
  import Protocol

  /** A table row with one code: `(kind, name)`. */
  datatype Named = Named(code: int, name: seq<byte>)

  /** A status-table row: `(status, fighter, name)`. */
  datatype StatusKind = StatusKind(status: int, fighter: int, name: seq<byte>)

  datatype Tables = Tables(
    fighters: seq<Named>, stages: seq<Named>, statuses: seq<StatusKind>, hits: seq<Named>)

  /** Fighter and hit-status rows carry their code `as u8`. */
  function ByteCodedRow(k: Named): Entry { Entry([U8(k.code)], k.name) }

  /** Stage rows carry their code `as u16`, big-endian. */
  function StageRow(k: Named): Entry { Entry(U16BE(k.code), k.name) }

  /** Status rows carry the fighter `as u8`, then the status `as u16`, big-endian. */
  function StatusRow(s: StatusKind): Entry { Entry([U8(s.fighter)] + U16BE(s.status), s.name) }

  function FighterRows(t: Tables): seq<Entry> { Map(t.fighters, ByteCodedRow) }
  function StageRows(t: Tables): seq<Entry> { Map(t.stages, StageRow) }
  function StatusRows(t: Tables): seq<Entry> { Map(t.statuses, StatusRow) }
  function HitRows(t: Tables): seq<Entry> { Map(t.hits, ByteCodedRow) }

  const FighterTag: byte := Protocol.Tag(Protocol.MappingInfoFighterKinds)
  const StatusTag: byte := Protocol.Tag(Protocol.MappingInfoFighterStatusKinds)
  const StageTag: byte := Protocol.Tag(Protocol.MappingInfoStageKinds)
  const HitTag: byte := Protocol.Tag(Protocol.MappingInfoHitStatusKinds)

  /**
   * The bytes `calc_mapping_info_checksum` feeds the digest: fighters,
   * stages, statuses, hit statuses (not the order of the dump), each row as
   * its code bytes and its name, with no tags and no lengths.
   */
  function ChecksumInput(t: Tables): seq<byte>
  {
    DigestAll(FighterRows(t)) + DigestAll(StageRows(t)) + DigestAll(StatusRows(t)) + DigestAll(HitRows(t))
  }

  /** One table loop of `calc_mapping_info_checksum`: `update(code)` then `update(name)` per row. */
  method UpdateDigest(digest: seq<byte>, rows: seq<Entry>) returns (d: seq<byte>)
    ensures d == digest + DigestAll(rows)
  {
    d := digest;
    for i := 0 to |rows|
      invariant d == digest + DigestAll(rows[..i])
    {
      DigestAllSnoc(rows, i);
      d := d + rows[i].code;
      d := d + rows[i].name;
    }
    assert rows[..|rows|] == rows;
  }

  /** `calc_mapping_info_checksum`: the four loops, then `finalize`. */
  method CalcMappingInfoChecksum(t: Tables, crc: seq<byte> -> u32) returns (checksum: u32)
    ensures checksum == crc(ChecksumInput(t))
  {
    var d := UpdateDigest([], FighterRows(t));
    assert d == DigestAll(FighterRows(t));
    d := UpdateDigest(d, StageRows(t));
    d := UpdateDigest(d, StatusRows(t));
    d := UpdateDigest(d, HitRows(t));
    checksum := crc(d);
  }

  /** A checksum message: the tag, then the checksum big-endian. */
  function ChecksumMessage(tag: Protocol.MessageType, checksum: u32): (r: seq<byte>)
    ensures |r| == 5 && Protocol.FromTag(r[0]) == Some(tag) && FromBE(r[1..]) == checksum
  {
    Protocol.TagRoundTrip(tag);
    U32BERoundTrip(checksum);
    [Protocol.Tag(tag)] + U32BE(checksum)
  }

  /** `send_mapping_info_checksum`: one write of the checksum under the MappingInfoChecksum tag. */
  method SendMappingInfoChecksum(socket: Stream<int>, t: Tables, crc: seq<byte> -> u32)
    returns (r: Result<(), int>)
    modifies socket
    ensures Performed([ChecksumMessage(Protocol.MappingInfoChecksum, crc(ChecksumInput(t)))],
                      socket.outcome, old(socket.calls), old(socket.sent), socket.calls, socket.sent, r)
  {
    var checksum := CalcMappingInfoChecksum(t, crc);
    r := socket.Send(ChecksumMessage(Protocol.MappingInfoChecksum, checksum));
  }

  /** The loop shared by three `send_*_constants`: every row appended to one buffer. */
  method BuildRows(tag: byte, rows: seq<Entry>) returns (buf: seq<byte>)
    ensures buf == EncodeAll(tag, rows)
  {
    buf := [];
    for i := 0 to |rows|
      invariant buf == EncodeAll(tag, rows[..i])
    {
      EncodeAllSnoc(tag, rows, i);
      buf := buf + Encode(tag, rows[i]);
    }
    assert rows[..|rows|] == rows;
  }

  /** The buffer of a whole table, in a single write. */
  method SendRows(socket: Stream<int>, tag: byte, rows: seq<Entry>) returns (r: Result<(), int>)
    modifies socket
    ensures Performed([EncodeAll(tag, rows)], socket.outcome, old(socket.calls), old(socket.sent),
                      socket.calls, socket.sent, r)
  {
    var buf := BuildRows(tag, rows);
    r := socket.Send(buf);
  }

  /** `send_fighter_kind_constants`: the fighter table in a single write. */
  method SendFighterKindConstants(socket: Stream<int>, t: Tables) returns (r: Result<(), int>)
    modifies socket
    ensures Performed([EncodeAll(FighterTag, FighterRows(t))], socket.outcome, old(socket.calls),
                      old(socket.sent), socket.calls, socket.sent, r)
  {
    r := SendRows(socket, FighterTag, FighterRows(t));
  }

  /** `send_stage_constants`: the stage table in a single write. */
  method SendStageConstants(socket: Stream<int>, t: Tables) returns (r: Result<(), int>)
    modifies socket
    ensures Performed([EncodeAll(StageTag, StageRows(t))], socket.outcome, old(socket.calls),
                      old(socket.sent), socket.calls, socket.sent, r)
  {
    r := SendRows(socket, StageTag, StageRows(t));
  }

  /** `send_hit_status_constants`: the hit-status table in a single write. */
  method SendHitStatusConstants(socket: Stream<int>, t: Tables) returns (r: Result<(), int>)
    modifies socket
    ensures Performed([EncodeAll(HitTag, HitRows(t))], socket.outcome, old(socket.calls),
                      old(socket.sent), socket.calls, socket.sent, r)
  {
    r := SendRows(socket, HitTag, HitRows(t));
  }

  /** The status rows, one message each. */
  function StatusMessages(t: Tables): seq<seq<byte>>
  {
    Map(StatusRows(t), (e: Entry) => Encode(StatusTag, e))
  }

  /** `send_fighter_status_kind_constants`: one write per row, stopping at the first error. */
  method SendFighterStatusKindConstants(socket: Stream<int>, t: Tables) returns (r: Result<(), int>)
    modifies socket
    ensures Performed(StatusMessages(t), socket.outcome, old(socket.calls), old(socket.sent),
                      socket.calls, socket.sent, r)
  {
    r := SendEach(socket, StatusMessages(t));
  }

  /** The writes of the four tables, in dump order: fighters, statuses (one per row), stages, hit statuses. */
  function TableWrites(t: Tables): (w: seq<seq<byte>>)
    ensures |w| == 3 + |t.statuses|
    ensures w[0] == EncodeAll(FighterTag, FighterRows(t))
    ensures w[1..1 + |t.statuses|] == StatusMessages(t)
    ensures w[1 + |t.statuses|] == EncodeAll(StageTag, StageRows(t))
    ensures w[2 + |t.statuses|] == EncodeAll(HitTag, HitRows(t))
  {
    var statuses := StatusMessages(t);
    var w := FighterAndStatusWrites(t) + StageAndHitWrites(t);
    assert w[1..1 + |statuses|] == statuses;
    w
  }

  /** The first two table writes of the dump: the fighter buffer, then one write per status row. */
  function FighterAndStatusWrites(t: Tables): seq<seq<byte>>
  {
    [EncodeAll(FighterTag, FighterRows(t))] + StatusMessages(t)
  }

  /** The last two table writes of the dump: the stage buffer, then the hit-status buffer. */
  function StageAndHitWrites(t: Tables): seq<seq<byte>>
  {
    [EncodeAll(StageTag, StageRows(t)), EncodeAll(HitTag, HitRows(t))]
  }

  /** Lines 94-97 of `send_mapping_info`: the four table senders in turn, each result checked with `?`. */
  method SendTables(socket: Stream<int>, t: Tables) returns (r: Result<(), int>)
    modifies socket
    ensures Performed(TableWrites(t), socket.outcome, old(socket.calls), old(socket.sent),
                      socket.calls, socket.sent, r)
  {
    ghost var first, second := FighterAndStatusWrites(t), StageAndHitWrites(t);
    assert TableWrites(t) == first + second;
    ghost var c0, s0 := socket.calls, socket.sent;
    r := SendFightersAndStatuses(socket, t);
    if r.Err? {
      PerformedStop(first, second, socket.outcome, c0, s0, socket.calls, socket.sent, r);
      return;
    }
    ghost var c1, s1 := socket.calls, socket.sent;
    r := SendStagesAndHits(socket, t);
    PerformedThen(first, second, socket.outcome, c0, s0, c1, s1, socket.calls, socket.sent, r);
  }

  /** Lines 94-95: the fighter table, then (when it went out) the status rows. */
  method SendFightersAndStatuses(socket: Stream<int>, t: Tables) returns (r: Result<(), int>)
    modifies socket
    ensures Performed(FighterAndStatusWrites(t), socket.outcome, old(socket.calls), old(socket.sent),
                      socket.calls, socket.sent, r)
  {
    ghost var fighters, statuses := [EncodeAll(FighterTag, FighterRows(t))], StatusMessages(t);
    ghost var c0, s0 := socket.calls, socket.sent;
    r := SendFighterKindConstants(socket, t);
    if r.Err? {
      PerformedStop(fighters, statuses, socket.outcome, c0, s0, socket.calls, socket.sent, r);
      return;
    }
    ghost var c1, s1 := socket.calls, socket.sent;
    r := SendFighterStatusKindConstants(socket, t);
    PerformedThen(fighters, statuses, socket.outcome, c0, s0, c1, s1, socket.calls, socket.sent, r);
  }

  /** Lines 96-97: the stage table, then (when it went out) the hit-status table. */
  method SendStagesAndHits(socket: Stream<int>, t: Tables) returns (r: Result<(), int>)
    modifies socket
    ensures Performed(StageAndHitWrites(t), socket.outcome, old(socket.calls), old(socket.sent),
                      socket.calls, socket.sent, r)
  {
    ghost var stages, hits := [EncodeAll(StageTag, StageRows(t))], [EncodeAll(HitTag, HitRows(t))];
    assert StageAndHitWrites(t) == stages + hits;
    ghost var c0, s0 := socket.calls, socket.sent;
    r := SendStageConstants(socket, t);
    if r.Err? {
      PerformedStop(stages, hits, socket.outcome, c0, s0, socket.calls, socket.sent, r);
      return;
    }
    ghost var c1, s1 := socket.calls, socket.sent;
    r := SendHitStatusConstants(socket, t);
    PerformedThen(stages, hits, socket.outcome, c0, s0, c1, s1, socket.calls, socket.sent, r);
  }

  /**
   * Every write of a complete dump, in order: the checksum under the
   * MappingInfoRequest tag, the fighter buffer, one write per status row,
   * the stage buffer, the hit-status buffer, the completion tag.
   */
  function MappingInfoWrites(t: Tables, crc: seq<byte> -> u32): (w: seq<seq<byte>>)
    ensures |w| == 5 + |t.statuses|
    ensures w[0] == ChecksumMessage(Protocol.MappingInfoRequest, crc(ChecksumInput(t)))
    ensures w[1] == EncodeAll(FighterTag, FighterRows(t))
    ensures w[2..2 + |t.statuses|] == StatusMessages(t)
    ensures w[2 + |t.statuses|] == EncodeAll(StageTag, StageRows(t))
    ensures w[3 + |t.statuses|] == EncodeAll(HitTag, HitRows(t))
    ensures w[4 + |t.statuses|] == [7]
  {
    var tables := TableWrites(t);
    var n := |t.statuses|;
    var w := [ChecksumMessage(Protocol.MappingInfoRequest, crc(ChecksumInput(t)))]
             + tables + [[Protocol.Tag(Protocol.MappingInfoRequestComplete)]];
    assert w[1..4 + n] == tables;
    assert w[2..2 + n] == tables[1..1 + n];
    w
  }

  /**
   * `send_mapping_info`: the checksum is computed first, then each step is
   * written in turn and the first error ends the dump.
   */
  method SendMappingInfo(socket: Stream<int>, t: Tables, crc: seq<byte> -> u32) returns (r: Result<(), int>)
    modifies socket
    ensures Performed(MappingInfoWrites(t, crc), socket.outcome, old(socket.calls), old(socket.sent),
                      socket.calls, socket.sent, r)
  {
    ghost var head := [ChecksumMessage(Protocol.MappingInfoRequest, crc(ChecksumInput(t)))];
    ghost var rest := TableWrites(t) + [[Protocol.Tag(Protocol.MappingInfoRequestComplete)]];
    assert MappingInfoWrites(t, crc) == head + rest;
    ghost var c0, s0 := socket.calls, socket.sent;

    var checksum := CalcMappingInfoChecksum(t, crc);
    r := socket.Send(ChecksumMessage(Protocol.MappingInfoRequest, checksum));
    if r.Err? {
      PerformedStop(head, rest, socket.outcome, c0, s0, socket.calls, socket.sent, r);
      return;
    }

    ghost var c1, s1 := socket.calls, socket.sent;
    r := SendTablesAndCompletion(socket, t);
    PerformedThen(head, rest, socket.outcome, c0, s0, c1, s1, socket.calls, socket.sent, r);
  }

  /** The rest of `send_mapping_info`: the four tables, then (when they all went out) the completion tag. */
  method SendTablesAndCompletion(socket: Stream<int>, t: Tables) returns (r: Result<(), int>)
    modifies socket
    ensures Performed(TableWrites(t) + [[Protocol.Tag(Protocol.MappingInfoRequestComplete)]],
                      socket.outcome, old(socket.calls), old(socket.sent), socket.calls, socket.sent, r)
  {
    ghost var tables := TableWrites(t);
    ghost var tail: seq<seq<byte>> := [[Protocol.Tag(Protocol.MappingInfoRequestComplete)]];
    ghost var c0, s0 := socket.calls, socket.sent;
    r := SendTables(socket, t);
    if r.Err? {
      PerformedStop(tables, tail, socket.outcome, c0, s0, socket.calls, socket.sent, r);
      return;
    }
    ghost var c1, s1 := socket.calls, socket.sent;
    r := socket.Send([Protocol.Tag(Protocol.MappingInfoRequestComplete)]);
    PerformedThen(tables, tail, socket.outcome, c0, s0, c1, s1, socket.calls, socket.sent, r);
  }

  /** No name in any table is longer than its one-byte length can say. */
  predicate NamesFit(t: Tables)
  {
    && (forall i | 0 <= i < |t.fighters| :: |t.fighters[i].name| < 0x100)
    && (forall i | 0 <= i < |t.stages| :: |t.stages[i].name| < 0x100)
    && (forall i | 0 <= i < |t.statuses| :: |t.statuses[i].name| < 0x100)
    && (forall i | 0 <= i < |t.hits| :: |t.hits[i].name| < 0x100)
  }

  /** The status messages, read back to back, are the status rows framed like the other tables. */
  lemma StatusMessagesConcat(t: Tables)
    ensures Concat(StatusMessages(t)) == EncodeAll(StatusTag, StatusRows(t))
  {
  }

  /**
   * A client holding a complete dump can recompute its checksum: decoding
   * the four tables and feeding their rows in checksum order gives back
   * exactly the digest input.
   */
  lemma ClientRecomputesChecksum(t: Tables, crc: seq<byte> -> u32)
    requires NamesFit(t)
    ensures var w := MappingInfoWrites(t, crc);
            var n := |t.statuses|;
            var f := DecodeAll(FighterTag, 1, w[1]);
            var st := DecodeAll(StatusTag, 3, Concat(w[2..2 + n]));
            var sg := DecodeAll(StageTag, 2, w[2 + n]);
            var h := DecodeAll(HitTag, 1, w[3 + n]);
            && f.Some? && st.Some? && sg.Some? && h.Some?
            && ChecksumInput(t) == DigestAll(f.value) + DigestAll(sg.value) + DigestAll(st.value) + DigestAll(h.value)
            && FromBE(w[0][1..]) == crc(ChecksumInput(t))
  {
    StatusMessagesConcat(t);
    DecodeEncodeAll(FighterTag, 1, FighterRows(t));
    DecodeEncodeAll(StatusTag, 3, StatusRows(t));
    DecodeEncodeAll(StageTag, 2, StageRows(t));
    DecodeEncodeAll(HitTag, 1, HitRows(t));
  }

  /**
   * Because the digest input carries no lengths, moving a byte across a row
   * boundary does not change it: two different fighter tables get the same
   * checksum.
   */
  lemma ChecksumIgnoresRowBoundaries()
    ensures exists t1: Tables, t2: Tables :: t1 != t2 && ChecksumInput(t1) == ChecksumInput(t2)
  {
    var t1 := Tables([Named(1, [2])], [], [], []);
    var t2 := Tables([Named(1, []), Named(2, [])], [], [], []);
    var e1, e2, e3 := Entry([1], [2]), Entry([1], []), Entry([2], []);
    assert FighterRows(t1) == [e1];
    assert FighterRows(t2) == [e2, e3];
    assert Digest(e1) == [1, 2] && Digest(e2) == [1] && Digest(e3) == [2];
    assert Map([e1], Digest) == [[1, 2]];
    assert Map([e2, e3], Digest) == [[1], [2]];
    assert [[1, 2]][..0] == [] && [[1], [2]][..1] == [[1]] && [[1]][..0] == [];
    assert DigestAll([e1]) == [1, 2];
    assert DigestAll([e2, e3]) == [1, 2];
    assert t1.fighters != t2.fighters by { assert |t1.fighters| != |t2.fighters|; }
    assert ChecksumInput(t1) == ChecksumInput(t2);
  }
}
