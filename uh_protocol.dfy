/**
 * The constants dump of the legacy `uhrecorder` crate
 * (`uhrecorder/src/protocol.rs`): every fighter kind and then every stage
 * kind, one write per entry, each entry `[tag, kind as u8, name length as
 * u8] ++ name`. The stage table is written out in the source and here; the
 * fighter kinds are the game's constants, which are not part of this model,
 * so the fighter table is a parameter.
 */
module UhProtocol {
  import opened Wrappers
  import opened Bytes
  import opened Seqs
  import opened Io
  import opened Entries

  datatype MessageType = FighterKind | StageKind

  /** The `#[repr(u8)]` value: the variant's position. */
  function Tag(t: MessageType): (b: byte)
    ensures b < 2
    ensures b == 0 <==> t == FighterKind
  {
    match t
    case FighterKind => 0
    case StageKind => 1
  }

  /** A table row: the kind and its display name's bytes. */
  datatype Kind = Kind(kind: int, name: seq<byte>)

  /** The row with its kind cast to one byte, in the framing of `Entries`. */
  function Row(k: Kind): Entry { Entry([U8(k.kind)], k.name) }

  /** One write of the dump: `[tag, kind as u8, name.len() as u8] ++ name`. */
  function EntryMessage(t: MessageType, k: Kind): (r: seq<byte>)
    ensures |r| == 3 + |k.name|
    ensures r[0] == Tag(t) && r[1] == U8(k.kind) && r[2] == U8(|k.name|) && r[3..] == k.name
  {
    Encode(Tag(t), Row(k))
  }

  /** The stage table of `send_stage_constants`, in its order. */
  const StageTable: seq<Kind> := FirstStages + LastStages

  const FirstStages: seq<Kind> := [
    Kind(0, Ascii("Battlefield")),
    Kind(1, Ascii("Final Destination")),
    Kind(3, Ascii("Final Destination")),
    Kind(4, Ascii("Battlefield")),
    Kind(5, Ascii("Peach's Castle")),
    Kind(44, Ascii("Yoshi's Story"))
  ]

  const LastStages: seq<Kind> := [
    Kind(89, Ascii("Lylat Cruise")),
    Kind(95, Ascii("Smashville")),
    Kind(107, Ascii("Pokemon Stadium 2")),
    Kind(242, Ascii("Kalos Pokemon League")),
    Kind(257, Ascii("Town and City")),
    Kind(347, Ascii("Small Battlefield"))
  ]

  function FighterMessages(fighters: seq<Kind>): (w: seq<seq<byte>>)
    ensures |w| == |fighters|
    ensures forall i | 0 <= i < |fighters| :: w[i] == EntryMessage(FighterKind, fighters[i])
  {
    Map(fighters, (k: Kind) => EntryMessage(FighterKind, k))
  }

  function StageMessages(): (w: seq<seq<byte>>)
    ensures |w| == |StageTable|
    ensures forall i | 0 <= i < |StageTable| :: w[i] == EntryMessage(StageKind, StageTable[i])
  {
    Map(StageTable, (k: Kind) => EntryMessage(StageKind, k))
  }

  /** Every write of `send_constants`, in order: all fighter entries, then all stage entries. */
  function ConstantWrites(fighters: seq<Kind>): (w: seq<seq<byte>>)
    ensures |w| == |fighters| + |StageTable|
    ensures forall i | 0 <= i < |fighters| :: w[i] == EntryMessage(FighterKind, fighters[i])
    ensures forall j | 0 <= j < |StageTable| :: w[|fighters| + j] == EntryMessage(StageKind, StageTable[j])
  {
    FighterMessages(fighters) + StageMessages()
  }

  /** `send_fighter_constants`: one write per fighter, stopping at the first error. */
  method SendFighterConstants<E>(client: Stream<E>, fighters: seq<Kind>) returns (r: Result<(), E>)
    modifies client
    ensures Performed(FighterMessages(fighters), client.outcome, old(client.calls), old(client.sent),
                      client.calls, client.sent, r)
  {
    r := SendEach(client, FighterMessages(fighters));
  }

  /** `send_stage_constants`: one write per stage, stopping at the first error. */
  method SendStageConstants<E>(client: Stream<E>) returns (r: Result<(), E>)
    modifies client
    ensures Performed(StageMessages(), client.outcome, old(client.calls), old(client.sent),
                      client.calls, client.sent, r)
  {
    r := SendEach(client, StageMessages());
  }

  /** `Protocol::send_constants`: the fighters, then (when they all went out) the stages. */
  method SendConstants<E>(client: Stream<E>, fighters: seq<Kind>) returns (r: Result<(), E>)
    modifies client
    ensures Performed(ConstantWrites(fighters), client.outcome, old(client.calls), old(client.sent),
                      client.calls, client.sent, r)
  {
    ghost var c0, s0 := client.calls, client.sent;
    r := SendFighterConstants(client, fighters);
    if r.Err? {
      PerformedStop(FighterMessages(fighters), StageMessages(), client.outcome, c0, s0,
                    client.calls, client.sent, r);
      return;
    }
    ghost var c1, s1 := client.calls, client.sent;
    r := SendStageConstants(client);
    PerformedThen(FighterMessages(fighters), StageMessages(), client.outcome, c0, s0, c1, s1,
                  client.calls, client.sent, r);
  }

  // ---------------------------------------------------------------------
  // Properties

  /** An entry with an empty name is the three bytes tag, kind, 0. */
  lemma EmptyNameEntry(t: MessageType, kind: int)
    ensures EntryMessage(t, Kind(kind, [])) == [Tag(t), U8(kind), 0]
  {
    var r := EntryMessage(t, Kind(kind, []));
    assert r == [r[0], r[1], r[2]];
  }

  /**
   * The one-byte kind cast folds the two largest stage ids: 257 goes out as
   * 1, the code of the second entry ("Final Destination"), and 347 as 91.
   */
  lemma StageKindsTruncate()
    ensures StageMessages()[10][1] == 1 && StageMessages()[11][1] == 91
    ensures StageMessages()[1][1] == StageMessages()[10][1]
    ensures StageTable[1].name != StageTable[10].name
  {
    assert StageTable[10].kind == 257 && StageTable[11].kind == 347 && StageTable[1].kind == 1;
    assert U8(257) == 1 && U8(347) == 91;
    assert StageTable[1].name[0] == 'F' as int && StageTable[10].name[0] == 'T' as int;
  }

  /** A client reading the fighter entries back to back recovers the table, each kind as its low byte. */
  lemma FighterStreamDecodes(fighters: seq<Kind>)
    requires forall i | 0 <= i < |fighters| :: |fighters[i].name| < 0x100
    ensures DecodeAll(Tag(FighterKind), 1, Concat(FighterMessages(fighters))) == Some(Map(fighters, Row))
  {
    var rows := Map(fighters, Row);
    assert FighterMessages(fighters) == Map(rows, (e: Entry) => Encode(Tag(FighterKind), e));
    DecodeEncodeAll(Tag(FighterKind), 1, rows);
  }

  /** Every stage name fits its length byte, so the stage entries read back as the table's rows. */
  lemma StageStreamDecodes()
    ensures DecodeAll(Tag(StageKind), 1, Concat(StageMessages())) == Some(Map(StageTable, Row))
  {
    var rows := Map(StageTable, Row);
    assert StageMessages() == Map(rows, (e: Entry) => Encode(Tag(StageKind), e));
    assert forall i | 0 <= i < |FirstStages| :: |FirstStages[i].name| <= 20;
    assert forall i | 0 <= i < |LastStages| :: |LastStages[i].name| <= 20;
    assert forall i | 0 <= i < |StageTable| :: |StageTable[i].name| <= 20;
    DecodeEncodeAll(Tag(StageKind), 1, rows);
  }
}
