/**
 * The framing both crates use for one row of a name table: a tag byte, the
 * row's code bytes, the name's length cast to one byte, then the name.
 * Rows are concatenated without separators, so a reader recovers the rows
 * only because every row states its own length; `DecodeAll` is that reader,
 * and the two lemmas at the end say it inverts the encoding exactly when
 * every name is shorter than 256 bytes.
 */
module Entries {
  import opened Wrappers
  import opened Bytes
  import opened Seqs

  /** One row as it goes on the wire: its code bytes and its name bytes. */
  datatype Entry = Entry(code: seq<byte>, name: seq<byte>)

  /** `[tag, code.., name.len() as u8] ++ name`. */
  function Encode(tag: byte, e: Entry): (r: seq<byte>)
    ensures |r| == 2 + |e.code| + |e.name|
    ensures r[0] == tag && r[1 + |e.code|] == U8(|e.name|)
  {
    [tag] + e.code + [U8(|e.name|)] + e.name
  }

  /** The rows one after the other, as the buffer-building loops produce them. */
  function EncodeAll(tag: byte, es: seq<Entry>): seq<byte>
  {
    Concat(Map(es, (e: Entry) => Encode(tag, e)))
  }

  /** The bytes a row contributes to the mapping checksum: code and name, no framing. */
  function Digest(e: Entry): seq<byte>
  {
    e.code + e.name
  }

  function DigestAll(es: seq<Entry>): seq<byte>
  {
    Concat(Map(es, Digest))
  }

  /** Every row has `width` code bytes and a name whose length fits its length byte. */
  predicate Fits(width: nat, es: seq<Entry>)
  {
    forall i | 0 <= i < |es| :: |es[i].code| == width && |es[i].name| < 0x100
  }

  /**
   * The client's reading of a concatenation of rows with the given tag and
   * code width; None when a row has another tag or runs past the end.
   */
  function DecodeAll(tag: byte, width: nat, buf: seq<byte>): (r: Option<seq<Entry>>)
    ensures r.Some? ==> Fits(width, r.value)
    decreases |buf|
  {
    if |buf| == 0 then Some([])
    else if buf[0] != tag || |buf| < 2 + width then None
    else
      var n := buf[1 + width] as int;
      if |buf| < 2 + width + n then None
      else
        match DecodeAll(tag, width, buf[2 + width + n..])
        case None => None
        case Some(rest) => Some([Entry(buf[1..1 + width], buf[2 + width..2 + width + n])] + rest)
  }

  lemma EncodeAllCons(tag: byte, es: seq<Entry>)
    requires |es| > 0
    ensures EncodeAll(tag, es) == Encode(tag, es[0]) + EncodeAll(tag, es[1..])
  {
    var f := (e: Entry) => Encode(tag, e);
    MapCons(es, f);
    ConcatAppend([f(es[0])], Map(es[1..], f));
    ConcatOne(f(es[0]));
  }

  lemma EncodeAllSnoc(tag: byte, es: seq<Entry>, i: nat)
    requires i < |es|
    ensures EncodeAll(tag, es[..i + 1]) == EncodeAll(tag, es[..i]) + Encode(tag, es[i])
  {
    var f := (e: Entry) => Encode(tag, e);
    MapSnoc(es, i, f);
    ConcatAppend(Map(es[..i], f), [f(es[i])]);
    ConcatOne(f(es[i]));
  }

  lemma DigestAllSnoc(es: seq<Entry>, i: nat)
    requires i < |es|
    ensures DigestAll(es[..i + 1]) == DigestAll(es[..i]) + Digest(es[i])
  {
    MapSnoc(es, i, Digest);
    ConcatAppend(Map(es[..i], Digest), [Digest(es[i])]);
    ConcatOne(Digest(es[i]));
  }

  /** The checksum sees each row's bytes with the tag and the length byte taken out. */
  lemma DigestIsUnframedEntry(tag: byte, e: Entry)
    ensures var r := Encode(tag, e);
            Digest(e) == r[1..1 + |e.code|] + r[2 + |e.code|..]
  {
    var r := Encode(tag, e);
    assert r[1..1 + |e.code|] == e.code;
    assert r[2 + |e.code|..] == e.name;
  }

  /** Reading back a well-formed concatenation gives the rows that were written. */
  lemma {:induction false} DecodeEncodeAll(tag: byte, width: nat, es: seq<Entry>)
    requires Fits(width, es)
    ensures DecodeAll(tag, width, EncodeAll(tag, es)) == Some(es)
    decreases |es|
  {
    if |es| == 0 {
      assert EncodeAll(tag, es) == [];
    } else {
      var e := es[0];
      var buf := EncodeAll(tag, es);
      EncodeAllCons(tag, es);
      var head := Encode(tag, e);
      assert buf == head + EncodeAll(tag, es[1..]);
      assert buf[0] == tag;
      assert buf[1 + width] == U8(|e.name|) == |e.name|;
      var n := |e.name|;
      assert buf[1..1 + width] == e.code;
      assert buf[2 + width..2 + width + n] == e.name;
      assert buf[2 + width + n..] == EncodeAll(tag, es[1..]);
      assert Fits(width, es[1..]) by {
        forall i | 0 <= i < |es[1..]| ensures |es[1..][i].code| == width && |es[1..][i].name| < 0x100 {
          assert es[1..][i] == es[i + 1];
        }
      }
      DecodeEncodeAll(tag, width, es[1..]);
      assert [Entry(e.code, e.name)] + es[1..] == es;
    }
  }

  /** A buffer that starts with a complete row is that row's encoding followed by the rest. */
  lemma RowSplit(tag: byte, width: nat, buf: seq<byte>)
    requires |buf| >= 2 + width && buf[0] == tag
    requires |buf| >= 2 + width + buf[1 + width] as int
    ensures var n := buf[1 + width] as int;
            buf == Encode(tag, Entry(buf[1..1 + width], buf[2 + width..2 + width + n])) + buf[2 + width + n..]
  {
    var n := buf[1 + width] as int;
    assert buf == [buf[0]] + buf[1..1 + width] + [buf[1 + width]] + buf[2 + width..2 + width + n]
                  + buf[2 + width + n..];
  }

  /** Whatever the reader accepts is exactly the encoding of what it returns. */
  lemma {:induction false} EncodeDecodeAll(tag: byte, width: nat, buf: seq<byte>)
    requires DecodeAll(tag, width, buf).Some?
    ensures EncodeAll(tag, DecodeAll(tag, width, buf).value) == buf
    decreases |buf|
  {
    if |buf| > 0 {
      var n := buf[1 + width] as int;
      var restBuf := buf[2 + width + n..];
      var e := Entry(buf[1..1 + width], buf[2 + width..2 + width + n]);
      var es := [e] + DecodeAll(tag, width, restBuf).value;
      assert DecodeAll(tag, width, buf).value == es;
      EncodeDecodeAll(tag, width, restBuf);
      EncodeAllCons(tag, es);
      assert es[1..] == DecodeAll(tag, width, restBuf).value;
      RowSplit(tag, width, buf);
    }
  }
}
