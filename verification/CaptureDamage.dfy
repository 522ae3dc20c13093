/**
  What the reader says of a damaged file: whole frames of the vault are read up to the damage, and the damage
  is named for what it is, a cut, a frame of another number, a senseless length, or a frame that is not the
  vault's.
 */
module CaptureDamage {
  import opened Wrappers
  import opened ByteStrings
  import opened CaptureVaults
  import opened CaptureReaders

  /** Whole frames are read whatever follows them. */
  lemma {:induction false} FramesReadOn(v: Vault, c: Codec, e: Envelope, records: seq<Record>, n: nat, tail: Bytes)
    requires Consistent(v, c) && Lawful(c) && OwnEnvelope(c, e) && Prefix(v, records) && n <= |records|
    requires forall r :: r in records ==> Writable(c, r)
    requires Layout(c, records[..n]) <= Layout(c, records)
    ensures ReadFrames(c, e, v.log, Layout(c, records)[|Layout(c, records[..n])|..] + tail, records[..n]) ==
            ReadFrames(c, e, v.log, tail, records)
    decreases |records| - n
  {
    hide *;
    if n == |records| {
      assert records[..n] == records;
      assert Layout(c, records)[|Layout(c, records)|..] + tail == tail;
    } else {
      LayoutGrows(c, records, n + 1);
      LayoutPrefix(c, records, n);
      FramesReadOn(v, c, e, records, n + 1, tail);
      var whole, before := Layout(c, records), |Layout(c, records[..n])|;
      var after := whole[before + |Frame(c, records[n])|..];
      assert whole[before..] + tail == Frame(c, records[n]) + (after + tail);
      ReadsFrame(v, c, e, records, n, after + tail);
    }
  }

  lemma TailRead(v: Vault, c: Codec, e: Envelope, records: seq<Record>, tail: Bytes)
    requires Consistent(v, c) && Lawful(c) && OwnEnvelope(c, e) && Prefix(v, records)
    ensures forall r :: r in records ==> Writable(c, r)
    ensures ReadRecords(c, e, v.log, Layout(c, records) + tail) == ReadFrames(c, e, v.log, tail, records)
  {
    PrefixWritable(v, c, records);
    hide ReadFrames, Consistent, Lawful, Prefix, Frame;
    LayoutGrows(c, records, 0);
    assert records[..0] == [];
    FramesReadOn(v, c, e, records, 0, tail);
    var file := Layout(c, records) + tail;
    assert MAGIC <= file;
    assert file[|MAGIC|..] == Layout(c, records)[|MAGIC|..] + tail;
  }

  function Number(tail: Bytes): nat
    requires |tail| >= 16
  {
    FromBigEndian(tail[..8])
  }

  function Length(tail: Bytes): nat
    requires |tail| >= 16
  {
    FromBigEndian(tail[8..16])
  }

  /** The bytes at the front are the frame of record n of the vault. */
  ghost predicate OwnFrame(v: Vault, c: Codec, n: nat, frame: Bytes) {
    n < |v.history| && v.history[n].Some? && Writable(c, v.history[n].value) && frame == Frame(c, v.history[n].value)
  }

  /**
    Behind whole frames of the vault, whatever is no further frame of it: the records before it are returned,
    the file is not valid, and the one issue says what was met first.
   */
  lemma DamageNamed(v: Vault, c: Codec, e: Envelope, records: seq<Record>, tail: Bytes)
    requires Consistent(v, c) && Lawful(c) && OwnEnvelope(c, e) && Prefix(v, records) && tail != []
    ensures forall r :: r in records ==> Writable(c, r)
    ensures var r := ReadRecords(c, e, v.log, Layout(c, records) + tail);
      if |tail| < 16 then r == Reading(records, false, [TruncatedFrameHeader])
      else if Number(tail) != |records| then r == Reading(records, false, [SequenceGapOrReorder])
      else if Length(tail) < 16 || Length(tail) > 1024 * 1024 * 1024 then r == Reading(records, false, [InvalidFrameLength])
      else if Length(tail) > |tail| - 16 then r == Reading(records, false, [TruncatedFramePayload])
      else !OwnFrame(v, c, |records|, tail[..16 + Length(tail)]) ==> r == Reading(records, false, [AuthenticationFailed])
  {
    TailRead(v, c, e, records, tail);
    hide ReadRecords, Consistent, Lawful, Prefix, Layout, Decrypt, FromBigEndian, OwnEnvelope;
    if |tail| >= 16 {
      var header := tail[..FRAME_SIZE];
      assert header[..8] == tail[..8] && header[8..] == tail[8..16];
      if Number(tail) == |records| && Length(tail) <= |tail| - 16 {
        ForeignStaysShut(v, c, e, records, tail);
      }
    }
  }

  lemma ForeignStaysShut(v: Vault, c: Codec, e: Envelope, records: seq<Record>, tail: Bytes)
    requires Consistent(v, c) && Lawful(c) && OwnEnvelope(c, e)
    requires |tail| >= 16 && Number(tail) == |records| && Length(tail) <= |tail| - 16
    ensures !OwnFrame(v, c, |records|, tail[..16 + Length(tail)]) ==>
      Decrypt(c, e, v.log, |records|, tail[16..][..Length(tail)], tail[..16]).None?
  {
    hide Consistent, Lawful, Decrypt, Frame, FromBigEndian;
    var cipher, header := tail[16..][..Length(tail)], tail[..16];
    assert tail[..16 + Length(tail)] == header + cipher;
    NumberBound(tail);
    if Decrypt(c, e, v.log, |records|, cipher, header).Some? {
      Opens(v, c, e, |records|, cipher, header);
    }
  }

  lemma NumberBound(tail: Bytes)
    requires |tail| >= 16
    ensures Number(tail) < TWO64
  {
    Pow256Values();
    hide FromBigEndian;
  }

  /**
    A log that was cut off inside its last frame, as a crash leaves it, gives back every record before that
    one, and says that it was cut, in the header or in the payload of the frame.
   */
  lemma CutNamed(v: Vault, c: Codec, e: Envelope, records: seq<Record>, next: Record, cut: nat)
    requires Consistent(v, c) && Lawful(c) && OwnEnvelope(c, e) && Prefix(v, records + [next])
    ensures Prefix(v, records) && Writable(c, next) && forall r :: r in records ==> Writable(c, r)
    ensures 0 < cut < |Frame(c, next)| ==>
      ReadRecords(c, e, v.log, Layout(c, records) + Frame(c, next)[..cut]) ==
      Reading(records, false, [if cut < 16 then TruncatedFrameHeader else TruncatedFramePayload])
  {
    CutPrefix(v, c, records, next);
    hide *;
    if 0 < cut < |Frame(c, next)| {
      DamageNamed(v, c, e, records, Frame(c, next)[..cut]);
      CutHeader(v, c, e, records, next, cut);
    }
  }

  lemma CutPrefix(v: Vault, c: Codec, records: seq<Record>, next: Record)
    requires Consistent(v, c) && Prefix(v, records + [next])
    ensures Prefix(v, records) && Writable(c, next) && forall r :: r in records ==> Writable(c, r)
    ensures |records| < |v.history| && v.history[|records|] == Some(next)
  {
    PrefixWritable(v, c, records + [next]);
    hide Consistent, Writable;
    assert (records + [next])[|records|] == next;
    assert forall i: nat :: i < |records| ==> (records + [next])[i] == records[i];
  }

  /** The header of a frame that was cut off still gives its number and its whole length. */
  lemma CutHeader(v: Vault, c: Codec, e: Envelope, records: seq<Record>, next: Record, cut: nat)
    requires Consistent(v, c) && Lawful(c) && OwnEnvelope(c, e) && |records| < |v.history| && v.history[|records|] == Some(next)
    requires Writable(c, next) && cut < |Frame(c, next)|
    ensures cut >= 16 ==>
      var tail := Frame(c, next)[..cut];
      Number(tail) == |records| && 16 <= Length(tail) <= 1024 * 1024 * 1024 && Length(tail) > cut - 16
  {
    Reopens(v, c, e, |records|);
    assert |c.dumps(next).value| + TAG_SIZE <= MAX_FRAME_BYTES;
    hide Consistent, Lawful, Frame, Decrypt, OwnEnvelope, FromBigEndian, BigEndian, Header, Writable;
    if cut >= 16 {
      VaultBound(v, c, |records|);
      HeaderReads(|records|, |c.dumps(next).value| + TAG_SIZE);
      var tail := Frame(c, next)[..cut];
      assert tail[..8] == Frame(c, next)[..FRAME_SIZE][..8] && tail[8..16] == Frame(c, next)[..FRAME_SIZE][8..];
    }
  }
}
