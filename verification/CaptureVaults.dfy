/**
  The encrypted, append-only capture log, and the bytes a writer leaves in it.

  Encryption is an ideal AEAD: a ciphertext opens only under the nonce and associated data it was sealed
  with, and gives back what was sealed. Records are encoded by an abstract, invertible JSON codec. A
  failed write burns its sequence number, so no nonce is used twice.
 */
module CaptureVaults {
  import opened Wrappers
  import opened ByteStrings

  type FlowId = string

  datatype Reason =
    | HttpComplete
    | WebsocketClosed
    | ErrorOrCancellation
    | CaptureConflict
    | StoppedBeforeCompletion
    | ClientClosedBeforeTerminal

  /** What a flow event carries that the reader or the counters depend on. */
  datatype FlowEvent =
    | RequestHeaders
    | RequestComplete
    | ResponseHeaders(upgrade: bool)
    | CaptureError
    | ResponseChunk(index: nat, length: nat)
    | StreamEof(chunks: nat, bytes: nat)
    | ResponseComplete(chunks: nat, bytes: nat, eof: bool)
    | WebsocketStart
    | WebsocketMessage
    | WebsocketEnd
    | ClientDisconnected
    | ServerDisconnected
    | HttpError
    | FlowTerminal(reason: Reason, chunks: nat, bytes: nat, eof: bool, websocket: bool)

  datatype Event =
    | SessionStart(name: string)
    | SessionEnd(captureFailed: bool)
    | FlowRecord(flow: FlowId, event: FlowEvent)

  datatype Record = Record(sequence: nat, event: Event)

  /** The vault's key material and codecs. `seal` takes nonce, plaintext and associated data. */
  datatype Codec = Codec(
    dumps: Record -> Option<Bytes>,
    loads: Bytes -> Option<Record>,
    seal: (Bytes, Bytes, Bytes) -> Bytes,
    noncePrefix: Bytes,
    streamId: Bytes)

  const MAGIC: Bytes := [67, 79, 68, 69, 88, 67, 65, 80, 1, 13, 10]
  const FRAME_SIZE: nat := 16
  const TAG_SIZE: nat := 16
  const PREFIX_SIZE: nat := 4
  const STREAM_ID_SIZE: nat := 32
  const MAX_FRAME_BYTES: nat := 1024 * 1024 * 1024

  /** JSON text reads back as the record it came from, and a ciphertext is one tag longer than its text. */
  ghost predicate Lawful(c: Codec) {
    && (forall r :: c.dumps(r).Some? ==> c.loads(c.dumps(r).value) == Some(r))
    && (forall n, p, a :: |c.seal(n, p, a)| == |p| + TAG_SIZE)
    && |c.noncePrefix| == PREFIX_SIZE && |c.streamId| == STREAM_ID_SIZE
  }

  function Header(sequence: nat, size: nat): Bytes { BigEndian(sequence, 8) + BigEndian(size, 8) }

  function Nonce(c: Codec, sequence: nat): Bytes { c.noncePrefix + BigEndian(sequence, 8) }

  function Aad(c: Codec, header: Bytes): Bytes { MAGIC + c.streamId + header }

  /** One use of the cipher. */
  datatype Sealed = Sealed(nonce: Bytes, plain: Bytes, aad: Bytes)

  /** Ideal decryption: it succeeds only on what was sealed, with the same nonce and associated data. */
  function Unseal(c: Codec, log: seq<Sealed>, nonce: Bytes, cipher: Bytes, aad: Bytes): Option<Bytes> {
    if log == [] then None
    else if log[0].nonce == nonce && log[0].aad == aad && c.seal(nonce, log[0].plain, aad) == cipher then Some(log[0].plain)
    else Unseal(c, log[1..], nonce, cipher, aad)
  }

  // ---------------------------------------------------------------------------
  // The writer
  // ---------------------------------------------------------------------------

  /** How the disk treats one record: the sizes of its raw writes (0 fails, none left takes all), and fsync. */
  datatype Disk = Disk(grants: seq<nat>, syncs: bool)

  /** The outcome of writing n bytes: how many landed, whether all did, and the grants that remain. */
  datatype Landing = Landing(landed: nat, ok: bool, rest: seq<nat>)

  function Push(n: nat, grants: seq<nat>): (l: Landing)
    ensures l.landed <= n && (l.ok <==> l.landed == n)
    decreases |grants|
  {
    if n == 0 || grants == [] then Landing(n, true, grants)
    else if grants[0] == 0 then Landing(0, false, grants[1..])
    else if grants[0] >= n then Landing(n, true, grants[1..])
    else
      var l := Push(n - grants[0], grants[1..]);
      Landing(grants[0] + l.landed, l.ok, l.rest)
  }

  /** `history[i]` is the record sealed under sequence number i, None when the number was burned before that. */
  datatype Vault = Vault(
    sequence: nat,
    closed: bool,
    file: Bytes,
    log: seq<Sealed>,
    history: seq<Option<Record>>,
    failures: nat)

  datatype WriteResult = WriteResult(vault: Vault, ok: bool)

  /** A record that cannot be written: its number is spent all the same. */
  function Burn(v: Vault): Vault {
    v.(sequence := v.sequence + 1, history := v.history + [None], failures := v.failures + 1)
  }

  /** `write`: reserves a number, seals, appends the frame header and the ciphertext, and syncs. */
  function Append(v: Vault, c: Codec, e: Event, disk: Disk, sync: bool): (r: WriteResult) {
    if v.closed || v.sequence >= TWO64 then WriteResult(v.(failures := v.failures + 1), false)
    else
      var record := Record(v.sequence, e);
      var plain := c.dumps(record);
      if plain.None? || |plain.value| + TAG_SIZE > MAX_FRAME_BYTES then WriteResult(Burn(v), false)
      else
        var header := Header(v.sequence, |plain.value| + TAG_SIZE);
        var cipher := c.seal(Nonce(c, v.sequence), plain.value, Aad(c, header));
        var sealed := v.(sequence := v.sequence + 1, history := v.history + [Some(record)],
                         log := v.log + [Sealed(Nonce(c, v.sequence), plain.value, Aad(c, header))]);
        var first := Push(|header|, disk.grants);
        if !first.ok then WriteResult(sealed.(file := v.file + header[..first.landed], failures := v.failures + 1), false)
        else
          var second := Push(|cipher|, first.rest);
          var filled := sealed.(file := v.file + header + cipher[..second.landed]);
          if !second.ok || (sync && !disk.syncs) then WriteResult(filled.(failures := v.failures + 1), false)
          else WriteResult(filled, true)
  }

  /** `close`: the session_end record, and then nothing more. */
  function CloseVault(v: Vault, c: Codec, captureFailed: bool, disk: Disk): WriteResult {
    if v.closed then WriteResult(v, true)
    else
      var r := Append(v, c, SessionEnd(captureFailed), disk, true);
      if r.ok then WriteResult(r.vault.(closed := true), true) else r
  }

  // ---------------------------------------------------------------------------
  // What every vault satisfies
  // ---------------------------------------------------------------------------

  /** The header and associated data of a record are fixed by its number and text. */
  function SealOf(c: Codec, sequence: nat, plain: Bytes): Sealed {
    Sealed(Nonce(c, sequence), plain, Aad(c, Header(sequence, |plain| + TAG_SIZE)))
  }

  /** Sealed entry k is the record of number i. */
  ghost predicate Entry(v: Vault, c: Codec, k: nat, i: nat)
    requires k < |v.log| && i < |v.history|
  {
    && v.history[i].Some?
    && v.history[i].value.sequence == i
    && c.dumps(v.history[i].value).Some?
    && v.log[k] == SealOf(c, i, c.dumps(v.history[i].value).value)
    && |v.log[k].plain| + TAG_SIZE <= MAX_FRAME_BYTES
  }

  /** The record that cipher use k sealed. */
  ghost predicate Owned(v: Vault, c: Codec, k: nat)
    requires k < |v.log|
  {
    exists i: nat :: i < |v.history| && Entry(v, c, k, i)
  }

  /** The cipher use that sealed record i. */
  ghost predicate Used(v: Vault, c: Codec, i: nat)
    requires i < |v.history|
  {
    exists k: nat :: k < |v.log| && Entry(v, c, k, i)
  }

  ghost predicate Consistent(v: Vault, c: Codec) {
    && |v.history| == v.sequence <= TWO64
    && (forall k: nat :: k < |v.log| ==> Owned(v, c, k))
    && (forall i: nat :: i < |v.history| && v.history[i].Some? ==> Used(v, c, i))
    && Ascending(v, c)
  }

  /** Later uses of the cipher are of later numbers. */
  ghost predicate Ascending(v: Vault, c: Codec) {
    forall j: nat, k: nat, a: nat, b: nat ::
      j < k < |v.log| && a < |v.history| && b < |v.history| && Entry(v, c, j, a) && Entry(v, c, k, b) ==> a < b
  }

  /** A record that was sealed has one nonce, so it has one number. */
  lemma EntryNumber(v: Vault, c: Codec, k: nat, a: nat, b: nat)
    requires k < |v.log| && a < |v.history| && b < |v.history| <= TWO64 && Entry(v, c, k, a) && Entry(v, c, k, b)
    ensures a == b
  {
    NonceInjective(c, a, b);
  }

  /** The vault wrote nothing, or burned a number, or sealed one record under it. */
  ghost predicate Appended(v: Vault, c: Codec, w: Vault) {
    || (w.history == v.history && w.log == v.log)
    || (|v.history| == v.sequence < TWO64 && |w.history| == v.sequence + 1 && w.history[..v.sequence] == v.history
        && (w.log == v.log
            || (|w.log| == |v.log| + 1 && w.log[..|v.log|] == v.log && Entry(w, c, |v.log|, v.sequence))))
  }

  lemma AppendShape(v: Vault, c: Codec, e: Event, disk: Disk, sync: bool)
    requires |v.history| == v.sequence
    ensures Appended(v, c, Append(v, c, e, disk, sync).vault)
  {
    hide Push, BigEndian, Header, Nonce, Aad;
  }

  lemma AscendingKept(v: Vault, c: Codec, w: Vault)
    requires Consistent(v, c) && Appended(v, c, w)
    ensures Ascending(w, c)
  {
    hide BigEndian, Header, Nonce, Aad, SealOf;
    forall j: nat, k: nat, a: nat, b: nat |
      j < k < |w.log| && a < |w.history| && b < |w.history| && Entry(w, c, j, a) && Entry(w, c, k, b)
      ensures a < b
    {
      assert Owned(v, c, j);
      var x: nat :| x < |v.history| && Entry(v, c, j, x);
      assert Entry(w, c, j, x);
      EntryNumber(w, c, j, a, x);
      if k < |v.log| {
        assert Owned(v, c, k);
        var y: nat :| y < |v.history| && Entry(v, c, k, y);
        assert Entry(w, c, k, y);
        EntryNumber(w, c, k, b, y);
      } else {
        EntryNumber(w, c, k, b, v.sequence);
      }
    }
  }

  lemma WriteConsistent(v: Vault, c: Codec, e: Event, disk: Disk, sync: bool)
    requires Consistent(v, c)
    ensures Consistent(Append(v, c, e, disk, sync).vault, c)
    ensures v.history <= Append(v, c, e, disk, sync).vault.history
  {
    AppendShape(v, c, e, disk, sync);
    AscendingKept(v, c, Append(v, c, e, disk, sync).vault);
    hide Push, BigEndian, Header, Nonce, Aad, Ascending;
    var w := Append(v, c, e, disk, sync).vault;
    forall k: nat | k < |w.log| ensures Owned(w, c, k) {
      if k < |v.log| {
        assert Owned(v, c, k);
        var i: nat :| i < |v.history| && Entry(v, c, k, i);
        assert Entry(w, c, k, i);
      } else {
        assert Entry(w, c, k, v.sequence);
      }
    }
    forall i: nat | i < |w.history| && w.history[i].Some? ensures Used(w, c, i) {
      if i < |v.history| {
        assert Used(v, c, i);
        var k: nat :| k < |v.log| && Entry(v, c, k, i);
        assert Entry(w, c, k, i);
      } else {
        assert Entry(w, c, |v.log|, i);
      }
    }
  }

  /** No two uses of the cipher share a nonce. */
  lemma NoncesUnique(v: Vault, c: Codec, j: nat, k: nat)
    requires Consistent(v, c) && j < |v.log| && k < |v.log| && v.log[j].nonce == v.log[k].nonce
    ensures j == k
  {
    hide BigEndian, Header, Nonce, Aad;
    assert Owned(v, c, j) && Owned(v, c, k);
    var a: nat :| a < |v.history| && Entry(v, c, j, a);
    var b: nat :| b < |v.history| && Entry(v, c, k, b);
    NonceInjective(c, a, b);
  }

  lemma NonceInjective(c: Codec, a: nat, b: nat)
    requires a < TWO64 && b < TWO64 && Nonce(c, a) == Nonce(c, b)
    ensures a == b
  {
    assert Nonce(c, a)[|c.noncePrefix|..] == BigEndian(a, 8) && Nonce(c, b)[|c.noncePrefix|..] == BigEndian(b, 8);
    Pow256Values();
    BigEndianInjective(a, b, 8);
  }

  // ---------------------------------------------------------------------------
  // What lands in the file
  // ---------------------------------------------------------------------------

  /** A record the vault can encode and frame. */
  predicate Writable(c: Codec, r: Record) {
    c.dumps(r).Some? && |c.dumps(r).value| + TAG_SIZE <= MAX_FRAME_BYTES
  }

  /** One frame: header, then ciphertext. */
  function Frame(c: Codec, r: Record): Bytes
    requires Writable(c, r)
  {
    var s := SealOf(c, r.sequence, c.dumps(r).value);
    Header(r.sequence, |s.plain| + TAG_SIZE) + c.seal(s.nonce, s.plain, s.aad)
  }

  /** The file of a vault none of whose writes failed. */
  function Layout(c: Codec, records: seq<Record>): Bytes
    requires forall r :: r in records ==> Writable(c, r)
  {
    if records == [] then MAGIC
    else Layout(c, records[..|records| - 1]) + Frame(c, records[|records| - 1])
  }

  /** A write either lands a whole frame or leaves a failure behind; it never touches what was there. */
  lemma WriteLands(v: Vault, c: Codec, e: Event, disk: Disk, sync: bool)
    requires Lawful(c) && |v.history| == v.sequence
    ensures var r := Append(v, c, e, disk, sync);
            && v.file <= r.vault.file
            && r.vault.closed == v.closed
            && r.vault.failures == v.failures + (if r.ok then 0 else 1)
            && v.history <= r.vault.history
            && (v.closed ==> !r.ok && r.vault == v.(failures := v.failures + 1))
            && ((|r.vault.history| == |v.history| && r.vault.file == v.file && !r.ok)
                || (|r.vault.history| == |v.history| + 1
                    && (r.vault.history[v.sequence].None? || r.vault.history[v.sequence].value == Record(v.sequence, e))))
            && (r.ok ==>
                  && Writable(c, Record(v.sequence, e))
                  && r.vault.history == v.history + [Some(Record(v.sequence, e))]
                  && r.vault.file == v.file + Frame(c, Record(v.sequence, e)))
  {
    hide Push, BigEndian, Nonce, Aad;
    var plain := c.dumps(Record(v.sequence, e));
    if !v.closed && v.sequence < TWO64 && plain.Some? && |plain.value| + TAG_SIZE <= MAX_FRAME_BYTES {
      var header := Header(v.sequence, |plain.value| + TAG_SIZE);
      var cipher := c.seal(Nonce(c, v.sequence), plain.value, Aad(c, header));
      if Append(v, c, e, disk, sync).ok {
        assert v.file + header + cipher == v.file + (header + cipher);
      }
    }
  }

  /** A disk that never fails a write, however little it takes at a time. */
  predicate Steadfast(grants: seq<nat>) { forall i :: 0 <= i < |grants| ==> grants[i] > 0 }

  lemma {:induction false} PushAll(n: nat, grants: seq<nat>)
    requires Steadfast(grants)
    ensures Push(n, grants).ok && Push(n, grants).landed == n && Steadfast(Push(n, grants).rest)
    decreases |grants|
  {
    if n > 0 && grants != [] {
      assert grants[0] > 0;
      if grants[0] < n {
        PushAll(n - grants[0], grants[1..]);
      }
    }
  }

  /** Only what says so stands in the way of a record: closing, the number's width, the text, its size, the disk. */
  lemma StoresWhatItCan(v: Vault, c: Codec, e: Event, disk: Disk, sync: bool)
    requires Steadfast(disk.grants)
    ensures Append(v, c, e, disk, sync).ok <==>
      && !v.closed && v.sequence < 0x1_0000_0000_0000_0000
      && c.dumps(Record(v.sequence, e)).Some? && |c.dumps(Record(v.sequence, e)).value| + 16 <= 1024 * 1024 * 1024
      && (sync ==> disk.syncs)
  {
    var plain := c.dumps(Record(v.sequence, e));
    if !v.closed && v.sequence < TWO64 && plain.Some? {
      var header := Header(v.sequence, |plain.value| + TAG_SIZE);
      PushAll(|header|, disk.grants);
      var cipher := c.seal(Nonce(c, v.sequence), plain.value, Aad(c, header));
      PushAll(|cipher|, Push(|header|, disk.grants).rest);
    }
    hide Push, BigEndian, Steadfast;
  }

  /** The constructor: the magic bytes, then the session_start record. No vault exists unless both land. */
  function Begin(c: Codec, name: string, disk: Disk): WriteResult {
    var magic := Push(|MAGIC|, disk.grants);
    var fresh0 := Vault(0, false, MAGIC[..magic.landed], [], [], 0);
    if !magic.ok then WriteResult(fresh0.(failures := 1), false)
    else Append(fresh0, c, SessionStart(name), disk.(grants := magic.rest), true)
  }

  /** The writing process's vault object. */
  class CaptureVault {
    const codec: Codec
    var sequence: nat
    var closed: bool
    var output: Bytes
    ghost var log: seq<Sealed>
    ghost var history: seq<Option<Record>>
    ghost var failures: nat

    ghost function State(): Vault
      reads this
    {
      Vault(sequence, closed, output, log, history, failures)
    }

    constructor (codec: Codec)
      ensures this.codec == codec && State() == Vault(0, false, [], [], [], 0)
    {
      this.codec := codec;
      sequence, closed, output := 0, false, [];
      log, history, failures := [], [], 0;
    }

    /** Writes until nothing is pending, or the disk takes nothing. */
    method WriteAll(value: Bytes, grants: seq<nat>) returns (ok: bool, rest: seq<nat>)
      modifies this`output
      ensures ok == Push(|value|, grants).ok && rest == Push(|value|, grants).rest
      ensures output == old(output) + value[..Push(|value|, grants).landed]
      ensures ok ==> output == old(output) + value
    {
      var pending := value;
      rest := grants;
      ok := true;
      while pending != []
        invariant |pending| <= |value| && pending == value[|value| - |pending|..]
        invariant output == old(output) + value[..|value| - |pending|]
        invariant Push(|pending|, rest).ok == Push(|value|, grants).ok
        invariant Push(|pending|, rest).rest == Push(|value|, grants).rest
        invariant |value| - |pending| + Push(|pending|, rest).landed == Push(|value|, grants).landed
        decreases |pending|
      {
        var written := if rest == [] || rest[0] >= |pending| then |pending| else rest[0];
        rest := if rest == [] then [] else rest[1..];
        output := output + pending[..written];
        if written == 0 {
          ok := false;
          return;
        }
        pending := pending[written..];
      }
    }

    method Start(name: string, disk: Disk) returns (ok: bool)
      requires State() == Vault(0, false, [], [], [], 0)
      modifies this
      ensures State() == Begin(codec, name, disk).vault && ok == Begin(codec, name, disk).ok
    {
      hide Push, BigEndian, Header, Nonce, Aad, Append;
      var landed, rest := WriteAll(MAGIC, disk.grants);
      assert output == MAGIC[..Push(|MAGIC|, disk.grants).landed];
      if !landed {
        failures := 1;
        return false;
      }
      ok := Write(SessionStart(name), disk.(grants := rest), true);
    }

    method Write(event: Event, disk: Disk, sync: bool) returns (ok: bool)
      modifies this
      ensures State() == Append(old(State()), codec, event, disk, sync).vault
      ensures ok == Append(old(State()), codec, event, disk, sync).ok
    {
      hide Push, BigEndian, Header, Nonce, Aad;
      if closed || sequence >= TWO64 {
        failures := failures + 1;
        return false;
      }
      var reserved := sequence;
      sequence := sequence + 1;
      var record := Record(reserved, event);
      var plain := codec.dumps(record);
      if plain.None? || |plain.value| + TAG_SIZE > MAX_FRAME_BYTES {
        history, failures := history + [None], failures + 1;
        return false;
      }
      var frame := Header(reserved, |plain.value| + TAG_SIZE);
      var nonce, aad := Nonce(codec, reserved), Aad(codec, frame);
      var cipher := codec.seal(nonce, plain.value, aad);
      log, history := log + [Sealed(nonce, plain.value, aad)], history + [Some(record)];
      var rest;
      ok, rest := WriteAll(frame, disk.grants);
      if !ok {
        failures := failures + 1;
        return;
      }
      ok, rest := WriteAll(cipher, rest);
      if !ok || (sync && !disk.syncs) {
        failures := failures + 1;
        return false;
      }
    }

    method Close(captureFailed: bool, disk: Disk) returns (ok: bool)
      modifies this
      ensures State() == CloseVault(old(State()), codec, captureFailed, disk).vault
      ensures ok == CloseVault(old(State()), codec, captureFailed, disk).ok
    {
      hide Append;
      if closed {
        return true;
      }
      ok := Write(SessionEnd(captureFailed), disk, true);
      if ok {
        closed := true;
      }
    }
  }
}
