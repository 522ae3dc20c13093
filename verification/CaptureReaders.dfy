/**
  The reader of an encrypted capture: the authenticated prefix of a log, and the verdict that the session
  was captured completely.

  The file may hold any bytes at all. What comes back is nevertheless a prefix of what the vault wrote,
  and only the byte-exact file of a complete session is judged complete.
 */
module CaptureReaders {
  import opened Wrappers
  import opened ByteStrings
  import opened CaptureVaults

  datatype Issue =
    | EnvelopeOrKeyInvalid
    | InvalidMagic
    | TruncatedFrameHeader
    | SequenceGapOrReorder
    | InvalidFrameLength
    | TruncatedFramePayload
    | AuthenticationFailed
    | AuthenticatedRecordInvalid
    | MissingSessionStart
    | MissingSessionEnd
    | EventsAfterSessionEnd
    | DuplicateSessionBoundary
    | CaptureWriterReportedFailure

  /** The key the envelope unwraps to: none, the vault's own, or another one. */
  datatype Key = Broken | Genuine | Foreign

  /** header.json as the reader finds it. */
  datatype Envelope = Envelope(streamId: Bytes, noncePrefix: Bytes, formatKnown: bool, key: Key)

  predicate Hexadecimal(b: Byte) { 48 <= b <= 57 || 97 <= b <= 102 }

  predicate Accepted(e: Envelope) {
    && |e.streamId| == STREAM_ID_SIZE && (forall b :: b in e.streamId ==> Hexadecimal(b))
    && e.formatKnown && |e.noncePrefix| == PREFIX_SIZE && e.key != Broken
  }

  /** Under another key nothing the vault sealed opens. */
  function Decrypt(c: Codec, e: Envelope, log: seq<Sealed>, sequence: nat, cipher: Bytes, header: Bytes): Option<Bytes> {
    if e.key.Genuine? then Unseal(c, log, e.noncePrefix + BigEndian(sequence, 8), cipher, MAGIC + e.streamId + header)
    else None
  }

  datatype Reading = Reading(records: seq<Record>, valid: bool, issues: seq<Issue>)

  /** The frames in `rest`, read after `records`. */
  function ReadFrames(c: Codec, e: Envelope, log: seq<Sealed>, rest: Bytes, records: seq<Record>): Reading
    decreases |rest|
  {
    if rest == [] then Reading(records, true, [])
    else if |rest| < FRAME_SIZE then Reading(records, false, [TruncatedFrameHeader])
    else
      var header := rest[..FRAME_SIZE];
      var sequence, size := FromBigEndian(header[..8]), FromBigEndian(header[8..]);
      if sequence != |records| then Reading(records, false, [SequenceGapOrReorder])
      else if size < TAG_SIZE || size > MAX_FRAME_BYTES then Reading(records, false, [InvalidFrameLength])
      else if size > |rest| - FRAME_SIZE then Reading(records, false, [TruncatedFramePayload])
      else
        var plain := Decrypt(c, e, log, sequence, rest[FRAME_SIZE..][..size], header);
        if plain.None? then Reading(records, false, [AuthenticationFailed])
        else
          var record := c.loads(plain.value);
          if record.None? || record.value.sequence != sequence then Reading(records, false, [AuthenticatedRecordInvalid])
          else ReadFrames(c, e, log, rest[FRAME_SIZE..][size..], records + [record.value])
  }

  function ReadRecords(c: Codec, e: Envelope, log: seq<Sealed>, file: Bytes): Reading {
    if !Accepted(e) then Reading([], false, [EnvelopeOrKeyInvalid])
    else if !(MAGIC <= file) then Reading([], false, [InvalidMagic])
    else ReadFrames(c, e, log, file[|MAGIC|..], [])
  }

  /** The reader's loop over the file. */
  method ReadFile(c: Codec, e: Envelope, log: seq<Sealed>, file: Bytes) returns (records: seq<Record>, valid: bool, issues: seq<Issue>)
    ensures Reading(records, valid, issues) == ReadRecords(c, e, log, file)
  {
    records, valid, issues := [], false, [];
    if !Accepted(e) {
      issues := [EnvelopeOrKeyInvalid];
      return;
    }
    if !(MAGIC <= file) {
      issues := [InvalidMagic];
      return;
    }
    var rest := file[|MAGIC|..];
    while true
      invariant ReadFrames(c, e, log, rest, records) == ReadRecords(c, e, log, file)
      invariant !valid && issues == []
      decreases |rest|
    {
      if rest == [] {
        valid := true;
        break;
      }
      if |rest| < FRAME_SIZE {
        issues := [TruncatedFrameHeader];
        break;
      }
      var header := rest[..FRAME_SIZE];
      var sequence, size := FromBigEndian(header[..8]), FromBigEndian(header[8..]);
      if sequence != |records| {
        issues := [SequenceGapOrReorder];
        break;
      }
      if size < TAG_SIZE || size > MAX_FRAME_BYTES {
        issues := [InvalidFrameLength];
        break;
      }
      if size > |rest| - FRAME_SIZE {
        issues := [TruncatedFramePayload];
        break;
      }
      var plain := Decrypt(c, e, log, sequence, rest[FRAME_SIZE..][..size], header);
      if plain.None? {
        issues := [AuthenticationFailed];
        break;
      }
      var record := c.loads(plain.value);
      if record.None? || record.value.sequence != sequence {
        issues := [AuthenticatedRecordInvalid];
        break;
      }
      records := records + [record.value];
      rest := rest[FRAME_SIZE..][size..];
    }
  }

  // ---------------------------------------------------------------------------
  // The verdict
  // ---------------------------------------------------------------------------

  ghost predicate HasTerminal(records: seq<Record>, f: FlowId) {
    exists j: nat :: j < |records| && records[j].event.FlowRecord? && records[j].event.flow == f && records[j].event.event.FlowTerminal?
  }

  /** A whole session: one start, one end which is last and reports no failure, and a terminal event in every flow. */
  ghost predicate CompleteLog(records: seq<Record>) {
    && records != []
    && (exists i: nat :: i < |records| && records[i].event.SessionStart?)
    && (forall i: nat, j: nat :: i < j < |records| ==> !(records[i].event.SessionStart? && records[j].event.SessionStart?))
    && records[|records| - 1].event == SessionEnd(false)
    && (forall i: nat :: i < |records| - 1 ==> !records[i].event.SessionEnd?)
    && (forall i: nat :: i < |records| && records[i].event.FlowRecord? ==> HasTerminal(records, records[i].event.flow))
  }

  ghost predicate JudgedComplete(r: Reading) { r.valid && r.issues == [] && CompleteLog(r.records) }

  /** Whether one flow's records hold a terminal event. */
  method AnalyzeFlow(items: seq<Record>) returns (terminal: bool)
    ensures terminal <==> exists j: nat :: j < |items| && items[j].event.FlowRecord? && items[j].event.event.FlowTerminal?
  {
    terminal := false;
    for i := 0 to |items|
      invariant terminal <==> exists j: nat :: j < i && items[j].event.FlowRecord? && items[j].event.event.FlowTerminal?
    {
      if items[i].event.FlowRecord? && items[i].event.event.FlowTerminal? {
        terminal := true;
      }
    }
  }

  /** The records of each flow, in the order the flows first appear. */
  method GroupByFlow(records: seq<Record>) returns (order: seq<FlowId>, groups: map<FlowId, seq<Record>>)
    ensures forall f :: f in groups <==> f in order
    ensures forall f, r :: f in groups && r in groups[f] ==> r in records && r.event.FlowRecord? && r.event.flow == f
    ensures forall r :: r in records && r.event.FlowRecord? ==> r.event.flow in groups && r in groups[r.event.flow]
    ensures forall f :: f in groups ==> groups[f] != []
  {
    order, groups := [], map[];
    for i := 0 to |records|
      invariant forall f :: f in groups <==> f in order
      invariant forall f, r :: f in groups && r in groups[f] ==> r in records && r.event.FlowRecord? && r.event.flow == f
      invariant forall r :: r in records[..i] && r.event.FlowRecord? ==> r.event.flow in groups && r in groups[r.event.flow]
      invariant forall f :: f in groups ==> groups[f] != []
    {
      var r := records[i];
      if r.event.FlowRecord? {
        var f := r.event.flow;
        if f !in groups {
          order := order + [f];
          groups := groups[f := [r]];
        } else {
          groups := groups[f := groups[f] + [r]];
        }
      }
    }
  }

  ghost predicate NoStart(rs: seq<Record>) { forall i: nat :: i < |rs| ==> !rs[i].event.SessionStart? }

  ghost predicate NoEndIn(rs: seq<Record>) { forall i: nat :: i < |rs| ==> !rs[i].event.SessionEnd? }

  ghost predicate TwoStarts(rs: seq<Record>) {
    exists i: nat, j: nat :: i < j < |rs| && rs[i].event.SessionStart? && rs[j].event.SessionStart?
  }

  ghost predicate TwoEnds(rs: seq<Record>) {
    exists i: nat, j: nat :: i < j < |rs| && rs[i].event.SessionEnd? && rs[j].event.SessionEnd?
  }

  ghost predicate FailureReported(rs: seq<Record>) { exists i: nat :: i < |rs| && rs[i].event == SessionEnd(true) }

  /** How many records open the session. */
  method CountStarts(records: seq<Record>) returns (starts: nat)
    ensures starts == 0 <==> NoStart(records)
    ensures starts > 1 <==> TwoStarts(records)
  {
    starts := 0;
    for n := 0 to |records|
      invariant starts == 0 <==> forall i: nat :: i < n ==> !records[i].event.SessionStart?
      invariant starts <= 1 <==> forall i: nat, j: nat :: i < j < n ==> !(records[i].event.SessionStart? && records[j].event.SessionStart?)
    {
      starts := starts + (if records[n].event.SessionStart? then 1 else 0);
    }
  }

  /** How many records close it, and whether one of them reports a failed writer. */
  method CountEnds(records: seq<Record>) returns (ends: nat, failure: bool)
    ensures ends == 0 <==> NoEndIn(records)
    ensures ends > 1 <==> TwoEnds(records)
    ensures failure <==> FailureReported(records)
  {
    ends, failure := 0, false;
    for n := 0 to |records|
      invariant ends == 0 <==> forall i: nat :: i < n ==> !records[i].event.SessionEnd?
      invariant ends <= 1 <==> forall i: nat, j: nat :: i < j < n ==> !(records[i].event.SessionEnd? && records[j].event.SessionEnd?)
      invariant failure <==> exists i: nat :: i < n && records[i].event == SessionEnd(true)
    {
      var e := records[n].event;
      ends := ends + (if e.SessionEnd? then 1 else 0);
      failure := failure || (e.SessionEnd? && e.captureFailed);
    }
  }

  /** What is wrong with the boundaries of a session, in the order it is reported. */
  ghost function BoundaryIssues(rs: seq<Record>): seq<Issue> {
    (if NoStart(rs) then [MissingSessionStart] else [])
    + (if NoEndIn(rs) then [MissingSessionEnd] else [])
    + (if !NoEndIn(rs) && !rs[|rs| - 1].event.SessionEnd? then [EventsAfterSessionEnd] else [])
    + (if TwoStarts(rs) || TwoEnds(rs) then [DuplicateSessionBoundary] else [])
    + (if FailureReported(rs) then [CaptureWriterReportedFailure] else [])
  }

  /** The integrity findings of a session, and `complete`: no issue, a valid file, a terminal in every flow. */
  method AnalyzeSession(reading: Reading) returns (issues: seq<Issue>, terminals: bool, complete: bool)
    ensures issues == reading.issues + BoundaryIssues(reading.records)
    ensures terminals <==> forall i: nat :: i < |reading.records| && reading.records[i].event.FlowRecord? ==> HasTerminal(reading.records, reading.records[i].event.flow)
    ensures complete <==> JudgedComplete(reading)
  {
    var records := reading.records;
    issues := CheckBoundaries(records);
    NoIssueMeans(records);
    issues := reading.issues + issues;
    terminals := AllTerminal(records);
    complete := issues == [] && reading.valid && terminals;
  }

  /** The checks of the session's start and end. */
  method CheckBoundaries(records: seq<Record>) returns (issues: seq<Issue>)
    ensures issues == BoundaryIssues(records)
  {
    hide TwoStarts, TwoEnds, FailureReported, NoStart;
    var starts := CountStarts(records);
    var ends, failure := CountEnds(records);
    issues := [];
    if starts == 0 {
      issues := issues + [MissingSessionStart];
    }
    if ends == 0 {
      issues := issues + [MissingSessionEnd];
    }
    if ends > 0 && !records[|records| - 1].event.SessionEnd? {
      issues := issues + [EventsAfterSessionEnd];
    }
    if starts > 1 || ends > 1 {
      issues := issues + [DuplicateSessionBoundary];
    }
    if failure {
      issues := issues + [CaptureWriterReportedFailure];
    }
  }

  /** Faultless boundaries are one start, and one end which is last and reports no failure. */
  lemma NoIssueMeans(rs: seq<Record>)
    ensures BoundaryIssues(rs) == [] <==>
            && rs != []
            && (exists i: nat :: i < |rs| && rs[i].event.SessionStart?)
            && (forall i: nat, j: nat :: i < j < |rs| ==> !(rs[i].event.SessionStart? && rs[j].event.SessionStart?))
            && rs[|rs| - 1].event == SessionEnd(false)
            && (forall i: nat :: i < |rs| - 1 ==> !rs[i].event.SessionEnd?)
  {
    if rs != [] && rs[|rs| - 1].event.SessionEnd? {
      assert !NoEndIn(rs);
    }
  }

  /** Every flow that left a record left a terminal one. */
  method AllTerminal(records: seq<Record>) returns (terminals: bool)
    ensures terminals <==> forall i: nat :: i < |records| && records[i].event.FlowRecord? ==> HasTerminal(records, records[i].event.flow)
  {
    var order, groups := GroupByFlow(records);
    terminals := true;
    ghost var missing: FlowId := "";
    for n := 0 to |order|
      invariant terminals ==> forall k: nat :: k < n ==> HasTerminal(records, order[k])
      invariant !terminals ==> missing in groups && !HasTerminal(records, missing)
    {
      var terminal := AnalyzeFlow(groups[order[n]]);
      GroupTerminal(records, groups[order[n]], order[n]);
      if !terminal {
        terminals := false;
        missing := order[n];
      }
    }
    if terminals {
      forall i: nat | i < |records| && records[i].event.FlowRecord? ensures HasTerminal(records, records[i].event.flow) {
        assert records[i] in records;
        assert records[i].event.flow in order;
      }
    } else {
      ghost var r := groups[missing][0];
      assert r in groups[missing];
      ghost var i: nat :| i < |records| && records[i] == r;
    }
  }

  lemma GroupTerminal(records: seq<Record>, items: seq<Record>, f: FlowId)
    requires forall r :: r in items ==> r in records && r.event.FlowRecord? && r.event.flow == f
    requires forall r :: r in records && r.event.FlowRecord? && r.event.flow == f ==> r in items
    ensures HasTerminal(records, f) <==> exists j: nat :: j < |items| && items[j].event.FlowRecord? && items[j].event.event.FlowTerminal?
  {
    if j: nat :| j < |items| && items[j].event.FlowRecord? && items[j].event.event.FlowTerminal? {
      assert items[j] in items;
      var i: nat :| i < |records| && records[i] == items[j];
    }
    if HasTerminal(records, f) {
      var j: nat :| j < |records| && records[j].event.FlowRecord? && records[j].event.flow == f && records[j].event.event.FlowTerminal?;
      assert records[j] in records;
      var i: nat :| i < |items| && items[i] == records[j];
    }
  }

  // ---------------------------------------------------------------------------
  // Whatever the file holds, what comes back is a prefix of what was written
  // ---------------------------------------------------------------------------

  /** These records are the first the vault sealed, with no number skipped. */
  ghost predicate Prefix(v: Vault, records: seq<Record>) {
    |records| <= |v.history| && forall i: nat :: i < |records| ==> v.history[i] == Some(records[i])
  }

  lemma PrefixWritable(v: Vault, c: Codec, records: seq<Record>)
    requires Consistent(v, c) && Prefix(v, records)
    ensures forall i: nat :: i < |records| ==> Writable(c, records[i]) && records[i].sequence == i
    ensures forall r :: r in records ==> Writable(c, r)
  {
    forall i: nat | i < |records| ensures Writable(c, records[i]) && records[i].sequence == i {
      assert Used(v, c, i);
    }
  }

  lemma {:induction false} UnsealFinds(c: Codec, log: seq<Sealed>, nonce: Bytes, cipher: Bytes, aad: Bytes) returns (k: nat)
    requires Unseal(c, log, nonce, cipher, aad).Some?
    ensures k < |log| && log[k] == Sealed(nonce, Unseal(c, log, nonce, cipher, aad).value, aad)
    ensures cipher == c.seal(nonce, log[k].plain, aad)
  {
    if log[0].nonce == nonce && log[0].aad == aad && c.seal(nonce, log[0].plain, aad) == cipher {
      k := 0;
    } else {
      k := UnsealFinds(c, log[1..], nonce, cipher, aad);
      k := k + 1;
    }
  }

  /** What opens under number n is record n of the vault, in exactly the frame the vault gave it. */
  lemma Opens(v: Vault, c: Codec, e: Envelope, n: nat, cipher: Bytes, header: Bytes)
    requires Consistent(v, c) && Lawful(c) && Accepted(e) && n < TWO64 && |header| == FRAME_SIZE
    requires Decrypt(c, e, v.log, n, cipher, header).Some?
    ensures n < |v.history| && v.history[n].Some? && Writable(c, v.history[n].value) && v.history[n].value.sequence == n
    ensures Decrypt(c, e, v.log, n, cipher, header) == c.dumps(v.history[n].value)
    ensures header + cipher == Frame(c, v.history[n].value)
    ensures e.noncePrefix == c.noncePrefix && e.streamId == c.streamId && e.key.Genuine?
  {
    hide BigEndian, Unseal;
    var nonce, aad := e.noncePrefix + BigEndian(n, 8), MAGIC + e.streamId + header;
    var k := UnsealFinds(c, v.log, nonce, cipher, aad);
    assert Owned(v, c, k);
    var i: nat :| i < |v.history| && Entry(v, c, k, i);
    var plain := v.log[k].plain;
    var genuine := Header(i, |plain| + TAG_SIZE);
    assert v.log[k] == SealOf(c, i, plain);
    SplitEqual(e.noncePrefix, BigEndian(n, 8), c.noncePrefix, BigEndian(i, 8));
    SplitEqual(MAGIC + e.streamId, header, MAGIC + c.streamId, genuine);
    SplitEqual(MAGIC, e.streamId, MAGIC, c.streamId);
    NonceInjective(c, n, i);
  }

  lemma SplitEqual<T>(a: seq<T>, b: seq<T>, x: seq<T>, y: seq<T>)
    requires |a| == |x| && a + b == x + y
    ensures a == x && b == y
  {
    assert a == (a + b)[..|a|] && x == (x + y)[..|a|];
    assert b == (a + b)[|a|..] && y == (x + y)[|a|..];
  }

  lemma LayoutPrefix(c: Codec, records: seq<Record>, n: nat)
    requires n < |records| && forall r :: r in records ==> Writable(c, r)
    ensures Layout(c, records[..n + 1]) == Layout(c, records[..n]) + Frame(c, records[n])
  {
    assert records[..n + 1][..n] == records[..n];
  }

  /** One frame that opens extends the prefix by the vault's next record, byte for byte. */
  lemma FrameGenuine(v: Vault, c: Codec, e: Envelope, rest: Bytes, records: seq<Record>) returns (record: Record)
    requires Consistent(v, c) && Lawful(c) && Accepted(e) && Prefix(v, records)
    requires |rest| >= FRAME_SIZE && FromBigEndian(rest[..8]) == |records|
    requires FromBigEndian(rest[8..FRAME_SIZE]) <= |rest| - FRAME_SIZE
    requires Decrypt(c, e, v.log, |records|, rest[FRAME_SIZE..][..FromBigEndian(rest[8..FRAME_SIZE])], rest[..FRAME_SIZE]).Some?
    ensures var size := FromBigEndian(rest[8..FRAME_SIZE]);
            && c.loads(Decrypt(c, e, v.log, |records|, rest[FRAME_SIZE..][..size], rest[..FRAME_SIZE]).value) == Some(record)
            && record.sequence == |records|
            && Prefix(v, records + [record])
            && (forall x :: x in records + [record] ==> Writable(c, x))
            && Layout(c, records + [record]) + rest[FRAME_SIZE..][size..] == Layout(c, records) + rest
    ensures e.noncePrefix == c.noncePrefix && e.streamId == c.streamId && e.key.Genuine?
  {
    hide BigEndian, FromBigEndian, Decrypt, Frame, Consistent, Accepted;
    PrefixWritable(v, c, records);
    var header, size := rest[..FRAME_SIZE], FromBigEndian(rest[8..FRAME_SIZE]);
    var cipher := rest[FRAME_SIZE..][..size];
    assert rest[..8] == header[..8] && |header[..8]| == 8;
    Pow256Values();
    Opens(v, c, e, |records|, cipher, header);
    record := v.history[|records|].value;
    var grown := records + [record];
    assert grown[..|records|] == records;
    assert rest == (header + cipher) + rest[FRAME_SIZE..][size..];
    assert Layout(c, grown) == Layout(c, records) + (header + cipher);
  }

  /** The frames read after a genuine prefix extend it, and account for every byte if the reader ends well. */
  lemma {:induction false} FramesGenuine(v: Vault, c: Codec, e: Envelope, rest: Bytes, records: seq<Record>)
    requires Consistent(v, c) && Lawful(c) && Accepted(e) && Prefix(v, records)
    ensures var r := ReadFrames(c, e, v.log, rest, records);
            && Prefix(v, r.records) && |records| <= |r.records|
            && (forall x :: x in records ==> Writable(c, x)) && (forall x :: x in r.records ==> Writable(c, x))
            && (r.valid <==> r.issues == [])
            && (r.valid ==> Layout(c, r.records) == Layout(c, records) + rest)
            && (|records| < |r.records| ==> e.noncePrefix == c.noncePrefix && e.streamId == c.streamId && e.key.Genuine?)
    decreases |rest|
  {
    hide BigEndian, FromBigEndian, Decrypt, Frame, Consistent, Layout, Prefix, Accepted, Lawful;
    PrefixWritable(v, c, records);
    if |rest| >= FRAME_SIZE {
      var header := rest[..FRAME_SIZE];
      assert header[..8] == rest[..8] && header[8..] == rest[8..FRAME_SIZE];
      var sequence, size := FromBigEndian(rest[..8]), FromBigEndian(rest[8..FRAME_SIZE]);
      if sequence == |records| && TAG_SIZE <= size <= MAX_FRAME_BYTES && size <= |rest| - FRAME_SIZE {
        if Decrypt(c, e, v.log, sequence, rest[FRAME_SIZE..][..size], header).Some? {
          var record := FrameGenuine(v, c, e, rest, records);
          FramesGenuine(v, c, e, rest[FRAME_SIZE..][size..], records + [record]);
        }
      }
    } else if rest == [] {
      assert Layout(c, records) == Layout(c, records) + rest;
    }
  }

  /** For every header and every file, what the reader returns is a prefix of what the vault wrote. */
  lemma ReadsPrefix(v: Vault, c: Codec, e: Envelope, file: Bytes)
    requires Consistent(v, c) && Lawful(c)
    ensures var r := ReadRecords(c, e, v.log, file);
            && Prefix(v, r.records)
            && (forall x :: x in r.records ==> Writable(c, x))
            && (r.valid <==> r.issues == [])
            && (r.valid ==> Accepted(e) && file == Layout(c, r.records))
            && (r.records != [] ==> e.noncePrefix == c.noncePrefix && e.streamId == c.streamId && e.key.Genuine?)
  {
    hide ReadFrames, Accepted;
    if Accepted(e) && MAGIC <= file {
      FramesGenuine(v, c, e, file[|MAGIC|..], []);
      assert file == MAGIC + file[|MAGIC|..];
    }
  }

  // ---------------------------------------------------------------------------
  // What the vault wrote without a failure reads back
  // ---------------------------------------------------------------------------

  /** header.json as the vault's constructor wrote it. */
  ghost predicate OwnEnvelope(c: Codec, e: Envelope) {
    Accepted(e) && e.noncePrefix == c.noncePrefix && e.streamId == c.streamId && e.key.Genuine?
  }

  lemma {:induction false} UnsealOpens(c: Codec, log: seq<Sealed>, k: nat)
    requires k < |log| && forall j: nat :: j < |log| && log[j].nonce == log[k].nonce ==> log[j] == log[k]
    ensures Unseal(c, log, log[k].nonce, c.seal(log[k].nonce, log[k].plain, log[k].aad), log[k].aad) == Some(log[k].plain)
  {
    if log[0].nonce == log[k].nonce {
      assert log[0] == log[k];
    } else {
      var rest := log[1..];
      forall j: nat | j < |rest| && rest[j].nonce == rest[k - 1].nonce ensures rest[j] == rest[k - 1] {
        assert log[j + 1].nonce == log[k].nonce;
      }
      UnsealOpens(c, rest, k - 1);
    }
  }

  lemma Reopens(v: Vault, c: Codec, e: Envelope, i: nat)
    requires Consistent(v, c) && Lawful(c) && OwnEnvelope(c, e) && i < |v.history| && v.history[i].Some?
    ensures var r := v.history[i].value;
            && Writable(c, r) && r.sequence == i
            && |Frame(c, r)| == FRAME_SIZE + |c.dumps(r).value| + TAG_SIZE
            && Frame(c, r)[..FRAME_SIZE] == Header(i, |c.dumps(r).value| + TAG_SIZE)
            && Decrypt(c, e, v.log, i, Frame(c, r)[FRAME_SIZE..], Frame(c, r)[..FRAME_SIZE]) == c.dumps(r)
  {
    hide BigEndian, Unseal;
    assert Used(v, c, i);
    var k: nat :| k < |v.log| && Entry(v, c, k, i);
    forall j: nat | j < |v.log| && v.log[j].nonce == v.log[k].nonce ensures v.log[j] == v.log[k] {
      NoncesUnique(v, c, j, k);
    }
    UnsealOpens(c, v.log, k);
    var r := v.history[i].value;
    var sealed := v.log[k];
    var header := Header(i, |sealed.plain| + TAG_SIZE);
    var cipher := c.seal(sealed.nonce, sealed.plain, sealed.aad);
    assert Frame(c, r) == header + cipher;
    assert Frame(c, r)[..FRAME_SIZE] == header && Frame(c, r)[FRAME_SIZE..] == cipher;
    assert sealed.aad == MAGIC + e.streamId + header;
  }

  /** A header gives back the number and the size it was built from. */
  lemma HeaderReads(sequence: nat, size: nat)
    requires sequence < TWO64 && size < TWO64
    ensures FromBigEndian(Header(sequence, size)[..8]) == sequence && FromBigEndian(Header(sequence, size)[8..]) == size
  {
    hide BigEndian, FromBigEndian;
    assert Header(sequence, size)[..8] == BigEndian(sequence, 8) && Header(sequence, size)[8..] == BigEndian(size, 8);
    Pow256Values();
    BigEndianRoundTrip(sequence, 8);
    BigEndianRoundTrip(size, 8);
  }

  lemma {:induction false} LayoutGrows(c: Codec, records: seq<Record>, m: nat)
    requires m <= |records| && forall r :: r in records ==> Writable(c, r)
    ensures Layout(c, records[..m]) <= Layout(c, records)
  {
    if m == |records| {
      assert records[..m] == records;
    } else {
      LayoutGrows(c, records[..|records| - 1], m);
      assert records[..|records| - 1][..m] == records[..m];
    }
  }

  /** Reading a frame the vault wrote moves on to the next. */
  lemma ReadsFrame(v: Vault, c: Codec, e: Envelope, records: seq<Record>, n: nat, after: Bytes)
    requires Consistent(v, c) && Lawful(c) && OwnEnvelope(c, e) && Prefix(v, records) && n < |records|
    requires Writable(c, records[n])
    ensures ReadFrames(c, e, v.log, Frame(c, records[n]) + after, records[..n]) == ReadFrames(c, e, v.log, after, records[..n + 1])
  {
    hide BigEndian, FromBigEndian, Consistent, Lawful, Decrypt, Frame, Header, OwnEnvelope;
    Reopens(v, c, e, n);
    var r := records[n];
    var frame, plain := Frame(c, r), c.dumps(r).value;
    var size := |plain| + TAG_SIZE;
    var rest := frame + after;
    VaultBound(v, c, n);
    HeaderReads(n, size);
    assert rest[..FRAME_SIZE] == frame[..FRAME_SIZE];
    assert rest[FRAME_SIZE..][..size] == frame[FRAME_SIZE..];
    assert rest[FRAME_SIZE..][size..] == after;
    LawfulLoads(c, r);
    assert records[..n] + [r] == records[..n + 1];
  }

  lemma VaultBound(v: Vault, c: Codec, n: nat)
    requires Consistent(v, c) && n < |v.history|
    ensures n < TWO64
  {
  }

  lemma LawfulLoads(c: Codec, r: Record)
    requires Lawful(c) && Writable(c, r)
    ensures c.loads(c.dumps(r).value) == Some(r)
  {
  }

  lemma NothingLeft(c: Codec, e: Envelope, log: seq<Sealed>, records: seq<Record>)
    ensures ReadFrames(c, e, log, [], records) == Reading(records, true, [])
  {
  }

  lemma {:induction false} FramesReadBack(v: Vault, c: Codec, e: Envelope, records: seq<Record>, n: nat)
    requires Consistent(v, c) && Lawful(c) && OwnEnvelope(c, e) && Prefix(v, records) && n <= |records|
    requires forall r :: r in records ==> Writable(c, r)
    requires Layout(c, records[..n]) <= Layout(c, records)
    ensures ReadFrames(c, e, v.log, Layout(c, records)[|Layout(c, records[..n])|..], records[..n]) == Reading(records, true, [])
    decreases |records| - n
  {
    hide *;
    if n == |records| {
      assert records[..n] == records;
      assert Layout(c, records)[|Layout(c, records)|..] == [];
      NothingLeft(c, e, v.log, records);
    } else {
      LayoutGrows(c, records, n + 1);
      LayoutPrefix(c, records, n);
      FramesReadBack(v, c, e, records, n + 1);
      var whole, before := Layout(c, records), |Layout(c, records[..n])|;
      var after := whole[before + |Frame(c, records[n])|..];
      assert whole[before..] == Frame(c, records[n]) + after;
      ReadsFrame(v, c, e, records, n, after);
    }
  }

  /** A file whose frames are a prefix of what the vault wrote reads back as that prefix, to the last byte. */
  lemma ReadsBack(v: Vault, c: Codec, e: Envelope, records: seq<Record>)
    requires Consistent(v, c) && Lawful(c) && OwnEnvelope(c, e) && Prefix(v, records)
    ensures forall r :: r in records ==> Writable(c, r)
    ensures ReadRecords(c, e, v.log, Layout(c, records)) == Reading(records, true, [])
  {
    hide ReadFrames, Consistent, Lawful, Prefix, Frame;
    PrefixWritable(v, c, records);
    LayoutGrows(c, records, 0);
    assert records[..0] == [];
    FramesReadBack(v, c, e, records, 0);
  }

  /** The bytes of a complete session: the frames of the vault's first records, through the end of a session. */
  ghost predicate CompleteFile(v: Vault, c: Codec, file: Bytes, records: seq<Record>) {
    && Prefix(v, records) && CompleteLog(records)
    && (forall r :: r in records ==> Writable(c, r)) && file == Layout(c, records)
  }

  /**
    A file is judged complete exactly when header.json is the vault's and the file is, byte for byte, the
    frames of a complete session from the vault's first record on: no truncation, reordering, splice or
    skipped number passes.
   */
  lemma VerdictExact(v: Vault, c: Codec, e: Envelope, file: Bytes)
    requires Consistent(v, c) && Lawful(c)
    ensures JudgedComplete(ReadRecords(c, e, v.log, file)) <==>
            OwnEnvelope(c, e) && exists records :: CompleteFile(v, c, file, records)
  {
    hide ReadRecords, Consistent, Lawful, Prefix, CompleteLog, Layout;
    var r := ReadRecords(c, e, v.log, file);
    ReadsPrefix(v, c, e, file);
    if JudgedComplete(r) {
      LogNotEmpty(r.records);
      assert CompleteFile(v, c, file, r.records);
    }
    if OwnEnvelope(c, e) && exists records :: CompleteFile(v, c, file, records) {
      var records :| CompleteFile(v, c, file, records);
      ReadsBack(v, c, e, records);
    }
  }

  lemma LogNotEmpty(records: seq<Record>)
    requires CompleteLog(records)
    ensures records != []
  {
  }
}
