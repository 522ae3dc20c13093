/**
  Request correlation: every request is settled exactly once, by its own response, its own timeout, its own
  failure to be sent or the failure of the transport, in every order of responses, timeouts and failures.
 */
module RpcRequests {
  import opened Wrappers
  import opened ByteStrings
  import opened RpcTransports

  function Count(log: seq<Settlement>, id: nat): nat {
    if log == [] then 0 else Count(log[..|log| - 1], id) + (if log[|log| - 1].id == id then 1 else 0)
  }

  lemma CountAppend(log: seq<Settlement>, s: Settlement)
    ensures forall id :: Count(log + [s], id) == Count(log, id) + (if s.id == id then 1 else 0)
  {
    assert (log + [s])[..|log|] == log;
  }

  predicate Ascending(ids: seq<nat>) { forall i, j :: 0 <= i < j < |ids| ==> ids[i] < ids[j] }

  predicate Issued(r: Rpc, id: nat) { INITIALIZE <= id < r.nextId }

  /** The table holds exactly the unsettled requests; every other request issued was settled once. */
  ghost predicate Ledger(r: Rpc) {
    && Ascending(r.pending)
    && (forall id :: id in r.pending ==> Issued(r, id))
    && (forall id: nat :: Count(r.log, id) == if Issued(r, id) && id !in r.pending then 1 else 0)
    && (r.closed.Some? ==> r.pending == [] && !r.started && r.buffer == [])
    && (r.started ==> r.spawned)
    && INITIALIZE <= r.nextId
  }

  lemma {:induction false} WithoutMembers(ids: seq<nat>, id: nat)
    ensures forall x :: x in Without(ids, id) <==> x in ids && x != id
  {
    if ids != [] {
      WithoutMembers(ids[1..], id);
      assert ids == [ids[0]] + ids[1..];
    }
  }

  lemma {:induction false} WithoutAscending(ids: seq<nat>, id: nat)
    requires Ascending(ids)
    ensures Ascending(Without(ids, id))
  {
    if ids != [] {
      var rest := Without(ids[1..], id);
      WithoutAscending(ids[1..], id);
      WithoutMembers(ids[1..], id);
      forall i | 0 <= i < |rest| ensures ids[0] < rest[i] {
        assert rest[i] in ids[1..];
      }
    }
  }

  lemma SettleLedger(r: Rpc, id: nat, o: Outcome)
    requires Ledger(r) && id in r.pending
    ensures Ledger(Settle(r, id, o)) && !(id in Settle(r, id, o).pending)
  {
    hide Without, Count;
    WithoutAscending(r.pending, id);
    WithoutMembers(r.pending, id);
    CountAppend(r.log, Settlement(id, o));
  }

  lemma {:induction false} RejectAllCounts(log: seq<Settlement>, ids: seq<nat>, cause: Cause, id: nat)
    requires Ascending(ids)
    ensures Count(RejectAll(log, ids, cause), id) == Count(log, id) + (if id in ids then 1 else 0)
    decreases |ids|
  {
    hide Count;
    if ids != [] {
      CountAppend(log, Settlement(ids[0], Failed(cause)));
      RejectAllCounts(log + [Settlement(ids[0], Failed(cause))], ids[1..], cause, id);
      assert forall x :: x in ids <==> x == ids[0] || x in ids[1..];
      assert forall x :: x in ids[1..] ==> ids[0] < x;
    }
  }

  lemma FailLedger(r: Rpc, cause: Cause)
    requires Ledger(r)
    ensures Ledger(Fail(r, cause)) && Fail(r, cause).closed.Some?
  {
    hide Count, RejectAll;
    forall id: nat ensures Count(RejectAll(r.log, r.pending, cause), id) == Count(r.log, id) + (if id in r.pending then 1 else 0) {
      RejectAllCounts(r.log, r.pending, cause, id);
    }
  }

  lemma IssueLedger(r: Rpc, writable: bool)
    requires Ledger(r) && (r.closed.None? || !writable)
    requires r.closed.None?
    ensures Ledger(Issue(r, writable))
  {
    hide Count, Settle;
    var s := r.(nextId := r.nextId + 1, pending := r.pending + [r.nextId]);
    assert Ledger(s) by {
      forall i | 0 <= i < |r.pending| ensures r.pending[i] < r.nextId {
        assert r.pending[i] in r.pending;
      }
    }
    if !writable {
      SettleLedger(s, r.nextId, NotSent);
    }
  }

  lemma {:induction false} PerformLedger(r: Rpc, actions: seq<Action>)
    requires Ledger(r)
    ensures Ledger(Perform(r, actions))
    decreases |actions|
  {
    hide Ledger, Issue, Fail;
    if actions != [] {
      match actions[0] {
        case Ask(writable) =>
          if r.started && r.closed.None? {
            IssueLedger(r, writable);
          }
          PerformLedger(Request(r, writable), actions[1..]);
        case Shut =>
          FailLedger(r, ClosedByHost);
          PerformLedger(Fail(r, ClosedByHost), actions[1..]);
      }
    }
  }

  lemma LineLedger(w: World, r: Rpc, line: Bytes)
    requires Ledger(r)
    ensures Ledger(OnLine(w, r, line))
  {
    hide Count, Perform, Fail, Settle, Named;
    match w.decode(line)
    case Blank =>
    case Invalid =>
      FailLedger(r, ProtocolError);
    case Inbound =>
      var heard := r.(emitted := r.emitted + [line]);
      PerformLedger(heard, w.host(heard.emitted));
    case Reply(id, ok) =>
      var n := Named(r.pending, id);
      if n.Some? {
        SettleLedger(r, n.value, if ok then Resolved else RejectedByPeer);
      }
  }

  lemma {:induction false} BytesLedger(w: World, r: Rpc, s: Bytes)
    requires Ledger(r)
    ensures Ledger(OnBytes(w, r, s))
  {
    hide Count, OnLine, Fail;
    if s != [] {
      var t := OnBytes(w, r, s[..|s| - 1]);
      BytesLedger(w, r, s[..|s| - 1]);
      if t.closed.None? {
        LineLedger(w, t.(buffer := []), t.buffer);
        FailLedger(t, ProtocolError);
      }
    }
  }

  lemma ResumptionLedger(r: Rpc, writable: bool)
    requires Ledger(r)
    ensures Ledger(Resumption(r, writable))
  {
    hide Count, Fail;
    FailLedger(r.(resumed := true), StartFailed);
  }

  lemma NextLedger(w: World, r: Rpc, s: Step)
    requires Ledger(r)
    ensures Ledger(Next(w, r, s))
  {
    hide Count, Issue, Fail, Settle, Resumption, OnBytes;
    match s
    case Start(writable) =>
      if r.closed.None? && !r.spawned {
        IssueLedger(r.(spawned := true), writable);
      }
    case Resume(writable) =>
      ResumptionLedger(r, writable);
    case Call(writable) =>
      if r.started && r.closed.None? {
        IssueLedger(r, writable);
      }
    case Data(chunk) =>
      BytesLedger(w, r, chunk);
    case Expire(id) =>
      if id in r.pending {
        SettleLedger(r, id, TimedOut);
      }
    case Down(cause) =>
      FailLedger(r, cause);
  }

  lemma {:induction false} RunLedger(w: World, steps: seq<Step>)
    ensures Ledger(Run(w, steps))
  {
    hide Ledger, Next;
    if steps == [] {
      FreshLedger();
    } else {
      RunLedger(w, steps[..|steps| - 1]);
      NextLedger(w, Run(w, steps[..|steps| - 1]), steps[|steps| - 1]);
    }
  }

  lemma FreshLedger()
    ensures Ledger(Fresh())
  {
  }

  /**
    Over every run: a request that was issued is either in the table and unsettled, or out of it and settled
    exactly once; ids never issued are never settled; and after a failure the table is empty.
   */
  lemma SettledExactlyOnce(w: World, steps: seq<Step>, id: nat)
    ensures var r := Run(w, steps);
            && (id in r.pending ==> Issued(r, id) && Count(r.log, id) == 0)
            && (Issued(r, id) && id !in r.pending ==> Count(r.log, id) == 1)
            && (!Issued(r, id) ==> Count(r.log, id) == 0)
            && (r.closed.Some? ==> r.pending == [] && !r.started)
  {
    hide Run, Count;
    RunLedger(w, steps);
  }

  // ---------------------------------------------------------------------------
  // What a step settles
  // ---------------------------------------------------------------------------

  /** The failure is remembered, and the table stays empty, whatever happens later. */
  lemma FailureIsFinal(w: World, r: Rpc, s: Step)
    requires Ledger(r) && r.closed.Some?
    ensures var t := Next(w, r, s);
            t.closed == r.closed && t.pending == [] && t.log == r.log && t.emitted == r.emitted && t.nextId == r.nextId
  {
    hide Count;
    if s.Data? {
      ClosedStays(w, r, s.chunk);
    }
  }

  /** A line that fits is handed on when its end is read. */
  lemma WholeLineRead(w: World, r: Rpc, line: Bytes)
    requires r.closed.None? && r.buffer == [] && NEWLINE !in line && |line| <= w.maxLine
    ensures OnBytes(w, r, line + [NEWLINE]) == OnLine(w, r, line)
  {
    StretchRead(w, r, line);
    hide OnLine;
    assert (line + [NEWLINE])[..|line|] == line;
    assert r.buffer + line == line;
    assert r.(buffer := line).(buffer := []) == r;
  }

  lemma ReplyLine(w: World, r: Rpc, line: Bytes, id: RpcId, ok: bool)
    requires w.decode(line) == Reply(id, ok)
    ensures var n := Named(r.pending, id);
            OnLine(w, r, line) == if n.None? then r else Settle(r, n.value, if ok then Resolved else RejectedByPeer)
  {
  }

  lemma NamedIs(pending: seq<nat>, id: RpcId, m: nat)
    ensures m in pending && id == Number(m as real) <==> Named(pending, id) == Some(m)
  {
  }

  /**
    A response settles the request with its id, and no other; the response to a request that timed out, was
    already answered or was never made changes nothing.
   */
  lemma ReplySettlesItsOwn(w: World, r: Rpc, line: Bytes, id: RpcId, ok: bool)
    requires Ledger(r) && r.closed.None? && r.buffer == [] && NEWLINE !in line && |line| <= w.maxLine
    requires w.decode(line) == Reply(id, ok)
    ensures var t := OnBytes(w, r, line + [NEWLINE]);
            && t.buffer == [] && t.closed.None? && t.nextId == r.nextId && t.emitted == r.emitted
            && (forall n: nat :: Count(t.log, n) == Count(r.log, n) + (if id == Number(n as real) && n in r.pending then 1 else 0))
            && (forall n: nat :: n in t.pending <==> n in r.pending && id != Number(n as real))
            && (t.log == r.log || (|t.log| > 0 && t.log[|t.log| - 1].outcome == if ok then Resolved else RejectedByPeer))
  {
    WholeLineRead(w, r, line);
    ReplyLine(w, r, line, id, ok);
    hide Count, Without, OnBytes, OnLine, Ledger, Named;
    forall m: nat ensures m in r.pending && id == Number(m as real) <==> Named(r.pending, id) == Some(m) {
      NamedIs(r.pending, id, m);
    }
    var n := Named(r.pending, id);
    if n.Some? {
      WithoutMembers(r.pending, n.value);
      CountAppend(r.log, Settlement(n.value, if ok then Resolved else RejectedByPeer));
    }
  }

  // ---------------------------------------------------------------------------
  // How a request was settled
  // ---------------------------------------------------------------------------

  /** The steps of a run and the bytes it has read. */
  datatype Past = Past(steps: seq<Step>, input: Bytes)

  /** The line stands in the input. */
  ghost predicate Reads(input: Bytes, line: Bytes) { exists i, j :: 0 <= i <= j <= |input| && input[i..j] == line }

  function Read(steps: seq<Step>): Bytes {
    if steps == [] then []
    else Read(steps[..|steps| - 1]) + (match steps[|steps| - 1] case Data(chunk) => chunk case _ => [])
  }

  /**
    A settlement says what happened: resolved and rejected stand for a response with this id and of that kind
    that was read, timed out for this request's own timer, and failed for the one cause the transport failed of.
   */
  ghost predicate Told(w: World, p: Past, closed: Option<Cause>, e: Settlement) {
    match e.outcome
    case Resolved => exists line :: Reads(p.input, line) && w.decode(line) == Reply(Number(e.id as real), true)
    case RejectedByPeer => exists line :: Reads(p.input, line) && w.decode(line) == Reply(Number(e.id as real), false)
    case TimedOut => Expire(e.id) in p.steps
    case Failed(cause) => closed == Some(cause)
    case NotSent => true
  }

  ghost predicate AllTold(w: World, p: Past, r: Rpc) {
    && (forall e :: e in r.log ==> Told(w, p, r.closed, e))
    && (r.closed.Some? ==> r.pending == [])
    && (r.closed.None? ==> EndsWith(p.input, r.buffer))
  }

  predicate EndsWith(input: Bytes, s: Bytes) { |s| <= |input| && input[|input| - |s|..] == s }

  /** More steps, and more input behind the one so far. */
  lemma ToldMore(w: World, p: Past, q: Past, r: Rpc)
    requires forall e :: e in r.log ==> Told(w, p, r.closed, e)
    requires p.input <= q.input && forall s :: s in p.steps ==> s in q.steps
    ensures forall e :: e in r.log ==> Told(w, q, r.closed, e)
  {
    forall e | e in r.log ensures Told(w, q, r.closed, e) {
      assert Told(w, p, r.closed, e);
      if e.outcome.Resolved? || e.outcome.RejectedByPeer? {
        var line :| Reads(p.input, line) && w.decode(line) == Reply(Number(e.id as real), e.outcome.Resolved?);
        ReadsMore(p.input, q.input, line);
      }
    }
  }

  lemma ReadsMore(a: Bytes, b: Bytes, line: Bytes)
    requires a <= b && Reads(a, line)
    ensures Reads(b, line)
  {
    var i, j :| 0 <= i <= j <= |a| && a[i..j] == line;
    assert b[i..j] == line;
  }

  lemma SettleTold(w: World, p: Past, r: Rpc, id: nat, o: Outcome)
    requires AllTold(w, p, r) && Told(w, p, r.closed, Settlement(id, o))
    ensures AllTold(w, p, Settle(r, id, o))
  {
    hide Told;
    var q := Settle(r, id, o);
    if r.closed.Some? {
      WithoutMembers(r.pending, id);
      assert q.pending == [];
    }
  }

  lemma {:induction false} RejectAllAdds(log: seq<Settlement>, ids: seq<nat>, cause: Cause, e: Settlement)
    requires e in RejectAll(log, ids, cause)
    ensures e in log || e.outcome == Failed(cause)
    decreases |ids|
  {
    if ids != [] {
      RejectAllAdds(log + [Settlement(ids[0], Failed(cause))], ids[1..], cause, e);
    } else {
      assert RejectAll(log, ids, cause) == log;
    }
  }

  lemma FailTold(w: World, p: Past, r: Rpc, cause: Cause)
    requires AllTold(w, p, r)
    ensures AllTold(w, p, Fail(r, cause))
  {
    hide RejectAll;
    if r.closed.None? {
      var q := Fail(r, cause);
      forall e | e in q.log ensures Told(w, p, q.closed, e) {
        RejectAllAdds(r.log, r.pending, cause, e);
        if e in r.log {
          assert Told(w, p, r.closed, e);
        }
      }
    }
  }

  lemma IssueTold(w: World, p: Past, r: Rpc, writable: bool)
    requires AllTold(w, p, r) && r.closed.None?
    ensures AllTold(w, p, Issue(r, writable))
  {
    hide Settle, Told;
    var s := r.(nextId := r.nextId + 1, pending := r.pending + [r.nextId]);
    if !writable {
      NotSentTold(w, p, r.closed, r.nextId);
      SettleTold(w, p, s, r.nextId, NotSent);
    }
  }

  lemma NotSentTold(w: World, p: Past, closed: Option<Cause>, id: nat)
    ensures Told(w, p, closed, Settlement(id, NotSent))
  {
  }

  lemma {:induction false} PerformTold(w: World, p: Past, r: Rpc, actions: seq<Action>)
    requires AllTold(w, p, r)
    ensures AllTold(w, p, Perform(r, actions))
    decreases |actions|
  {
    hide AllTold, Issue, Fail;
    if actions == [] {
      assert Perform(r, actions) == r;
    } else {
      match actions[0] {
        case Ask(writable) =>
          if r.started && r.closed.None? {
            IssueTold(w, p, r, writable);
          }
          PerformTold(w, p, Request(r, writable), actions[1..]);
        case Shut =>
          FailTold(w, p, r, ClosedByHost);
          PerformTold(w, p, Fail(r, ClosedByHost), actions[1..]);
      }
    }
  }

  lemma LogTold(w: World, p: Past, r: Rpc, q: Rpc)
    requires AllTold(w, p, r) && q.log == r.log && q.closed == r.closed && (q.closed.Some? ==> q.pending == [])
    requires q.buffer == r.buffer
    ensures AllTold(w, p, q)
  {
    hide Told;
  }

  lemma LineTold(w: World, p: Past, r: Rpc, line: Bytes)
    requires AllTold(w, p, r) && Reads(p.input, line)
    ensures AllTold(w, p, OnLine(w, r, line))
  {
    hide AllTold, Perform, Fail, Settle, Named, Told;
    match w.decode(line)
    case Blank =>
    case Invalid => FailTold(w, p, r, ProtocolError);
    case Inbound =>
      var heard := r.(emitted := r.emitted + [line]);
      HeardTold(w, p, r, heard);
      PerformTold(w, p, heard, w.host(heard.emitted));
    case Reply(id, ok) =>
      var n := Named(r.pending, id);
      if n.Some? {
        ReplyTold(w, p, r.closed, line, n.value, ok);
        SettleTold(w, p, r, n.value, if ok then Resolved else RejectedByPeer);
      }
  }

  lemma HeardTold(w: World, p: Past, r: Rpc, q: Rpc)
    requires AllTold(w, p, r) && q == r.(emitted := q.emitted)
    ensures AllTold(w, p, q)
  {
    hide Told;
  }

  lemma ReplyTold(w: World, p: Past, closed: Option<Cause>, line: Bytes, id: nat, ok: bool)
    requires Reads(p.input, line) && w.decode(line) == Reply(Number(id as real), ok)
    ensures Told(w, p, closed, Settlement(id, if ok then Resolved else RejectedByPeer))
  {
  }

  lemma {:induction false} BytesTold(w: World, p: Past, r: Rpc, s: Bytes)
    requires AllTold(w, p, r)
    ensures AllTold(w, p.(input := p.input + s), OnBytes(w, r, s))
  {
    hide AllTold, OnByte;
    if s == [] {
      assert p.input + s == p.input;
      assert OnBytes(w, r, s) == r;
    } else {
      var n := |s| - 1;
      BytesTold(w, p, r, s[..n]);
      ByteTold(w, p.(input := p.input + s[..n]), OnBytes(w, r, s[..n]), s[n]);
      assert p.input + s[..n] + [s[n]] == p.input + s;
    }
  }

  lemma ByteTold(w: World, p: Past, r: Rpc, b: Byte)
    requires AllTold(w, p, r)
    ensures AllTold(w, p.(input := p.input + [b]), OnByte(w, r, b))
  {
    var q := p.(input := p.input + [b]);
    ToldMore(w, p, q, r);
    hide Told, OnLine, Fail;
    if r.closed.None? {
      var emptied := r.(buffer := []);
      assert AllTold(w, q, emptied);
      SuffixReads(p.input, r.buffer);
      ReadsMore(p.input, q.input, r.buffer);
      LineTold(w, q, emptied, r.buffer);
      FailTold(w, q, emptied, ProtocolError);
      FailFor(r, emptied, ProtocolError);
      assert (p.input + [b])[|q.input| - |r.buffer + [b]|..] == r.buffer + [b];
    }
  }

  lemma FailFor(r: Rpc, q: Rpc, cause: Cause)
    requires q == r.(buffer := []) && r.closed.None?
    ensures Fail(r, cause) == Fail(q, cause)
  {
  }

  lemma SuffixReads(input: Bytes, s: Bytes)
    requires EndsWith(input, s)
    ensures Reads(input, s)
  {
    assert input[|input| - |s|..|input|] == s;
  }

  lemma ResumptionTold(w: World, p: Past, r: Rpc, writable: bool)
    requires AllTold(w, p, r)
    ensures AllTold(w, p, Resumption(r, writable))
  {
    hide Told, Fail;
    LogTold(w, p, r, r.(resumed := true));
    FailTold(w, p, r.(resumed := true), StartFailed);
  }

  lemma NextTold(w: World, p: Past, r: Rpc, s: Step)
    requires AllTold(w, p, r) && !s.Data? && (s.Expire? ==> s in p.steps)
    ensures AllTold(w, p, Next(w, r, s))
  {
    hide AllTold, Issue, Fail, Settle, Resumption, OnBytes;
    match s
    case Start(writable) =>
      if r.closed.None? && !r.spawned {
        SpawnTold(w, p, r);
        IssueTold(w, p, r.(spawned := true), writable);
      }
    case Resume(writable) => ResumptionTold(w, p, r, writable);
    case Call(writable) =>
      if r.started && r.closed.None? {
        IssueTold(w, p, r, writable);
      }
    case Expire(id) =>
      if id in r.pending {
        SettleTold(w, p, r, id, TimedOut);
      }
    case Down(cause) => FailTold(w, p, r, cause);
  }

  lemma SpawnTold(w: World, p: Past, r: Rpc)
    requires AllTold(w, p, r)
    ensures AllTold(w, p, r.(spawned := true))
  {
    hide Told;
  }

  /** Over every run each settlement tells truly what settled its request. */
  lemma {:induction false} OutcomesTrue(w: World, steps: seq<Step>)
    ensures AllTold(w, Past(steps, Read(steps)), Run(w, steps))
  {
    if steps == [] {
      FreshTold(w);
    } else {
      var last := |steps| - 1;
      var s := steps[last];
      var before := Past(steps[..last], Read(steps[..last]));
      var now := Past(steps, before.input);
      OutcomesTrue(w, steps[..last]);
      ToldMore(w, before, now, Run(w, steps[..last]));
      hide Told, Next, OnBytes;
      assert AllTold(w, now, Run(w, steps[..last]));
      hide AllTold;
      if s.Data? {
        BytesTold(w, now, Run(w, steps[..last]), s.chunk);
        DataNext(w, Run(w, steps[..last]), s.chunk);
      } else {
        NextTold(w, now, Run(w, steps[..last]), s);
        assert Read(steps) == before.input + [] == before.input;
      }
    }
  }

  lemma DataNext(w: World, r: Rpc, chunk: Bytes)
    ensures Next(w, r, Data(chunk)) == OnBytes(w, r, chunk)
  {
  }

  lemma FreshTold(w: World)
    ensures AllTold(w, Past([], []), Fresh())
  {
  }

  /** A timer settles its own request as timed out, if that is still pending, and does nothing else. */
  lemma ExpirySettlesItsOwn(w: World, steps: seq<Step>, id: nat)
    ensures var r, t := Run(w, steps), Run(w, steps + [Expire(id)]);
      && t.log == (if id in r.pending then r.log + [Settlement(id, TimedOut)] else r.log)
      && (forall n :: n in t.pending <==> n in r.pending && n != id)
      && t.closed == r.closed && t.emitted == r.emitted && t.nextId == r.nextId && t.buffer == r.buffer
  {
    assert (steps + [Expire(id)])[..|steps|] == steps;
    WithoutMembers(Run(w, steps).pending, id);
    hide Run, Without;
    assert Run(w, steps + [Expire(id)]) == Next(w, Run(w, steps), Expire(id)) by { OneMoreStep(w, steps, Expire(id)); }
  }

  lemma OneMoreStep(w: World, steps: seq<Step>, s: Step)
    ensures Run(w, steps + [s]) == Next(w, Run(w, steps), s)
  {
    hide Next;
    assert (steps + [s])[..|steps|] == steps;
  }

  // ---------------------------------------------------------------------------
  // What is issued, and what a failure does
  // ---------------------------------------------------------------------------

  /**
    A call of a started transport gets the next id and waits, behind the others; if its message cannot be
    written it is settled as not sent instead. Before the start and after a failure nothing is issued.
   */
  lemma CallsIssued(w: World, r: Rpc, writable: bool)
    requires Ledger(r)
    ensures var t := Next(w, r, Call(writable));
      && (r.started && writable ==> t == r.(nextId := r.nextId + 1, pending := r.pending + [r.nextId]))
      && (r.started && !writable ==>
            && (forall id :: id in t.pending <==> id in r.pending)
            && t == r.(nextId := r.nextId + 1, pending := t.pending, log := r.log + [Settlement(r.nextId, NotSent)]))
      && (!r.started ==> t == r)
  {
    WithoutMembers(r.pending + [r.nextId], r.nextId);
    hide Without, Count;
  }

  lemma {:induction false} RejectedInOrder(log: seq<Settlement>, ids: seq<nat>, cause: Cause, i: nat)
    ensures var all := RejectAll(log, ids, cause);
      && |all| == |log| + |ids| && log <= all
      && (i < |ids| ==> all[|log| + i] == Settlement(ids[i], Failed(cause)))
    decreases |ids|
  {
    if ids != [] {
      var more := log + [Settlement(ids[0], Failed(cause))];
      RejectedInOrder(more, ids[1..], cause, if i == 0 then 0 else i - 1);
      if i == 0 {
        assert RejectAll(more, ids[1..], cause)[|log|] == more[|log|];
      }
    }
  }

  /** The first failure rejects every pending request with its cause, in the order they were issued. */
  lemma FailureRejectsAll(w: World, r: Rpc, cause: Cause, i: nat)
    requires r.closed.None?
    ensures var t := Next(w, r, Down(cause));
      && t.closed == Some(cause) && !t.started && t.pending == [] && t.emitted == r.emitted
      && |t.log| == |r.log| + |r.pending| && r.log <= t.log
      && (i < |r.pending| ==> t.log[|r.log| + i] == Settlement(r.pending[i], Failed(cause)))
  {
    RejectedInOrder(r.log, r.pending, cause, i);
    hide RejectAll;
  }

  /** What every failure leaves, whatever it is of. */
  ghost predicate FailedOf(r: Rpc, t: Rpc, cause: Cause) {
    && t.closed == Some(cause) && !t.started && t.pending == [] && t.buffer == [] && t.nextId == r.nextId && t.emitted == r.emitted
    && |t.log| == |r.log| + |r.pending| && r.log <= t.log
    && forall i :: 0 <= i < |r.pending| ==> t.log[|r.log| + i] == Settlement(r.pending[i], Failed(cause))
  }

  lemma FailIsFailed(r: Rpc, cause: Cause)
    requires r.closed.None?
    ensures FailedOf(r, Fail(r, cause), cause)
  {
    hide RejectAll;
    RejectedInOrder(r.log, r.pending, cause, 0);
    forall i | 0 <= i < |r.pending| ensures RejectAll(r.log, r.pending, cause)[|r.log| + i] == Settlement(r.pending[i], Failed(cause)) {
      RejectedInOrder(r.log, r.pending, cause, i);
    }
  }

  /**
    What a whole line does when it is no response: a blank one nothing; one that is not a message, or longer
    than the limit, fails the transport for a protocol error; a message from the other side is emitted, and
    then its listeners act.
   */
  lemma LinesDo(w: World, r: Rpc, line: Bytes)
    requires r.closed.None? && r.buffer == [] && NEWLINE !in line
    ensures var t := OnBytes(w, r, line + [NEWLINE]);
      if |line| > w.maxLine then FailedOf(r, t, ProtocolError)
      else match w.decode(line)
        case Blank => t == r
        case Invalid => FailedOf(r, t, ProtocolError)
        case Inbound =>
          var heard := r.(emitted := r.emitted + [line]);
          var actions := w.host(heard.emitted);
          && (actions == [] ==> t == heard)
          && (actions == [Shut] ==> FailedOf(heard, t, ClosedByHost))
          && (actions == [Ask(true)] && r.started ==> t == heard.(nextId := r.nextId + 1, pending := r.pending + [r.nextId]))
        case Reply(_, _) => true
  {
    hide OnBytes, FailedOf, Fail, OnLine, Perform;
    FailIsFailed(r, ProtocolError);
    if |line| > w.maxLine {
      LongLine(w, r, line);
    } else {
      WholeLineRead(w, r, line);
      LineIs(w, r, line);
      var heard := r.(emitted := r.emitted + [line]);
      FailIsFailed(heard, ClosedByHost);
      FewActions(heard);
    }
  }

  lemma LineIs(w: World, r: Rpc, line: Bytes)
    ensures match w.decode(line)
      case Blank => OnLine(w, r, line) == r
      case Invalid => OnLine(w, r, line) == Fail(r, ProtocolError)
      case Inbound =>
        var heard := r.(emitted := r.emitted + [line]); OnLine(w, r, line) == Perform(heard, w.host(heard.emitted))
      case Reply(_, _) => true
  {
    hide Fail, Perform;
  }

  lemma FewActions(r: Rpc)
    requires r.closed.None?
    ensures Perform(r, []) == r && Perform(r, [Shut]) == Fail(r, ClosedByHost)
    ensures r.started ==> Perform(r, [Ask(true)]) == r.(nextId := r.nextId + 1, pending := r.pending + [r.nextId])
  {
    hide Fail;
    assert [Shut][1..] == [] && [Ask(true)][1..] == [];
  }

  lemma LongLine(w: World, r: Rpc, line: Bytes)
    requires r.closed.None? && r.buffer == [] && NEWLINE !in line && |line| > w.maxLine
    ensures OnBytes(w, r, line + [NEWLINE]) == Fail(r, ProtocolError)
  {
    StretchRead(w, r, line);
    hide OnBytes, Fail;
    ChunksJoin(w, r, line, [NEWLINE]);
    ClosedStays(w, Fail(r, ProtocolError), [NEWLINE]) by { FailIsFailed(r, ProtocolError); }
  }

  /** Calls are let through only behind an initialize request that was answered. */
  ghost predicate Greeted(r: Rpc) { r.started ==> r.spawned && r.resumed && Settlement(INITIALIZE, Resolved) in r.log }

  lemma RejectAllKeeps(log: seq<Settlement>, ids: seq<nat>, cause: Cause)
    ensures log <= RejectAll(log, ids, cause)
    decreases |ids|
  {
    RejectedInOrder(log, ids, cause, 0);
  }

  /** The log only grows, and the handshake's flags stay. */
  predicate Onward(r: Rpc, t: Rpc) {
    && r.log <= t.log && t.spawned == r.spawned && t.resumed == r.resumed && (t.started ==> r.started)
  }

  lemma OnwardJoins(r: Rpc, s: Rpc, t: Rpc)
    requires Onward(r, s) && Onward(s, t)
    ensures Onward(r, t)
  {
  }

  lemma FailOnward(r: Rpc, cause: Cause)
    ensures Onward(r, Fail(r, cause))
  {
    RejectAllKeeps(r.log, r.pending, cause);
  }

  lemma {:induction false} PerformOnward(r: Rpc, actions: seq<Action>)
    ensures Onward(r, Perform(r, actions))
    decreases |actions|
  {
    hide Without, Fail, Onward;
    if actions == [] {
      assert Onward(r, r) by { OnwardSelf(r); }
    } else {
      var s := match actions[0] case Ask(writable) => Request(r, writable) case Shut => Fail(r, ClosedByHost);
      FailOnward(r, ClosedByHost);
      RequestOnward(r, true);
      RequestOnward(r, false);
      PerformOnward(s, actions[1..]);
      OnwardJoins(r, s, Perform(s, actions[1..]));
    }
  }

  lemma OnwardSelf(r: Rpc)
    ensures Onward(r, r)
  {
  }

  lemma RequestOnward(r: Rpc, writable: bool)
    ensures Onward(r, Request(r, writable)) && Onward(r, Issue(r, writable))
  {
  }

  lemma LineOnward(w: World, r: Rpc, line: Bytes)
    ensures Onward(r, OnLine(w, r, line))
  {
    hide Without, Fail, Perform;
    FailOnward(r, ProtocolError);
    var heard := r.(emitted := r.emitted + [line]);
    PerformOnward(heard, w.host(heard.emitted));
  }

  lemma {:induction false} BytesOnward(w: World, r: Rpc, s: Bytes)
    ensures Onward(r, OnBytes(w, r, s))
  {
    hide OnLine, Fail, Onward;
    OnwardSelf(r);
    if s != [] {
      var t := OnBytes(w, r, s[..|s| - 1]);
      BytesOnward(w, r, s[..|s| - 1]);
      ByteOnward(w, t, s[|s| - 1]);
      OnwardJoins(r, t, OnByte(w, t, s[|s| - 1]));
    }
  }

  lemma ByteOnward(w: World, r: Rpc, b: Byte)
    ensures Onward(r, OnByte(w, r, b))
  {
    hide OnLine, Fail;
    LineOnward(w, r.(buffer := []), r.buffer);
    FailOnward(r, ProtocolError);
  }

  lemma NextGreeted(w: World, r: Rpc, s: Step)
    requires Greeted(r)
    ensures Greeted(Next(w, r, s))
  {
    hide Without, Fail, OnBytes, Settle;
    match s
    case Start(writable) => RequestOnward(r.(spawned := true), writable);
    case Resume(_) => FailOnward(r.(resumed := true), StartFailed);
    case Call(writable) => RequestOnward(r, writable);
    case Data(chunk) => BytesOnward(w, r, chunk);
    case Expire(id) => ExpireOnward(r, id);
    case Down(cause) => FailOnward(r, cause);
  }

  lemma ExpireOnward(r: Rpc, id: nat)
    ensures Onward(r, Settle(r, id, TimedOut))
  {
  }

  /**
    Over every run the transport is started only if the initialize request was answered; and when that is
    settled, going on starts it exactly if it was answered, nothing has failed and the notification that
    follows can be written, and fails the transport for good otherwise.
   */
  lemma HandshakeFirst(w: World, steps: seq<Step>, writable: bool)
    ensures var r := Run(w, steps);
      && (r.started ==> r.spawned && r.resumed && Settlement(INITIALIZE, Resolved) in r.log)
      && (r.spawned && !r.resumed && INITIALIZE !in r.pending ==>
            var t := Next(w, r, Resume(writable));
            && (t.started <==> r.closed.None? && writable && Settlement(INITIALIZE, Resolved) in r.log)
            && (!t.started ==> t.closed == if r.closed.Some? then r.closed else Some(StartFailed)))
  {
    RunGreeted(w, steps);
    RunLedger(w, steps);
    hide Run, RejectAll, Count;
  }

  lemma {:induction false} RunGreeted(w: World, steps: seq<Step>)
    ensures Greeted(Run(w, steps))
  {
    if steps != [] {
      RunGreeted(w, steps[..|steps| - 1]);
      hide Next, Greeted;
      NextGreeted(w, Run(w, steps[..|steps| - 1]), steps[|steps| - 1]);
    }
  }

  // ---------------------------------------------------------------------------
  // The object
  // ---------------------------------------------------------------------------

  /** A line end: the line before it is handled, and reading goes on. */
  lemma EndRead(w: World, a: Rpc, rest: Bytes)
    requires a.closed.None?
    ensures var t := OnLine(w, a.(buffer := []), a.buffer);
            && OnBytes(w, a, [NEWLINE] + rest) == OnBytes(w, t, rest) && t.buffer == []
            && (t.closed.Some? ==> OnBytes(w, a, [NEWLINE] + rest) == t)
  {
    hide OnLine;
    var t := OnLine(w, a.(buffer := []), a.buffer);
    ChunksJoin(w, a, [NEWLINE], rest);
    assert [NEWLINE][..0] == [];
    assert OnBytes(w, a, []) == a;
    assert OnBytes(w, a, [NEWLINE]) == t;
    hide OnBytes;
    LineKeepsBuffer(w, a.(buffer := []), a.buffer);
    if t.closed.Some? {
      ClosedStays(w, t, rest);
    }
  }

  /** A line end at n: the stretch before it is taken, and if it fits, the line is handled and reading goes on. */
  lemma FrontRead(w: World, r: Rpc, s: Bytes, n: nat)
    requires n < |s| && s[n] == NEWLINE && NEWLINE !in s[..n] && r.closed.None? && |r.buffer| <= w.maxLine
    ensures var a := Append(w, r, s[..n]);
            var t := OnLine(w, a.(buffer := []), a.buffer);
            && (a.closed.Some? ==> OnBytes(w, r, s) == a)
            && (a.closed.None? ==> OnBytes(w, r, s) == OnBytes(w, t, s[n + 1..]) && t.buffer == [])
            && (a.closed.None? && t.closed.Some? ==> OnBytes(w, r, s) == t)
  {
    hide OnLine, Append, OnBytes;
    var a := Append(w, r, s[..n]);
    StretchRead(w, r, s[..n]);
    ChunksJoin(w, r, s[..n], s[n..]);
    assert s[..n] + s[n..] == s;
    if a.closed.Some? {
      ClosedStays(w, a, s[n..]);
    } else {
      EndRead(w, a, s[n + 1..]);
      assert [NEWLINE] + s[n + 1..] == s[n..];
    }
  }

  /** The transport's private fields and handlers. */
  class CodexRpc {
    const world: World
    var buffer: Bytes
    var spawned: bool
    var resumed: bool
    var started: bool
    var closed: Option<Cause>
    var pending: seq<nat>
    var nextId: nat
    var log: seq<Settlement>
    var emitted: seq<Bytes>

    ghost function State(): Rpc
      reads this
    {
      Rpc(buffer, spawned, resumed, started, closed, pending, nextId, log, emitted)
    }

    constructor (world: World)
      ensures this.world == world && State() == Fresh()
    {
      this.world := world;
      buffer, spawned, resumed, started, closed := [], false, false, false, None;
      pending, nextId, log, emitted := [], INITIALIZE, [], [];
    }

    /** Rejects what is pending, in the order it was issued, and empties the table. */
    method FailWith(cause: Cause)
      modifies this
      ensures State() == Fail(old(State()), cause)
    {
      if closed.Some? {
        return;
      }
      closed, started, buffer := Some(cause), false, [];
      var i := 0;
      while i < |pending|
        invariant i <= |pending|
        invariant State() == old(State()).(closed := Some(cause), started := false, buffer := [], log := log)
        invariant RejectAll(log, pending[i..], cause) == RejectAll(old(log), old(pending), cause)
      {
        assert pending[i..][1..] == pending[i + 1..];
        log := log + [Settlement(pending[i], Failed(cause))];
        i := i + 1;
      }
      pending := [];
    }

    method SettleOne(id: nat, outcome: Outcome)
      modifies this
      ensures State() == Settle(old(State()), id, outcome)
    {
      pending := Without(pending, id);
      log := log + [Settlement(id, outcome)];
    }

    method SendRequest(writable: bool)
      modifies this
      ensures State() == Issue(old(State()), writable)
    {
      var id := nextId;
      nextId := nextId + 1;
      pending := pending + [id];
      if closed.Some? || !writable {
        SettleOne(id, NotSent);
      }
    }

    method Ask(writable: bool)
      modifies this
      ensures State() == Request(old(State()), writable)
    {
      if started && closed.None? {
        SendRequest(writable);
      }
    }

    method Start(writable: bool)
      modifies this
      ensures State() == Next(world, old(State()), Step.Start(writable))
    {
      if closed.None? && !spawned {
        spawned := true;
        SendRequest(writable);
      }
    }

    method Resume(writable: bool)
      modifies this
      ensures State() == Next(world, old(State()), Step.Resume(writable))
    {
      if !spawned || resumed || INITIALIZE in pending {
        return;
      }
      resumed := true;
      if closed.None? && writable && Settlement(INITIALIZE, Resolved) in log {
        started := true;
      } else {
        FailWith(StartFailed);
      }
    }

    method Expire(id: nat)
      modifies this
      ensures State() == Next(world, old(State()), Step.Expire(id))
    {
      if id in pending {
        SettleOne(id, TimedOut);
      }
    }

    /** `emit`: the listeners act at once. */
    method Emit(line: Bytes)
      modifies this
      ensures State() == var heard := old(State()).(emitted := old(emitted) + [line]);
                         Perform(heard, world.host(heard.emitted))
    {
      hide Issue, Fail, Settle;
      emitted := emitted + [line];
      var actions := world.host(emitted);
      ghost var heard := State();
      var i := 0;
      while i < |actions|
        invariant i <= |actions|
        invariant Perform(State(), actions[i..]) == Perform(heard, actions)
      {
        assert actions[i..][0] == actions[i] && actions[i..][1..] == actions[i + 1..];
        match actions[i] {
          case Ask(writable) => Ask(writable);
          case Shut => FailWith(ClosedByHost);
        }
        i := i + 1;
      }
    }

    method Line(line: Bytes)
      modifies this
      ensures State() == OnLine(world, old(State()), line)
    {
      hide Perform, Fail, Settle;
      match world.decode(line) {
        case Blank =>
        case Invalid => FailWith(ProtocolError);
        case Inbound => Emit(line);
        case Reply(id, ok) =>
          var n := Named(pending, id);
          if n.Some? {
            SettleOne(n.value, if ok then Resolved else RejectedByPeer);
          }
      }
    }

    method AppendBytes(chunk: Bytes) returns (ok: bool)
      modifies this
      ensures State() == Append(world, old(State()), chunk)
      ensures closed.None? ==> ok
      ensures !ok ==> closed.Some?
      ensures ok ==> closed == old(closed)
      ensures |old(buffer)| <= world.maxLine ==> |buffer| <= world.maxLine
    {
      if |buffer| + |chunk| > world.maxLine {
        FailWith(ProtocolError);
        return false;
      }
      if chunk != [] {
        buffer := buffer + chunk;
      }
      return true;
    }

    /** One chunk, scanned for line ends; nothing is read once the transport is closed. */
    method OnData(chunk: Bytes)
      requires |buffer| <= world.maxLine
      modifies this
      ensures State() == Next(world, old(State()), Data(chunk)) && |buffer| <= world.maxLine
    {
      hide OnBytes, OnLine, Fail, Append;
      if closed.Some? {
        ClosedStays(world, State(), chunk);
        return;
      }
      var start, index := 0, 0;
      assert chunk[0..] == chunk;
      while index < |chunk|
        invariant start <= index <= |chunk| && closed.None? && |buffer| <= world.maxLine
        invariant NEWLINE !in chunk[start..index]
        invariant OnBytes(world, State(), chunk[start..]) == OnBytes(world, old(State()), chunk)
      {
        if chunk[index] == NEWLINE {
          assert chunk[start..][..index - start] == chunk[start..index];
          assert chunk[start..][index - start + 1..] == chunk[index + 1..];
          FrontRead(world, State(), chunk[start..], index - start);
          var fits := AppendBytes(chunk[start..index]);
          if !fits {
            return;
          }
          var line := buffer;
          buffer := [];
          Line(line);
          if closed.Some? {
            return;
          }
          start := index + 1;
        }
        index := index + 1;
      }
      assert chunk[start..index] == chunk[start..];
      StretchRead(world, State(), chunk[start..]);
      var fits := AppendBytes(chunk[start..]);
    }
  }
}
