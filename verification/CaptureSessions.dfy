/**
  Whole runs of the capture add-on against the reader: in any interleaving of callbacks and with any disk
  failures, a file is judged complete only if it holds everything recorded through the one session_end, and
  a run that ends without a failure always leaves such a file.
 */
module CaptureSessions {
  import opened Wrappers
  import opened ByteStrings
  import opened CaptureVaults
  import opened CaptureReaders
  import opened CaptureAddons

  type History = seq<Option<Record>>

  predicate AllSome(h: History) { forall i :: 0 <= i < |h| ==> h[i].Some? }

  function Written(h: History): (rs: seq<Record>)
    requires AllSome(h)
    ensures |rs| == |h| && forall i :: 0 <= i < |h| ==> h[i] == Some(rs[i])
  {
    seq(|h|, i requires 0 <= i < |h| => h[i].value)
  }

  predicate NoEnd(h: History) { forall i :: 0 <= i < |h| && h[i].Some? ==> !h[i].value.event.SessionEnd? }

  /** Nothing has gone wrong and the session is open. */
  predicate Live(h: History, failed: bool) { !failed && AllSome(h) && NoEnd(h) }

  /** Record k is the first session_end, reports no failure, and no earlier number was burned. */
  predicate CleanEnd(h: History, k: nat) {
    && k < |h| && AllSome(h[..k + 1]) && NoEnd(h[..k])
    && h[k].value.event == SessionEnd(false)
  }

  predicate StartsOnce(h: History) {
    && |h| > 0 && h[0].Some? && h[0].value.event.SessionStart?
    && forall i :: 1 <= i < |h| && h[i].Some? ==> !h[i].value.event.SessionStart?
  }

  ghost predicate Exact(v: Vault, c: Codec)
    requires AllSome(v.history)
  {
    (forall r :: r in Written(v.history) ==> Writable(c, r)) && v.file == Layout(c, Written(v.history))
  }

  /** What the vault and the failure flag always satisfy together. */
  ghost predicate Ledger(v: Vault, failed: bool, c: Codec) {
    && Consistent(v, c) && Lawful(c) && StartsOnce(v.history)
    && (Live(v.history, failed) ==> Exact(v, c))
    && (forall k: nat :: CleanEnd(v.history, k) ==> CompleteLog(Written(v.history[..k + 1])))
    && (v.closed ==>
          && v.history[|v.history| - 1].Some? && v.history[|v.history| - 1].value.event.SessionEnd?
          && (CleanEnd(v.history, |v.history| - 1) ==> AllSome(v.history) && Exact(v, c)))
    && (v.failures == 0 ==>
          && !failed && AllSome(v.history)
          && if v.closed then CleanEnd(v.history, |v.history| - 1) else NoEnd(v.history))
  }

  lemma WrittenGrows(h: History, r: Record)
    requires AllSome(h)
    ensures AllSome(h + [Some(r)]) && Written(h + [Some(r)]) == Written(h) + [r]
  {
  }

  lemma ExactGrows(v: Vault, w: Vault, c: Codec, r: Record)
    requires AllSome(v.history) && Exact(v, c) && Writable(c, r)
    requires w.history == v.history + [Some(r)] && w.file == v.file + Frame(c, r)
    ensures AllSome(w.history) && Exact(w, c)
  {
    hide Frame, Writable;
    WrittenGrows(v.history, r);
    var rs := Written(v.history) + [r];
    assert rs[..|rs| - 1] == Written(v.history);
  }

  /** A clean end stays where it was as the history grows. */
  lemma CleanEndStays(h: History, g: History, k: nat)
    requires h <= g && k < |h|
    ensures CleanEnd(h, k) <==> CleanEnd(g, k)
    ensures h[..k + 1] == g[..k + 1]
  {
    assert h[..k + 1] == g[..k + 1] && h[..k] == g[..k];
  }

  lemma EndsStay(h: History, g: History)
    requires h <= g && |g| <= |h| + 1
    requires |g| == |h| + 1 ==> g[|h|].None? || g[|h|].value.event != SessionEnd(false)
    requires forall k: nat :: CleanEnd(h, k) ==> CompleteLog(Written(h[..k + 1]))
    ensures forall k: nat :: CleanEnd(g, k) ==> CompleteLog(Written(g[..k + 1]))
  {
    hide CompleteLog, Written;
    forall k: nat | CleanEnd(g, k) ensures CompleteLog(Written(g[..k + 1])) {
      if k < |h| {
        CleanEndStays(h, g, k);
      }
    }
  }

  /** Recording a flow event keeps the ledger, provided a failure is remembered. */
  lemma AppendLedger(v: Vault, failed: bool, c: Codec, id: FlowId, e: FlowEvent, disk: Disk, sync: bool)
    requires Ledger(v, failed, c)
    ensures var w := Append(v, c, FlowRecord(id, e), disk, sync);
            Ledger(w.vault, failed || !w.ok, c)
  {
    hide Append, Consistent, Lawful, Layout, CompleteLog, Written, Writable, Frame, CleanEnd;
    SequenceIs(v, c);
    WriteLands(v, c, FlowRecord(id, e), disk, sync);
    WriteConsistent(v, c, FlowRecord(id, e), disk, sync);
    var w := Append(v, c, FlowRecord(id, e), disk, sync);
    EndsStay(v.history, w.vault.history);
    if w.ok && AllSome(v.history) && Exact(v, c) {
      ExactGrows(v, w.vault, c, Record(v.sequence, FlowRecord(id, e)));
    }
  }

  lemma SequenceIs(v: Vault, c: Codec)
    requires Consistent(v, c)
    ensures |v.history| == v.sequence
  {
  }

  lemma CleanEndAppears(h: History, r: Record)
    requires AllSome(h) && NoEnd(h) && r.event == SessionEnd(false)
    ensures CleanEnd(h + [Some(r)], |h|) && (h + [Some(r)])[..|h| + 1] == h + [Some(r)]
  {
    assert (h + [Some(r)])[..|h|] == h;
  }

  lemma CleanEndLast(h: History)
    requires |h| > 0 && CleanEnd(h, |h| - 1)
    ensures AllSome(h) && NoEnd(h[..|h| - 1]) && h[|h| - 1].value.event == SessionEnd(false)
  {
    assert h[..|h|] == h;
  }

  /** Closing keeps the ledger, provided an untroubled session then has every flow ended. */
  lemma CloseLedger(v: Vault, failed: bool, c: Codec, disk: Disk)
    requires Ledger(v, failed, c)
    requires Live(v.history, failed) ==> CompleteLog(Written(v.history) + [Record(v.sequence, SessionEnd(false))])
    ensures Ledger(CloseVault(v, c, failed, disk).vault, failed, c)
  {
    hide Append, Consistent, Lawful, Layout, CompleteLog, Written, Writable, Frame, CleanEnd;
    SequenceIs(v, c);
    WriteLands(v, c, SessionEnd(failed), disk, true);
    WriteConsistent(v, c, SessionEnd(failed), disk, true);
    if !v.closed {
      var w := Append(v, c, SessionEnd(failed), disk, true);
      var r := Record(v.sequence, SessionEnd(failed));
      ClosedConsistent(w.vault, c);
      if |w.vault.history| == |v.history| + 1 && w.vault.history[v.sequence].Some? {
        assert w.vault.history == v.history + [Some(r)];
        ClosingLedger(v, w.vault, w.ok, failed, c, r);
      } else {
        EndsStay(v.history, w.vault.history);
        if |w.vault.history| == |v.history| {
          assert w.vault.history == v.history;
        }
      }
    }
  }

  lemma ClosedConsistent(v: Vault, c: Codec)
    ensures Consistent(v, c) ==> Consistent(v.(closed := true), c)
  {
    if Consistent(v, c) {
      var w := v.(closed := true);
      AscendingKept(v, c, w);
      hide Ascending;
      forall k: nat | k < |w.log| ensures Owned(w, c, k) {
        assert Owned(v, c, k);
        var i: nat :| i < |v.history| && Entry(v, c, k, i);
        assert Entry(w, c, k, i);
      }
      forall i: nat | i < |w.history| && w.history[i].Some? ensures Used(w, c, i) {
        assert Used(v, c, i);
        var k: nat :| k < |v.log| && Entry(v, c, k, i);
        assert Entry(w, c, k, i);
      }
    }
  }

  /** The session_end record is in the history: sealed, and perhaps landed. */
  lemma ClosingLedger(v: Vault, w: Vault, landed: bool, failed: bool, c: Codec, r: Record)
    requires Ledger(v, failed, c) && !v.closed && r == Record(v.sequence, SessionEnd(failed))
    requires Live(v.history, failed) ==> CompleteLog(Written(v.history) + [Record(v.sequence, SessionEnd(false))])
    requires w.history == v.history + [Some(r)] && Consistent(w, c) && Consistent(w.(closed := true), c)
    requires w.failures == v.failures + (if landed then 0 else 1) && w.closed == v.closed
    requires landed ==> Writable(c, r) && w.file == v.file + Frame(c, r)
    ensures Ledger(if landed then w.(closed := true) else w, failed, c)
  {
    hide Consistent, Lawful, Exact, CompleteLog, Written, Writable, Frame;
    var h, g := v.history, w.history;
    if Live(h, failed) {
      WrittenGrows(h, r);
      CleanEndAppears(h, r);
      if landed {
        ExactGrows(v, w, c, r);
        ExactGrows(v, w.(closed := true), c, r);
      }
    } else {
      NotClean(h, failed, r);
    }
    forall k: nat | CleanEnd(g, k) ensures CompleteLog(Written(g[..k + 1])) {
      if k < |h| {
        CleanEndStays(h, g, k);
      } else {
        assert g[..k + 1] == g;
      }
    }
  }

  lemma NotClean(h: History, failed: bool, r: Record)
    requires r.event == SessionEnd(failed) && !Live(h, failed)
    ensures !CleanEnd(h + [Some(r)], |h|)
  {
    assert (h + [Some(r)])[..|h|] == h;
    assert (h + [Some(r)])[..|h| + 1] == h + [Some(r)];
    if !AllSome(h) {
      var i :| 0 <= i < |h| && h[i].None?;
      assert (h + [Some(r)])[i].None?;
    }
  }

  // ---------------------------------------------------------------------------
  // Flows
  // ---------------------------------------------------------------------------

  ghost predicate Known(a: Addon, id: FlowId) { exists k: nat :: k < |a.flows| && a.flows[k].id == id }

  ghost predicate IsActive(a: Addon, id: FlowId)
    requires Indexed(a)
  {
    exists i: nat :: i < |a.active| && a.flows[a.active[i]].id == id
  }

  predicate IsTerminal(r: Option<Record>, id: FlowId) {
    r.Some? && r.value.event.FlowRecord? && r.value.event.flow == id && r.value.event.event.FlowTerminal?
  }

  /** The flow's terminal record has been written. */
  ghost predicate Over(h: History, id: FlowId) { exists i: nat :: i < |h| && IsTerminal(h[i], id) }

  /** While nothing has gone wrong, every flow ever seen is active or over; `pending` is just being ended. */
  ghost predicate Covered(a: Addon, pending: Option<FlowId>)
    requires Indexed(a)
  {
    Live(a.vault.history, a.failed) ==>
      && (forall i: nat :: i < |a.vault.history| && a.vault.history[i].value.event.FlowRecord?
                           ==> Known(a, a.vault.history[i].value.event.flow))
      && (forall id :: Known(a, id) ==> IsActive(a, id) || Over(a.vault.history, id) || pending == Some(id))
  }

  /** The active table holds one state per flow id. */
  ghost predicate Keyed(a: Addon)
    requires Indexed(a)
  {
    forall i: nat, j: nat :: i < j < |a.active| ==> a.flows[a.active[i]].id != a.flows[a.active[j]].id
  }

  ghost predicate Good(a: Addon, x: Setting) {
    Indexed(a) && Keyed(a) && Ledger(a.vault, a.failed, x.codec) && Covered(a, None)
  }

  lemma EmitCovered(a: Addon, x: Setting, id: FlowId, e: FlowEvent, sync: bool, pending: Option<FlowId>)
    requires Indexed(a) && Ledger(a.vault, a.failed, x.codec) && Covered(a, pending) && Known(a, id)
    ensures var b := Emit(a, x, id, e, sync).addon;
            && Ledger(b.vault, b.failed, x.codec) && a.vault.history <= b.vault.history
            && Covered(b, if e.FlowTerminal? && pending == Some(id) then None else pending)
  {
    hide Append, Consistent, Lawful, Exact, CompleteLog, Written, Writable, CleanEnd, Frame, StartsOnce;
    var o := Emit(a, x, id, e, sync);
    var h, g := a.vault.history, o.addon.vault.history;
    SequenceIs(a.vault, x.codec);
    AppendLedger(a.vault, a.failed, x.codec, id, e, x.disk(a.vault.sequence), sync);
    WriteLands(a.vault, x.codec, FlowRecord(id, e), x.disk(a.vault.sequence), sync);
    if Live(g, o.addon.failed) {
      assert Live(h, a.failed) by {
        assert forall i :: 0 <= i < |h| ==> h[i] == g[i];
      }
      forall i: nat | i < |g| && g[i].value.event.FlowRecord? ensures Known(o.addon, g[i].value.event.flow) {
        if i < |h| {
          assert Known(a, h[i].value.event.flow);
        }
      }
      forall f | Known(o.addon, f)
        ensures IsActive(o.addon, f) || Over(g, f) || (pending == Some(f) && !(e.FlowTerminal? && pending == Some(id)))
      {
        assert Known(a, f);
        if Over(h, f) {
          var i: nat :| i < |h| && IsTerminal(h[i], f);
          assert IsTerminal(g[i], f);
        } else if e.FlowTerminal? && f == id {
          assert IsTerminal(g[|h|], f);
        }
      }
    }
  }

  lemma EmitGood(a: Addon, x: Setting, id: FlowId, e: FlowEvent, sync: bool)
    requires Good(a, x) && Known(a, id)
    ensures Good(Emit(a, x, id, e, sync).addon, x)
  {
    hide Emit, Ledger, Covered, Known;
    EmitCovered(a, x, id, e, sync, None);
  }

  /** Changing a flow's counters and flags, but not its id. */
  lemma RetouchGood(a: Addon, x: Setting, k: nat, f: Flow)
    requires Good(a, x) && k < |a.flows| && f.id == a.flows[k].id
    ensures Good(a.(flows := a.flows[k := f]), x)
  {
    hide Ledger;
    var b := a.(flows := a.flows[k := f]);
    assert forall i :: 0 <= i < |a.flows| ==> b.flows[i].id == a.flows[i].id;
    assert forall id :: Known(b, id) ==> Known(a, id);
    assert forall id :: Known(a, id) ==> Known(b, id);
    assert forall id :: IsActive(a, id) ==> IsActive(b, id);
  }

  lemma PoppedCovered(a: Addon, j: nat)
    requires Indexed(a) && Keyed(a) && Covered(a, None) && j < |a.active|
    ensures Keyed(Popped(a, j)) && Covered(Popped(a, j), Some(a.flows[a.active[j]].id))
  {
    var b := Popped(a, j);
    var f := a.flows[a.active[j]].id;
    assert forall i: nat :: i < |b.active| ==> b.active[i] == a.active[if i < j then i else i + 1];
    forall id | Known(b, id) && IsActive(a, id) && id != f ensures IsActive(b, id) {
      var i: nat :| i < |a.active| && a.flows[a.active[i]].id == id;
      assert b.active[if i < j then i else i - 1] == a.active[i];
    }
    assert forall id :: Known(b, id) <==> Known(a, id);
  }

  lemma TerminalGood(a: Addon, x: Setting, id: FlowId, reason: Reason)
    requires Good(a, x)
    ensures Good(Terminal(a, x, id, reason).addon, x)
    ensures var j := Lookup(a, id);
            Terminal(a, x, id, reason).addon.active ==
            if j.None? then a.active else a.active[..j.value] + a.active[j.value + 1..]
  {
    hide Ledger, Covered, Lookup, Append;
    var j := Lookup(a, id);
    if j.Some? {
      var f := a.flows[a.active[j.value]];
      var e := FlowTerminal(reason, f.chunks, f.bytes, f.eof, f.websocket);
      var b := Popped(a, j.value);
      PoppedCovered(a, j.value);
      assert Known(b, id);
      EmitCovered(b, x, id, e, true, Some(id));
    }
  }

  lemma ActivatedGood(a: Addon, x: Setting, id: FlowId)
    requires Good(a, x)
    ensures Good(Activated(a, id), x) && Known(Activated(a, id), id)
  {
    hide Ledger, Lookup;
    var j := Lookup(a, id);
    var b := Activated(a, id);
    var n := |a.flows|;
    assert b.flows[n].id == id;
    assert forall k: nat :: k < n ==> b.flows[k] == a.flows[k];
    assert forall f :: Known(a, f) ==> Known(b, f);
    assert forall f :: Known(b, f) ==> Known(a, f) || f == id;
    assert IsActive(b, id) by {
      var i := if j.Some? then j.value else |a.active|;
      assert b.flows[b.active[i]].id == id;
    }
    forall f | IsActive(a, f) && f != id ensures IsActive(b, f) {
      var i: nat :| i < |a.active| && a.flows[a.active[i]].id == f;
      assert b.flows[b.active[i]].id == f;
    }
  }

  /** With no flow left active, an untroubled history and its session_end are a complete log. */
  lemma AllOver(a: Addon, x: Setting)
    requires Good(a, x) && a.active == [] && Live(a.vault.history, a.failed)
    ensures CompleteLog(Written(a.vault.history) + [Record(a.vault.sequence, SessionEnd(false))])
  {
    hide Consistent, Lawful, Exact, CleanEnd;
    var h := a.vault.history;
    var rs := Written(h) + [Record(a.vault.sequence, SessionEnd(false))];
    assert rs[0].event.SessionStart?;
    forall i: nat | i < |rs| && rs[i].event.FlowRecord? ensures HasTerminal(rs, rs[i].event.flow) {
      var id := h[i].value.event.flow;
      assert Known(a, id);
      assert !IsActive(a, id);
      var k: nat :| k < |h| && IsTerminal(h[k], id);
      assert rs[k].event.flow == id && rs[k].event.event.FlowTerminal?;
    }
  }

  lemma ClosingGood(a: Addon, x: Setting)
    requires Good(a, x) && a.active == []
    ensures Good(Closing(a, x).addon, x)
    ensures Closing(a, x).ok ==> Closing(a, x).addon.vault.closed
  {
    hide Append, Consistent, Lawful, Exact, CompleteLog, Written, Writable, CleanEnd, Frame, StartsOnce;
    if Live(a.vault.history, a.failed) {
      AllOver(a, x);
    }
    var disk := x.disk(a.vault.sequence);
    CloseLedger(a.vault, a.failed, x.codec, disk);
    SequenceIs(a.vault, x.codec);
    WriteLands(a.vault, x.codec, SessionEnd(a.failed), disk, true);
    var b := Closing(a, x).addon;
    if Live(b.vault.history, b.failed) {
      assert |b.vault.history| == |a.vault.history|;
      assert b.vault.history == a.vault.history;
    }
  }

  // ---------------------------------------------------------------------------
  // Every callback, every run
  // ---------------------------------------------------------------------------

  lemma FoundKnown(a: Addon, id: FlowId)
    requires Indexed(a) && Lookup(a, id).Some?
    ensures Known(a, id)
  {
    var k := a.active[Lookup(a, id).value];
    assert a.flows[k].id == id;
  }

  lemma NoteGood(a: Addon, x: Setting, id: FlowId, e: FlowEvent, sync: bool)
    requires Good(a, x)
    ensures Good(Note(a, x, id, e, sync).addon, x)
  {
    hide Good, Emit, Lookup;
    GoodIndexed(a, x);
    if Lookup(a, id).Some? {
      FoundKnown(a, id);
      EmitGood(a, x, id, e, sync);
    }
  }

  lemma GoodIndexed(a: Addon, x: Setting)
    requires Good(a, x)
    ensures Indexed(a)
  {
  }

  lemma NoteAndEndGood(a: Addon, x: Setting, id: FlowId, e: FlowEvent, reason: Reason)
    requires Good(a, x)
    ensures Good(NoteAndEnd(a, x, id, e, reason).addon, x)
  {
    hide Good, Emit, Terminal, Lookup;
    GoodIndexed(a, x);
    if Lookup(a, id).Some? {
      FoundKnown(a, id);
      EmitGood(a, x, id, e, true);
      TerminalGood(Emit(a, x, id, e, true).addon, x, id, reason);
    }
  }

  lemma RequestHeadersGood(a: Addon, x: Setting, id: FlowId)
    requires Good(a, x)
    ensures Good(OnRequestHeaders(a, x, id).addon, x)
  {
    hide Good, Emit, Activated;
    GoodIndexed(a, x);
    if !a.failed {
      ActivatedGood(a, x, id);
      EmitGood(Activated(a, id), x, id, FlowEvent.RequestHeaders, true);
    }
  }

  lemma ResponseHeadGood(a: Addon, x: Setting, id: FlowId, upgrade: bool, transformed: bool)
    requires Good(a, x)
    ensures Good(OnResponseHead(a, x, id, upgrade, transformed).addon, x)
  {
    hide Good, Emit, NoteAndEnd, Lookup;
    GoodIndexed(a, x);
    var j := Lookup(a, id);
    if j.Some? {
      FoundKnown(a, id);
      var k := a.active[j.value];
      var f := a.flows[k].(websocket := upgrade);
      RetouchGood(a, x, k, f);
      var b := a.(flows := a.flows[k := f]);
      assert b.flows[k].id == id;
      EmitGood(b, x, id, ResponseHeaders(upgrade), true);
      var o := Emit(b, x, id, ResponseHeaders(upgrade), true);
      if o.ok && !upgrade {
        if transformed {
          NoteAndEndGood(o.addon, x, id, CaptureError, CaptureConflict);
        } else {
          RetouchGood(o.addon, x, k, o.addon.flows[k].(hooked := true));
        }
      }
    }
  }

  lemma ChunkGood(a: Addon, x: Setting, k: nat, length: nat)
    requires Good(a, x)
    ensures Good(OnChunk(a, x, k, length).addon, x)
  {
    hide Good, Emit;
    GoodIndexed(a, x);
    if k < |a.flows| && a.flows[k].hooked {
      var f := a.flows[k].(chunks := a.flows[k].chunks + 1, bytes := a.flows[k].bytes + length);
      RetouchGood(a, x, k, f);
      var b := a.(flows := a.flows[k := f]);
      assert b.flows[k].id == f.id;
      EmitGood(b, x, f.id, ResponseChunk(f.chunks - 1, length), false);
      var o := Emit(b, x, f.id, ResponseChunk(f.chunks - 1, length), false);
      if o.ok && length == 0 {
        var g := f.(eof := true);
        RetouchGood(o.addon, x, k, g);
        var d := o.addon.(flows := o.addon.flows[k := g]);
        assert d.flows[k].id == f.id;
        EmitGood(d, x, f.id, StreamEof(f.chunks, f.bytes), true);
      }
    }
  }

  lemma ResponseEndGood(a: Addon, x: Setting, id: FlowId)
    requires Good(a, x)
    ensures Good(OnResponseEnd(a, x, id).addon, x)
  {
    hide Good, Emit, NoteAndEnd, Lookup;
    GoodIndexed(a, x);
    var j := Lookup(a, id);
    if j.Some? {
      FoundKnown(a, id);
      var f := a.flows[a.active[j.value]];
      EmitGood(a, x, id, ResponseComplete(f.chunks, f.bytes, f.eof), true);
      NoteAndEndGood(a, x, id, ResponseComplete(f.chunks, f.bytes, f.eof), HttpComplete);
    }
  }

  lemma SocketStartGood(a: Addon, x: Setting, id: FlowId)
    requires Good(a, x)
    ensures Good(OnSocketStart(a, x, id).addon, x)
  {
    hide Good, Emit, Lookup;
    GoodIndexed(a, x);
    var j := Lookup(a, id);
    if j.Some? {
      var k := a.active[j.value];
      var f := a.flows[k].(websocket := true);
      RetouchGood(a, x, k, f);
      var b := a.(flows := a.flows[k := f]);
      assert b.flows[k].id == id;
      EmitGood(b, x, id, WebsocketStart, true);
    }
  }

  lemma {:induction false} ClientGoneGood(a: Addon, x: Setting, ids: set<FlowId>, snapshot: seq<nat>)
    requires Good(a, x) && Indexed(a) && Indices(a, snapshot)
    ensures Good(OnClientGone(a, x, ids, snapshot).addon, x)
    decreases |snapshot|
  {
    hide Good, Emit, Terminal, Lookup;
    if snapshot != [] {
      var id := a.flows[snapshot[0]].id;
      if id !in ids {
        ClientGoneGood(a, x, ids, snapshot[1..]);
      } else {
        assert Known(a, id);
        EmitGood(a, x, id, ClientDisconnected, true);
        var o := Emit(a, x, id, ClientDisconnected, true);
        if o.ok {
          TerminalGood(o.addon, x, id, ClientClosedBeforeTerminal);
          var t := Terminal(o.addon, x, id, ClientClosedBeforeTerminal);
          if t.ok {
            ClientGoneGood(t.addon, x, ids, snapshot[1..]);
          }
        }
      }
    }
  }

  lemma {:induction false} ServerGoneGood(a: Addon, x: Setting, ids: set<FlowId>, snapshot: seq<nat>)
    requires Good(a, x) && Indexed(a) && Indices(a, snapshot)
    ensures Good(OnServerGone(a, x, ids, snapshot).addon, x)
    decreases |snapshot|
  {
    hide Good, Emit;
    if snapshot != [] {
      var id := a.flows[snapshot[0]].id;
      if id !in ids {
        ServerGoneGood(a, x, ids, snapshot[1..]);
      } else {
        assert Known(a, id);
        EmitGood(a, x, id, ServerDisconnected, true);
        var o := Emit(a, x, id, ServerDisconnected, true);
        if o.ok {
          ServerGoneGood(o.addon, x, ids, snapshot[1..]);
        }
      }
    }
  }

  /** Ending every active flow leaves none active, unless a record fails. */
  lemma {:induction false} EndAllGood(a: Addon, x: Setting)
    requires Good(a, x) && Indexed(a)
    ensures Good(EndAll(a, x, a.active).addon, x)
    ensures EndAll(a, x, a.active).ok ==> EndAll(a, x, a.active).addon.active == []
    decreases |a.active|
  {
    hide Good, Terminal;
    if a.active != [] {
      var id := a.flows[a.active[0]].id;
      TerminalGood(a, x, id, StoppedBeforeCompletion);
      var t := Terminal(a, x, id, StoppedBeforeCompletion);
      assert Lookup(a, id) == Some(0);
      assert t.addon.active == a.active[1..];
      if t.ok {
        EndAllGood(t.addon, x);
      }
    }
  }

  lemma DoneGood(a: Addon, x: Setting)
    requires Good(a, x)
    ensures Good(OnDone(a, x).addon, x)
    ensures OnDone(a, x).ok ==> OnDone(a, x).addon.vault.closed
  {
    hide Good, EndAll, Closing;
    GoodIndexed(a, x);
    EndAllGood(a, x);
    var o := EndAll(a, x, a.active);
    if o.ok {
      ClosingGood(o.addon, x);
    }
  }

  lemma NextGood(a: Addon, x: Setting, s: Step)
    requires Good(a, x)
    ensures Good(Next(a, x, s).addon, x)
  {
    hide Good, OnRequestHeaders, Note, NoteAndEnd, OnResponseHead, OnChunk, OnResponseEnd, OnSocketStart, OnClientGone, OnServerGone, OnDone;
    GoodIndexed(a, x);
    match s
    case RequestHeaders(id, target) =>
      RequestHeadersGood(a, x, id);
    case RequestBody(id) =>
      NoteGood(a, x, id, RequestComplete, true);
    case ResponseHead(id, upgrade, transformed) =>
      ResponseHeadGood(a, x, id, upgrade, transformed);
    case Chunk(k, length) =>
      ChunkGood(a, x, k, length);
    case ResponseEnd(id) =>
      ResponseEndGood(a, x, id);
    case SocketStart(id) =>
      SocketStartGood(a, x, id);
    case SocketMessage(id) =>
      NoteGood(a, x, id, WebsocketMessage, false);
    case SocketEnd(id) =>
      NoteAndEndGood(a, x, id, WebsocketEnd, WebsocketClosed);
    case ClientGone(ids) =>
      ClientGoneGood(a, x, ids, a.active);
    case ServerGone(ids) =>
      ServerGoneGood(a, x, ids, a.active);
    case FlowError(id) =>
      NoteAndEndGood(a, x, id, HttpError, ErrorOrCancellation);
    case Done =>
      DoneGood(a, x);
  }

  /** The session begins well when its first record lands. */
  lemma StartedGood(x: Setting, name: string)
    requires Lawful(x.codec) && Begin(x.codec, name, x.disk(0)).ok
    ensures Good(Started(Begin(x.codec, name, x.disk(0)).vault), x)
  {
    hide Append, Push;
    var magic := Push(|MAGIC|, x.disk(0).grants);
    var v := Vault(0, false, MAGIC[..magic.landed], [], [], 0);
    var disk := x.disk(0).(grants := magic.rest);
    WriteConsistent(v, x.codec, SessionStart(name), disk, true);
    WriteLands(v, x.codec, SessionStart(name), disk, true);
    var w := Begin(x.codec, name, x.disk(0)).vault;
    var r := Record(0, SessionStart(name));
    assert w.history == [Some(r)];
    assert Written(w.history) == [r];
    assert Written(w.history)[..0] == [];
    assert Layout(x.codec, [r]) == MAGIC + Frame(x.codec, r);
    assert forall k: nat :: CleanEnd(w.history, k) ==> k == 0;
    assert Exact(w, x.codec);
  }

  lemma {:induction false} RunGood(x: Setting, name: string, steps: seq<Step>)
    requires Lawful(x.codec) && Begin(x.codec, name, x.disk(0)).ok
    ensures Good(Run(Started(Begin(x.codec, name, x.disk(0)).vault), x, steps), x)
    decreases |steps|
  {
    hide Good, Begin, Next;
    if steps == [] {
      StartedGood(x, name);
    } else {
      RunGood(x, name, steps[..|steps| - 1]);
      NextGood(Run(Started(Begin(x.codec, name, x.disk(0)).vault), x, steps[..|steps| - 1]), x, steps[|steps| - 1]);
    }
  }

  /** The vault a run of callbacks leaves behind. */
  ghost function Final(x: Setting, name: string, steps: seq<Step>): Vault {
    Run(Started(Begin(x.codec, name, x.disk(0)).vault), x, steps).vault
  }

  /** The bytes of the history through its first session_end, which reports no failure. */
  ghost predicate EndsCleanly(v: Vault, c: Codec, file: Bytes, k: nat) {
    && CleanEnd(v.history, k)
    && (forall r :: r in Written(v.history[..k + 1]) ==> Writable(c, r))
    && file == Layout(c, Written(v.history[..k + 1]))
  }

  lemma PrefixIsWritten(v: Vault, records: seq<Record>)
    requires Prefix(v, records)
    ensures AllSome(v.history[..|records|]) && Written(v.history[..|records|]) == records
  {
  }

  /**
    Over every run of callbacks, every disk behaviour, every header and every file: the file is judged
    complete exactly when it is what was recorded, from session_start through the one session_end that
    reports no failure, with no number burned on the way.
   */
  lemma CompleteExactly(x: Setting, name: string, steps: seq<Step>, e: Envelope, file: Bytes)
    requires Lawful(x.codec) && Begin(x.codec, name, x.disk(0)).ok
    ensures var v := Final(x, name, steps);
            JudgedComplete(ReadRecords(x.codec, e, v.log, file)) <==>
            OwnEnvelope(x.codec, e) && exists k: nat :: EndsCleanly(v, x.codec, file, k)
  {
    hide Begin, Run, ReadRecords, Consistent, Lawful, Exact, Layout, Writable;
    RunGood(x, name, steps);
    var v := Final(x, name, steps);
    VerdictExact(v, x.codec, e, file);
    if records :| CompleteFile(v, x.codec, file, records) {
      PrefixIsWritten(v, records);
      LogEndsCleanly(v, records);
      assert EndsCleanly(v, x.codec, file, |records| - 1);
    }
    if k: nat :| EndsCleanly(v, x.codec, file, k) {
      var records := Written(v.history[..k + 1]);
      assert Prefix(v, records);
      assert CompleteFile(v, x.codec, file, records);
    }
  }

  lemma LogEndsCleanly(v: Vault, records: seq<Record>)
    requires Prefix(v, records) && CompleteLog(records)
    ensures records != [] && CleanEnd(v.history, |records| - 1)
  {
    var k := |records| - 1;
    assert v.history[..k + 1] == v.history[..|records|];
    assert forall i: nat :: i < k ==> v.history[i] == Some(records[i]);
  }

  /**
    A run that ends with `done` and in which no write failed leaves a file that reads back in full and is
    judged complete, whatever the interleaving of callbacks was.
   */
  lemma FaultlessRunComplete(x: Setting, name: string, steps: seq<Step>, e: Envelope)
    requires Lawful(x.codec) && Begin(x.codec, name, x.disk(0)).ok && OwnEnvelope(x.codec, e)
    requires Final(x, name, steps + [Done]).failures == 0
    ensures var v := Final(x, name, steps + [Done]);
            && v.closed && AllSome(v.history)
            && JudgedComplete(ReadRecords(x.codec, e, v.log, v.file))
            && ReadRecords(x.codec, e, v.log, v.file).records == Written(v.history)
  {
    hide Begin, ReadRecords, Consistent, Lawful, Layout, Writable, OnDone;
    var a := Run(Started(Begin(x.codec, name, x.disk(0)).vault), x, steps);
    RunGood(x, name, steps);
    RunGood(x, name, steps + [Done]);
    assert (steps + [Done])[..|steps|] == steps;
    DoneGood(a, x);
    DoneFails(a, x);
    var v := Final(x, name, steps + [Done]);
    var k := |v.history| - 1;
    CleanEndLast(v.history);
    assert v.history[..k + 1] == v.history;
    assert EndsCleanly(v, x.codec, v.file, k);
    CompleteExactly(x, name, steps + [Done], e, v.file);
    assert Prefix(v, Written(v.history));
    ReadsBack(v, x.codec, e, Written(v.history));
  }

  /** A callback that raises has counted a failure. */
  lemma EmitFails(a: Addon, x: Setting, id: FlowId, e: FlowEvent, sync: bool)
    requires Lawful(x.codec) && |a.vault.history| == a.vault.sequence
    ensures var o := Emit(a, x, id, e, sync);
            o.addon.vault.failures == a.vault.failures + (if o.ok then 0 else 1)
  {
    hide Append;
    WriteLands(a.vault, x.codec, FlowRecord(id, e), x.disk(a.vault.sequence), sync);
  }

  lemma {:induction false} EndAllFails(a: Addon, x: Setting)
    requires Good(a, x) && Indexed(a)
    ensures !EndAll(a, x, a.active).ok ==> EndAll(a, x, a.active).addon.vault.failures > 0
    decreases |a.active|
  {
    hide Good, Append, Lookup;
    if a.active != [] {
      var id := a.flows[a.active[0]].id;
      TerminalGood(a, x, id, StoppedBeforeCompletion);
      var t := Terminal(a, x, id, StoppedBeforeCompletion);
      FirstFound(a);
      var f := a.flows[a.active[0]];
      GoodBasics(a, x);
      EmitFails(Popped(a, 0), x, id, FlowTerminal(StoppedBeforeCompletion, f.chunks, f.bytes, f.eof, f.websocket), true);
      assert t.addon.active == a.active[1..];
      if t.ok {
        EndAllFails(t.addon, x);
      }
    }
  }

  lemma FirstFound(a: Addon)
    requires Indexed(a) && a.active != []
    ensures Lookup(a, a.flows[a.active[0]].id) == Some(0)
  {
  }

  lemma GoodBasics(a: Addon, x: Setting)
    requires Good(a, x)
    ensures Lawful(x.codec) && |a.vault.history| == a.vault.sequence && Indexed(a)
  {
  }

  lemma DoneFails(a: Addon, x: Setting)
    requires Good(a, x) && Indexed(a)
    ensures !OnDone(a, x).ok ==> OnDone(a, x).addon.vault.failures > 0
  {
    hide Good, EndAll, Append;
    EndAllFails(a, x);
    EndAllGood(a, x);
    var b := EndAll(a, x, a.active).addon;
    GoodBasics(b, x);
    WriteLands(b.vault, x.codec, SessionEnd(b.failed), x.disk(b.vault.sequence), true);
  }
}
