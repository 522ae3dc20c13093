/**
  The counters of the capture add-on agree with its records: while nothing has failed, activations minus
  terminals is the number of active flows, each flow's chunks are numbered 0, 1, 2, ..., and every recorded
  total is the number and size of the chunks recorded so far.
 */
module CaptureTallies {
  import opened Wrappers
  import opened ByteStrings
  import opened CaptureVaults
  import opened CaptureAddons
  import opened CaptureSessions

  predicate IsChunk(r: Option<Record>, id: FlowId) {
    r.Some? && r.value.event.FlowRecord? && r.value.event.flow == id && r.value.event.event.ResponseChunk?
  }

  function Chunks(h: History, id: FlowId): nat {
    if h == [] then 0 else Chunks(h[..|h| - 1], id) + (if IsChunk(h[|h| - 1], id) then 1 else 0)
  }

  function ChunkBytes(h: History, id: FlowId): nat {
    if h == [] then 0
    else ChunkBytes(h[..|h| - 1], id) + (if IsChunk(h[|h| - 1], id) then h[|h| - 1].value.event.event.length else 0)
  }

  function Activations(h: History): nat {
    if h == [] then 0
    else Activations(h[..|h| - 1])
         + (if h[|h| - 1].Some? && h[|h| - 1].value.event.FlowRecord? && h[|h| - 1].value.event.event.RequestHeaders? then 1 else 0)
  }

  function Terminals(h: History): nat {
    if h == [] then 0
    else Terminals(h[..|h| - 1])
         + (if h[|h| - 1].Some? && h[|h| - 1].value.event.FlowRecord? && h[|h| - 1].value.event.event.FlowTerminal? then 1 else 0)
  }

  /** An event recorded after `h` numbers its chunk next, or gives the totals so far. */
  predicate CountsAfter(h: History, id: FlowId, e: FlowEvent) {
    match e
    case ResponseChunk(index, _) => index == Chunks(h, id)
    case StreamEof(chunks, bytes) => chunks == Chunks(h, id) && bytes == ChunkBytes(h, id)
    case ResponseComplete(chunks, bytes, _) => chunks == Chunks(h, id) && bytes == ChunkBytes(h, id)
    case FlowTerminal(_, chunks, bytes, _, _) => chunks == Chunks(h, id) && bytes == ChunkBytes(h, id)
    case _ => true
  }

  /** Every record of the history counts right. */
  predicate Counted(h: History) {
    h == [] || (Counted(h[..|h| - 1]) &&
    (h[|h| - 1].Some? && h[|h| - 1].value.event.FlowRecord?
     ==> CountsAfter(h[..|h| - 1], h[|h| - 1].value.event.flow, h[|h| - 1].value.event.event)))
  }

  lemma {:induction false} CountedAt(h: History, i: nat)
    requires Counted(h) && i < |h| && h[i].Some? && h[i].value.event.FlowRecord?
    ensures CountsAfter(h[..i], h[i].value.event.flow, h[i].value.event.event)
  {
    if i < |h| - 1 {
      CountedAt(h[..|h| - 1], i);
      assert h[..|h| - 1][..i] == h[..i];
    }
  }

  lemma Grows(h: History, id: FlowId, e: FlowEvent)
    ensures var g := h + [Some(Record(|h|, FlowRecord(id, e)))];
            && (forall f :: Chunks(g, f) == Chunks(h, f) + (if e.ResponseChunk? && f == id then 1 else 0))
            && (forall f :: ChunkBytes(g, f) == ChunkBytes(h, f) + (if e.ResponseChunk? && f == id then e.length else 0))
            && Activations(g) == Activations(h) + (if e.RequestHeaders? then 1 else 0)
            && Terminals(g) == Terminals(h) + (if e.FlowTerminal? then 1 else 0)
            && (Counted(g) <==> Counted(h) && CountsAfter(h, id, e))
  {
    var g := h + [Some(Record(|h|, FlowRecord(id, e)))];
    assert g[..|g| - 1] == h;
  }

  lemma {:induction false} UnknownHasNone(h: History, id: FlowId)
    requires forall i: nat :: i < |h| && h[i].Some? && h[i].value.event.FlowRecord? ==> h[i].value.event.flow != id
    ensures Chunks(h, id) == 0 && ChunkBytes(h, id) == 0
  {
    if h != [] {
      UnknownHasNone(h[..|h| - 1], id);
    }
  }

  /** Each flow id was activated once. */
  ghost predicate Unique(a: Addon) {
    forall i: nat, j: nat :: i < j < |a.flows| ==> a.flows[i].id != a.flows[j].id
  }

  ghost predicate Totals(flows: seq<Flow>, h: History) {
    forall k: nat :: k < |flows| ==> flows[k].chunks == Chunks(h, flows[k].id) && flows[k].bytes == ChunkBytes(h, flows[k].id)
  }

  ghost predicate Balanced(a: Addon, h: History) {
    && Counted(h)
    && Activations(h) == Terminals(h) + |a.active|
    && a.flowsCompleted == Terminals(h)
    && a.eventsWritten == |h| - 1
  }

  /** While nothing has gone wrong, the counters are those of the records. */
  ghost predicate Tallied(a: Addon) {
    Live(a.vault.history, a.failed) ==> Totals(a.flows, a.vault.history) && Balanced(a, a.vault.history)
  }

  ghost predicate Kept(a: Addon, x: Setting) { Good(a, x) && Unique(a) && Tallied(a) }

  /** A record after which nothing has gone wrong was stored, right behind the others. */
  lemma EmitStep(a: Addon, x: Setting, id: FlowId, e: FlowEvent, sync: bool)
    requires Lawful(x.codec) && |a.vault.history| == a.vault.sequence
    ensures var b := Emit(a, x, id, e, sync).addon;
            Live(b.vault.history, b.failed) ==>
              && Live(a.vault.history, a.failed) && Emit(a, x, id, e, sync).ok
              && b.vault.history == a.vault.history + [Some(Record(|a.vault.history|, FlowRecord(id, e)))]
              && b.eventsWritten == a.eventsWritten + 1
  {
    hide Append, Frame, Writable;
    WriteLands(a.vault, x.codec, FlowRecord(id, e), x.disk(a.vault.sequence), sync);
    var b := Emit(a, x, id, e, sync).addon;
    if Live(b.vault.history, b.failed) {
      assert forall i :: 0 <= i < |a.vault.history| ==> a.vault.history[i] == b.vault.history[i];
    }
  }

  /** Recording an event that opens no flow, ends none and carries no chunk. */
  lemma EmitKept(a: Addon, x: Setting, id: FlowId, e: FlowEvent, sync: bool)
    requires Kept(a, x) && Known(a, id)
    requires !e.RequestHeaders? && !e.FlowTerminal? && !e.ResponseChunk?
    requires Live(a.vault.history, a.failed) ==> CountsAfter(a.vault.history, id, e)
    ensures Kept(Emit(a, x, id, e, sync).addon, x)
  {
    hide Good, Emit, Live, Chunks, ChunkBytes, Activations, Terminals, Counted;
    GoodBasics(a, x);
    EmitGood(a, x, id, e, sync);
    EmitStep(a, x, id, e, sync);
    Grows(a.vault.history, id, e);
  }

  lemma RetouchKept(a: Addon, x: Setting, k: nat, f: Flow)
    requires Kept(a, x) && k < |a.flows|
    requires f.id == a.flows[k].id && f.chunks == a.flows[k].chunks && f.bytes == a.flows[k].bytes
    ensures Kept(a.(flows := a.flows[k := f]), x)
  {
    hide Good, Live, Chunks, ChunkBytes;
    RetouchGood(a, x, k, f);
  }

  lemma TerminalKept(a: Addon, x: Setting, id: FlowId, reason: Reason)
    requires Kept(a, x) && Indexed(a)
    ensures Kept(Terminal(a, x, id, reason).addon, x)
  {
    hide Good, Emit, Live, Chunks, ChunkBytes, Activations, Terminals, Counted, Lookup;
    TerminalGood(a, x, id, reason);
    var j := Lookup(a, id);
    if j.Some? {
      var f := a.flows[a.active[j.value]];
      var e := FlowTerminal(reason, f.chunks, f.bytes, f.eof, f.websocket);
      GoodBasics(a, x);
      EmitStep(Popped(a, j.value), x, id, e, true);
      Grows(a.vault.history, id, e);
    }
  }

  lemma RequestHeadersKept(a: Addon, x: Setting, id: FlowId)
    requires Kept(a, x) && Indexed(a) && !Known(a, id)
    ensures Kept(OnRequestHeaders(a, x, id).addon, x)
  {
    hide Good, Emit, Live, Chunks, ChunkBytes, Activations, Terminals, Counted;
    RequestHeadersGood(a, x, id);
    if !a.failed {
      GoodBasics(a, x);
      var b := Activated(a, id);
      NotActive(a, id);
      var h := a.vault.history;
      EmitStep(b, x, id, FlowEvent.RequestHeaders, true);
      Grows(h, id, FlowEvent.RequestHeaders);
      if Live(h, a.failed) {
        NoneRecorded(a, x, id);
        UnknownHasNone(h, id);
      }
      assert forall k: nat :: k < |a.flows| ==> b.flows[k] == a.flows[k];
    }
  }

  lemma NotActive(a: Addon, id: FlowId)
    requires Indexed(a) && !Known(a, id)
    ensures Lookup(a, id).None?
  {
    hide Lookup;
    if Lookup(a, id).Some? {
      FoundKnown(a, id);
    }
  }

  lemma NoneRecorded(a: Addon, x: Setting, id: FlowId)
    requires Good(a, x) && !Known(a, id) && Live(a.vault.history, a.failed)
    ensures forall i: nat :: i < |a.vault.history| && a.vault.history[i].Some? && a.vault.history[i].value.event.FlowRecord?
                             ==> a.vault.history[i].value.event.flow != id
  {
    hide Ledger, Known;
  }

  lemma NoteKept(a: Addon, x: Setting, id: FlowId, e: FlowEvent, sync: bool)
    requires Kept(a, x) && Indexed(a) && !e.RequestHeaders? && !e.FlowTerminal? && !e.ResponseChunk?
    requires Lookup(a, id).Some? && Live(a.vault.history, a.failed) ==> CountsAfter(a.vault.history, id, e)
    ensures Kept(Note(a, x, id, e, sync).addon, x)
  {
    hide Kept, Emit, Lookup, CountsAfter;
    if Lookup(a, id).Some? {
      FoundKnown(a, id);
      EmitKept(a, x, id, e, sync);
    }
  }

  lemma NoteAndEndKept(a: Addon, x: Setting, id: FlowId, e: FlowEvent, reason: Reason)
    requires Kept(a, x) && Indexed(a) && !e.RequestHeaders? && !e.FlowTerminal? && !e.ResponseChunk?
    requires Lookup(a, id).Some? && Live(a.vault.history, a.failed) ==> CountsAfter(a.vault.history, id, e)
    ensures Kept(NoteAndEnd(a, x, id, e, reason).addon, x)
  {
    hide Kept, Emit, Terminal, Lookup, CountsAfter;
    if Lookup(a, id).Some? {
      FoundKnown(a, id);
      EmitKept(a, x, id, e, true);
      TerminalKept(Emit(a, x, id, e, true).addon, x, id, reason);
    }
  }

  lemma ResponseHeadKept(a: Addon, x: Setting, id: FlowId, upgrade: bool, transformed: bool)
    requires Kept(a, x) && Indexed(a)
    ensures Kept(OnResponseHead(a, x, id, upgrade, transformed).addon, x)
  {
    hide Kept, Emit, NoteAndEnd, Lookup;
    var j := Lookup(a, id);
    if j.Some? {
      var k := a.active[j.value];
      var f := a.flows[k].(websocket := upgrade);
      RetouchKept(a, x, k, f);
      var b := a.(flows := a.flows[k := f]);
      assert b.flows[k].id == id;
      EmitKept(b, x, id, ResponseHeaders(upgrade), true);
      var o := Emit(b, x, id, ResponseHeaders(upgrade), true);
      if o.ok && !upgrade {
        if transformed {
          NoteAndEndKept(o.addon, x, id, CaptureError, CaptureConflict);
        } else {
          RetouchKept(o.addon, x, k, o.addon.flows[k].(hooked := true));
        }
      }
    }
  }

  /** A chunk is counted, then recorded under the number before. */
  lemma CountChunkKept(a: Addon, x: Setting, k: nat, length: nat)
    requires Kept(a, x) && Indexed(a) && k < |a.flows|
    ensures var f := a.flows[k].(chunks := a.flows[k].chunks + 1, bytes := a.flows[k].bytes + length);
            Kept(Emit(a.(flows := a.flows[k := f]), x, f.id, ResponseChunk(f.chunks - 1, length), false).addon, x)
  {
    hide Good, Emit, Live, Chunks, ChunkBytes, Activations, Terminals, Counted;
    var f := a.flows[k].(chunks := a.flows[k].chunks + 1, bytes := a.flows[k].bytes + length);
    var e := ResponseChunk(f.chunks - 1, length);
    RetouchGood(a, x, k, f);
    var b := a.(flows := a.flows[k := f]);
    assert b.flows[k].id == f.id;
    EmitGood(b, x, f.id, e, false);
    GoodBasics(a, x);
    EmitStep(b, x, f.id, e, false);
    Grows(a.vault.history, f.id, e);
  }

  lemma ChunkKept(a: Addon, x: Setting, k: nat, length: nat)
    requires Kept(a, x) && Indexed(a)
    ensures Kept(OnChunk(a, x, k, length).addon, x)
  {
    hide Good, Unique, Balanced, Emit, Live, Chunks, ChunkBytes;
    if k < |a.flows| && a.flows[k].hooked {
      CountChunkKept(a, x, k, length);
      var f := a.flows[k].(chunks := a.flows[k].chunks + 1, bytes := a.flows[k].bytes + length);
      var b := Emit(a.(flows := a.flows[k := f]), x, f.id, ResponseChunk(f.chunks - 1, length), false);
      if b.ok && length == 0 {
        var g := f.(eof := true);
        RetouchKept(b.addon, x, k, g);
        var d := b.addon.(flows := b.addon.flows[k := g]);
        assert d.flows[k].id == f.id;
        EmitKept(d, x, f.id, StreamEof(f.chunks, f.bytes), true);
      }
    }
  }

  lemma ResponseEndKept(a: Addon, x: Setting, id: FlowId)
    requires Kept(a, x) && Indexed(a)
    ensures Kept(OnResponseEnd(a, x, id).addon, x)
  {
    hide Good, Unique, Balanced, Emit, NoteAndEnd, Lookup, Live, Chunks, ChunkBytes;
    var j := Lookup(a, id);
    if j.Some? {
      FoundKnown(a, id);
      var f := a.flows[a.active[j.value]];
      EmitKept(a, x, id, ResponseComplete(f.chunks, f.bytes, f.eof), true);
      NoteAndEndKept(a, x, id, ResponseComplete(f.chunks, f.bytes, f.eof), HttpComplete);
    }
  }

  lemma SocketStartKept(a: Addon, x: Setting, id: FlowId)
    requires Kept(a, x) && Indexed(a)
    ensures Kept(OnSocketStart(a, x, id).addon, x)
  {
    hide Kept, Emit, Lookup;
    var j := Lookup(a, id);
    if j.Some? {
      var k := a.active[j.value];
      var f := a.flows[k].(websocket := true);
      RetouchKept(a, x, k, f);
      var b := a.(flows := a.flows[k := f]);
      assert b.flows[k].id == id;
      EmitKept(b, x, id, WebsocketStart, true);
    }
  }

  lemma {:induction false} ClientGoneKept(a: Addon, x: Setting, ids: set<FlowId>, snapshot: seq<nat>)
    requires Kept(a, x) && Indexed(a) && Indices(a, snapshot)
    ensures Kept(OnClientGone(a, x, ids, snapshot).addon, x)
    decreases |snapshot|
  {
    hide Kept, Emit, Terminal;
    if snapshot != [] {
      var id := a.flows[snapshot[0]].id;
      if id !in ids {
        ClientGoneKept(a, x, ids, snapshot[1..]);
      } else {
        assert Known(a, id);
        EmitKept(a, x, id, ClientDisconnected, true);
        var o := Emit(a, x, id, ClientDisconnected, true);
        if o.ok {
          TerminalKept(o.addon, x, id, ClientClosedBeforeTerminal);
          var t := Terminal(o.addon, x, id, ClientClosedBeforeTerminal);
          if t.ok {
            ClientGoneKept(t.addon, x, ids, snapshot[1..]);
          }
        }
      }
    }
  }

  lemma {:induction false} ServerGoneKept(a: Addon, x: Setting, ids: set<FlowId>, snapshot: seq<nat>)
    requires Kept(a, x) && Indexed(a) && Indices(a, snapshot)
    ensures Kept(OnServerGone(a, x, ids, snapshot).addon, x)
    decreases |snapshot|
  {
    hide Kept, Emit;
    if snapshot != [] {
      var id := a.flows[snapshot[0]].id;
      if id !in ids {
        ServerGoneKept(a, x, ids, snapshot[1..]);
      } else {
        assert Known(a, id);
        EmitKept(a, x, id, ServerDisconnected, true);
        var o := Emit(a, x, id, ServerDisconnected, true);
        if o.ok {
          ServerGoneKept(o.addon, x, ids, snapshot[1..]);
        }
      }
    }
  }

  lemma {:induction false} EndAllKept(a: Addon, x: Setting, snapshot: seq<nat>)
    requires Kept(a, x) && Indexed(a) && Indices(a, snapshot)
    ensures Kept(EndAll(a, x, snapshot).addon, x)
    decreases |snapshot|
  {
    hide Kept, Terminal;
    if snapshot != [] {
      var id := a.flows[snapshot[0]].id;
      TerminalKept(a, x, id, StoppedBeforeCompletion);
      var t := Terminal(a, x, id, StoppedBeforeCompletion);
      if t.ok {
        EndAllKept(t.addon, x, snapshot[1..]);
      }
    }
  }

  lemma DoneKept(a: Addon, x: Setting)
    requires Kept(a, x) && Indexed(a)
    ensures Kept(OnDone(a, x).addon, x)
  {
    hide Good, EndAll, Append, Totals, Balanced, Unique, Frame, Writable, CleanEnd;
    DoneGood(a, x);
    EndAllKept(a, x, a.active);
    var b := EndAll(a, x, a.active).addon;
    GoodBasics(b, x);
    WriteLands(b.vault, x.codec, SessionEnd(b.failed), x.disk(b.vault.sequence), true);
    var d := Closing(b, x).addon;
    if Live(d.vault.history, d.failed) {
      assert d.vault.history == b.vault.history;
    }
    UniqueSame(b, d);
    BalancedSame(b, d);
  }

  lemma UniqueSame(a: Addon, b: Addon)
    requires b == a.(vault := b.vault)
    ensures Unique(a) <==> Unique(b)
  {
  }

  lemma BalancedSame(a: Addon, b: Addon)
    requires b == a.(vault := b.vault)
    ensures Balanced(a, a.vault.history) <==> Balanced(b, a.vault.history)
  {
  }

  /** The proxy gives each flow its own id. */
  ghost predicate Fresh(a: Addon, s: Step) { s.RequestHeaders? && s.target ==> !Known(a, s.id) }

  lemma NextKept(a: Addon, x: Setting, s: Step)
    requires Kept(a, x) && Indexed(a) && Fresh(a, s)
    ensures Kept(Next(a, x, s).addon, x)
  {
    hide Kept, OnRequestHeaders, Note, NoteAndEnd, OnResponseHead, OnChunk, OnResponseEnd, OnSocketStart, OnClientGone, OnServerGone, OnDone;
    match s
    case RequestHeaders(id, target) =>
      if target {
        RequestHeadersKept(a, x, id);
      }
    case RequestBody(id) =>
      NoteKept(a, x, id, RequestComplete, true);
    case ResponseHead(id, upgrade, transformed) =>
      ResponseHeadKept(a, x, id, upgrade, transformed);
    case Chunk(k, length) =>
      ChunkKept(a, x, k, length);
    case ResponseEnd(id) =>
      ResponseEndKept(a, x, id);
    case SocketStart(id) =>
      SocketStartKept(a, x, id);
    case SocketMessage(id) =>
      NoteKept(a, x, id, WebsocketMessage, false);
    case SocketEnd(id) =>
      NoteAndEndKept(a, x, id, WebsocketEnd, WebsocketClosed);
    case ClientGone(ids) =>
      ClientGoneKept(a, x, ids, a.active);
    case ServerGone(ids) =>
      ServerGoneKept(a, x, ids, a.active);
    case FlowError(id) =>
      NoteAndEndKept(a, x, id, HttpError, ErrorOrCancellation);
    case Done =>
      DoneKept(a, x);
  }

  /** Each flow id is announced at most once over the run. */
  ghost predicate DistinctFlows(a: Addon, x: Setting, steps: seq<Step>)
    requires Indexed(a)
    decreases |steps|
  {
    steps == [] || (DistinctFlows(a, x, steps[..|steps| - 1]) && Fresh(Run(a, x, steps[..|steps| - 1]), steps[|steps| - 1]))
  }

  /** Over every run with distinct flow ids, the counters are those of the records until something fails. */
  lemma {:induction false} RunTallied(x: Setting, name: string, steps: seq<Step>)
    requires Lawful(x.codec) && Begin(x.codec, name, x.disk(0)).ok
    requires DistinctFlows(Started(Begin(x.codec, name, x.disk(0)).vault), x, steps)
    ensures Kept(Run(Started(Begin(x.codec, name, x.disk(0)).vault), x, steps), x)
    decreases |steps|
  {
    hide Good, Begin, Next, Unique, Tallied, Fresh;
    var a := Started(Begin(x.codec, name, x.disk(0)).vault);
    if steps == [] {
      StartedGood(x, name);
      StartedTallied(x, name);
    } else {
      RunTallied(x, name, steps[..|steps| - 1]);
      NextKept(Run(a, x, steps[..|steps| - 1]), x, steps[|steps| - 1]);
    }
  }

  lemma BeginHistory(x: Setting, name: string)
    requires Lawful(x.codec) && Begin(x.codec, name, x.disk(0)).ok
    ensures Begin(x.codec, name, x.disk(0)).vault.history == [Some(Record(0, SessionStart(name)))]
  {
    hide Append, Push, Frame, Writable;
    var magic := Push(|MAGIC|, x.disk(0).grants);
    var v := Vault(0, false, MAGIC[..magic.landed], [], [], 0);
    WriteLands(v, x.codec, SessionStart(name), x.disk(0).(grants := magic.rest), true);
  }

  lemma StartedTallied(x: Setting, name: string)
    requires Lawful(x.codec) && Begin(x.codec, name, x.disk(0)).ok
    ensures Unique(Started(Begin(x.codec, name, x.disk(0)).vault)) && Tallied(Started(Begin(x.codec, name, x.disk(0)).vault))
  {
    hide Begin;
    BeginHistory(x, name);
    var h := Begin(x.codec, name, x.disk(0)).vault.history;
    assert h[..0] == [];
    assert Activations([]) == 0 && Terminals([]) == 0 && Counted([]);
  }

  /** What the counters mean, read off any state a run reaches before something fails. */
  lemma CountersExact(x: Setting, name: string, steps: seq<Step>, i: nat)
    requires Lawful(x.codec) && Begin(x.codec, name, x.disk(0)).ok
    requires DistinctFlows(Started(Begin(x.codec, name, x.disk(0)).vault), x, steps)
    ensures var a := Run(Started(Begin(x.codec, name, x.disk(0)).vault), x, steps);
            var h := a.vault.history;
            Live(h, a.failed) ==>
              && Activations(h) - Terminals(h) == |a.active|
              && a.flowsCompleted == Terminals(h) && a.eventsWritten == |h| - 1
              && Totals(a.flows, h)
              && (i < |h| && h[i].value.event.FlowRecord? ==> CountsAfter(h[..i], h[i].value.event.flow, h[i].value.event.event))
  {
    hide Good, Begin, Run, Chunks, ChunkBytes, Activations, Terminals, Counted, CountsAfter;
    RunTallied(x, name, steps);
    var a := Run(Started(Begin(x.codec, name, x.disk(0)).vault), x, steps);
    var h := a.vault.history;
    if Live(h, a.failed) && i < |h| && h[i].value.event.FlowRecord? {
      CountedAt(h, i);
    }
  }
}
