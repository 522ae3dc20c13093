/**
  The story of each captured flow.

  What is recorded of one flow is told here from that flow's own callbacks alone, with no active table, no
  other flow and no vault: when it runs, what each callback adds, and which callback ends it for which
  reason. In every run in which nothing fails, the records of each flow are exactly its story.
 */
module CaptureStories {
  import opened Wrappers
  import opened CaptureVaults
  import opened CaptureAddons
  import opened CaptureSessions
  import opened CaptureTallies

  // ---------------------------------------------------------------------------
  // The story of one flow
  // ---------------------------------------------------------------------------

  /** The flow ids in the order in which their request headers came; a chunk names its flow by this order. */
  function Announced(steps: seq<Step>): seq<FlowId> {
    if steps == [] then []
    else
      var s := steps[|steps| - 1];
      Announced(steps[..|steps| - 1]) + (if s.RequestHeaders? && s.target then [s.id] else [])
  }

  ghost predicate Distinct(ids: seq<FlowId>) { forall i, j :: 0 <= i < j < |ids| ==> ids[i] != ids[j] }

  /** Where a flow stands: running or not, taken for a WebSocket, its body streamed, and what came of it. */
  datatype Life = Life(running: bool, socket: bool, streamed: bool, chunks: nat, bytes: nat, eof: bool)

  const Unborn := Life(false, false, false, 0, 0, false)

  /** Why a callback ends flow g while it runs, if it does. */
  function EndOf(s: Step, g: FlowId, socket: bool): Option<Reason> {
    match s
    case ResponseHead(id, upgrade, transformed) => if id == g && !upgrade && transformed then Some(CaptureConflict) else None
    case ResponseEnd(id) => if id == g && !socket then Some(HttpComplete) else None
    case SocketEnd(id) => if id == g then Some(WebsocketClosed) else None
    case ClientGone(ids) => if g in ids then Some(ClientClosedBeforeTerminal) else None
    case FlowError(id) => if id == g then Some(ErrorOrCancellation) else None
    case Done => Some(StoppedBeforeCompletion)
    case _ => None
  }

  /** A chunk of g's streamed body. */
  predicate Feeds(l: Life, ids: seq<FlowId>, s: Step, g: FlowId) {
    s.Chunk? && s.flow < |ids| && ids[s.flow] == g && l.streamed
  }

  predicate Begins(s: Step, g: FlowId) { s.RequestHeaders? && s.target && s.id == g }

  function After(l: Life, ids: seq<FlowId>, s: Step, g: FlowId): Life {
    if Begins(s, g) then Life(true, false, false, 0, 0, false)
    else if Feeds(l, ids, s, g) then l.(chunks := l.chunks + 1, bytes := l.bytes + s.length, eof := l.eof || s.length == 0)
    else if !l.running then l
    else
      var socket :=
        if s.ResponseHead? && s.id == g then s.upgrade
        else if s.SocketStart? && s.id == g then true
        else l.socket;
      var streamed := l.streamed || (s.ResponseHead? && s.id == g && !s.upgrade && !s.transformed);
      l.(running := EndOf(s, g, l.socket).None?, socket := socket, streamed := streamed)
  }

  /** What a callback records of running flow g before it may end it. */
  function Notes(l: Life, s: Step, g: FlowId): seq<FlowEvent> {
    match s
    case RequestBody(id) => if id == g then [RequestComplete] else []
    case ResponseHead(id, upgrade, transformed) =>
      if id != g then [] else if !upgrade && transformed then [ResponseHeaders(upgrade), CaptureError] else [ResponseHeaders(upgrade)]
    case ResponseEnd(id) => if id == g then [ResponseComplete(l.chunks, l.bytes, l.eof)] else []
    case SocketStart(id) => if id == g then [WebsocketStart] else []
    case SocketMessage(id) => if id == g then [WebsocketMessage] else []
    case SocketEnd(id) => if id == g then [WebsocketEnd] else []
    case ClientGone(ids) => if g in ids then [ClientDisconnected] else []
    case ServerGone(ids) => if g in ids then [ServerDisconnected] else []
    case FlowError(id) => if id == g then [HttpError] else []
    case _ => []
  }

  /** The terminal record that goes with a reason, if there is one. */
  function TerminalOf(reason: Option<Reason>, l: Life): seq<FlowEvent> {
    if reason.None? then [] else [FlowTerminal(reason.value, l.chunks, l.bytes, l.eof, l.socket)]
  }

  function Adds(l: Life, ids: seq<FlowId>, s: Step, g: FlowId): seq<FlowEvent> {
    if Begins(s, g) then [FlowEvent.RequestHeaders]
    else if Feeds(l, ids, s, g) then
      if s.length == 0 then [ResponseChunk(l.chunks, 0), StreamEof(l.chunks + 1, l.bytes)] else [ResponseChunk(l.chunks, s.length)]
    else if !l.running then []
    else Notes(l, s, g) + TerminalOf(EndOf(s, g, l.socket), After(l, ids, s, g))
  }

  function LifeOf(steps: seq<Step>, g: FlowId): Life {
    if steps == [] then Unborn
    else
      var before := steps[..|steps| - 1];
      After(LifeOf(before, g), Announced(before), steps[|steps| - 1], g)
  }

  function Story(steps: seq<Step>, g: FlowId): seq<FlowEvent> {
    if steps == [] then []
    else
      var before := steps[..|steps| - 1];
      Story(before, g) + Adds(LifeOf(before, g), Announced(before), steps[|steps| - 1], g)
  }

  // ---------------------------------------------------------------------------
  // The records of one flow
  // ---------------------------------------------------------------------------

  /** The events recorded under one flow id, in order. */
  function Recorded(h: History, g: FlowId): seq<FlowEvent> {
    if h == [] then []
    else
      var r := h[|h| - 1];
      Recorded(h[..|h| - 1], g) +
      (if r.Some? && r.value.event.FlowRecord? && r.value.event.flow == g then [r.value.event.event] else [])
  }

  predicate SameIds(a: Addon, ids: seq<FlowId>) {
    |a.flows| == |ids| && forall k :: 0 <= k < |ids| ==> a.flows[k].id == ids[k]
  }

  function FlowOf(g: FlowId, l: Life): Flow { Flow(g, l.chunks, l.bytes, l.eof, l.socket, l.streamed) }

  ghost predicate Mirrors(a: Addon, g: FlowId, l: Life)
    requires Indexed(a)
  {
    && (forall k: nat :: k < |a.flows| && a.flows[k].id == g ==> a.flows[k] == FlowOf(g, l))
    && (IsActive(a, g) <==> l.running)
    && (!Known(a, g) ==> l == Unborn)
  }

  /** Chunks and WebSocket messages may stay in the system's buffers; every other record has reached the disk. */
  predicate MayWait(r: Record) {
    r.event.FlowRecord? && (r.event.event.ResponseChunk? || r.event.event.WebsocketMessage?)
  }

  predicate Synced(h: History, x: Setting) {
    forall i: nat :: i < |h| && h[i].Some? ==> MayWait(h[i].value) || x.disk(i).syncs
  }

  /** The add-on's state agrees with what is told of flow g so far. */
  ghost predicate Pictured(a: Addon, x: Setting, ids: seq<FlowId>, g: FlowId, l: Life, story: seq<FlowEvent>) {
    && Good(a, x) && SameIds(a, ids) && Distinct(ids)
    && Mirrors(a, g, l) && Recorded(a.vault.history, g) == story && !a.failed && Synced(a.vault.history, x)
  }

  lemma PicturedBasics(a: Addon, x: Setting, ids: seq<FlowId>, g: FlowId, l: Life, story: seq<FlowEvent>)
    requires Pictured(a, x, ids, g, l, story)
    ensures Lawful(x.codec) && |a.vault.history| == a.vault.sequence && Indexed(a) && Good(a, x) && Keyed(a)
    ensures SameIds(a, ids) && Distinct(ids) && Mirrors(a, g, l) && Recorded(a.vault.history, g) == story && !a.failed
    ensures Synced(a.vault.history, x)
  {
  }

  lemma PicturedWhole(a: Addon, x: Setting, ids: seq<FlowId>, g: FlowId, l: Life, story: seq<FlowEvent>)
    requires Indexed(a) && Mirrors(a, g, l) && SameIds(a, ids) && Distinct(ids) && Recorded(a.vault.history, g) == story && !a.failed
    requires Good(a, x) && Synced(a.vault.history, x)
    ensures Pictured(a, x, ids, g, l, story)
  {
  }

  // ---------------------------------------------------------------------------
  // Parts of callbacks
  // ---------------------------------------------------------------------------

  /** A record that is stored with a sync has reached the disk. */
  lemma StoredSynced(v: Vault, c: Codec, e: Event, disk: Disk, sync: bool)
    ensures Append(v, c, e, disk, sync).ok && sync ==> disk.syncs
  {
  }

  lemma SyncedSnoc(h: History, r: Record, x: Setting)
    requires Synced(h, x) && (MayWait(r) || x.disk(|h|).syncs)
    ensures Synced(h + [Some(r)], x)
  {
  }

  lemma RecordedSnoc(h: History, r: Record, g: FlowId)
    ensures Recorded(h + [Some(r)], g) ==
            Recorded(h, g) + (if r.event.FlowRecord? && r.event.flow == g then [r.event.event] else [])
  {
    assert (h + [Some(r)])[..|h|] == h;
  }

  lemma EmitPictured(a: Addon, x: Setting, id: FlowId, e: FlowEvent, sync: bool,
                     ids: seq<FlowId>, g: FlowId, l: Life, story: seq<FlowEvent>)
    requires Pictured(a, x, ids, g, l, story) && Known(a, id) && Emit(a, x, id, e, sync).ok
    requires sync || e.ResponseChunk? || e.WebsocketMessage?
    ensures Pictured(Emit(a, x, id, e, sync).addon, x, ids, g, l, if id == g then story + [e] else story)
  {
    hide Pictured, Good, Append, Frame, Writable, Recorded, Mirrors, Known, Lawful, Synced;
    PicturedBasics(a, x, ids, g, l, story);
    EmitGood(a, x, id, e, sync);
    StoredSynced(a.vault, x.codec, FlowRecord(id, e), x.disk(a.vault.sequence), sync);
    SyncedSnoc(a.vault.history, Record(a.vault.sequence, FlowRecord(id, e)), x);
    WriteLands(a.vault, x.codec, FlowRecord(id, e), x.disk(a.vault.sequence), sync);
    RecordedSnoc(a.vault.history, Record(a.vault.sequence, FlowRecord(id, e)), g);
    var b := Emit(a, x, id, e, sync).addon;
    SameFlowsMirror(a, b, g, l);
    PicturedWhole(b, x, ids, g, l, if id == g then story + [e] else story);
  }

  lemma SameFlowsMirror(a: Addon, b: Addon, g: FlowId, l: Life)
    requires Indexed(a) && Indexed(b) && Mirrors(a, g, l) && b.flows == a.flows && b.active == a.active
    ensures Mirrors(b, g, l)
  {
    assert Known(b, g) <==> Known(a, g);
    SameActive(a, b, g);
  }

  lemma RetouchPictured(a: Addon, x: Setting, k: nat, f: Flow,
                        ids: seq<FlowId>, g: FlowId, l: Life, m: Life, story: seq<FlowEvent>)
    requires Pictured(a, x, ids, g, l, story) && k < |a.flows| && f.id == a.flows[k].id
    requires if f.id == g then f == FlowOf(g, m) && m.running == l.running else m == l
    ensures Pictured(a.(flows := a.flows[k := f]), x, ids, g, m, story)
  {
    hide Pictured, Good, Recorded, Mirrors, Lawful, Keyed;
    PicturedBasics(a, x, ids, g, l, story);
    RetouchGood(a, x, k, f);
    var b := a.(flows := a.flows[k := f]);
    RetouchMirrors(a, k, f, ids, g, l, m);
    PicturedWhole(b, x, ids, g, m, story);
  }

  lemma RetouchMirrors(a: Addon, k: nat, f: Flow, ids: seq<FlowId>, g: FlowId, l: Life, m: Life)
    requires Indexed(a) && SameIds(a, ids) && Distinct(ids) && Mirrors(a, g, l) && k < |a.flows| && f.id == a.flows[k].id
    requires if f.id == g then f == FlowOf(g, m) && m.running == l.running else m == l
    ensures Mirrors(a.(flows := a.flows[k := f]), g, m)
  {
    var b := a.(flows := a.flows[k := f]);
    assert forall i: nat :: i < |a.flows| ==> b.flows[i].id == a.flows[i].id;
    if Known(a, g) {
      var i: nat :| i < |a.flows| && a.flows[i].id == g;
      assert b.flows[i].id == g;
    }
    if f.id == g {
      assert Known(a, g);
      forall i: nat | i < |b.flows| && b.flows[i].id == g ensures i == k {
        assert ids[i] == g && ids[k] == g;
      }
    }
    SameActive(a, b, g);
  }

  lemma SameActive(a: Addon, b: Addon, g: FlowId)
    requires Indexed(a) && Indexed(b) && a.active == b.active && |a.flows| == |b.flows|
    requires forall i: nat :: i < |a.flows| ==> b.flows[i].id == a.flows[i].id
    ensures IsActive(a, g) <==> IsActive(b, g)
  {
    if IsActive(a, g) {
      var i: nat :| i < |a.active| && a.flows[a.active[i]].id == g;
      assert b.flows[b.active[i]].id == g;
    }
    if IsActive(b, g) {
      var i: nat :| i < |b.active| && b.flows[b.active[i]].id == g;
      assert a.flows[a.active[i]].id == g;
    }
  }

  /** The table finds a flow exactly while it runs, and with its state. */
  lemma LookupMirrors(a: Addon, g: FlowId, l: Life)
    requires Indexed(a) && Mirrors(a, g, l)
    ensures Lookup(a, g).Some? <==> l.running
    ensures Lookup(a, g).Some? ==> a.flows[a.active[Lookup(a, g).value]] == FlowOf(g, l)
  {
    hide Lookup;
    var j := Lookup(a, g);
    if j.Some? {
      assert a.flows[a.active[j.value]].id == g;
    }
  }

  /** Taking a flow out of the table. */
  lemma PoppedMirrors(a: Addon, j: nat, g: FlowId, l: Life)
    requires Indexed(a) && Keyed(a) && j < |a.active| && Mirrors(a, g, l)
    ensures Mirrors(Popped(a, j), g, if a.flows[a.active[j]].id == g then l.(running := false) else l)
  {
    var b := Popped(a, j);
    assert forall i: nat :: i < |b.active| ==> b.active[i] == a.active[if i < j then i else i + 1];
    if IsActive(a, g) && a.flows[a.active[j]].id != g {
      var i: nat :| i < |a.active| && a.flows[a.active[i]].id == g;
      assert b.active[if i < j then i else i - 1] == a.active[i];
    }
    assert Known(b, g) <==> Known(a, g);
    if a.flows[a.active[j]].id == g {
      assert Known(a, g);
    }
  }

  lemma TerminalPictured(a: Addon, x: Setting, id: FlowId, reason: Reason,
                         ids: seq<FlowId>, g: FlowId, l: Life, story: seq<FlowEvent>)
    requires Pictured(a, x, ids, g, l, story) && Indexed(a) && Terminal(a, x, id, reason).ok
    ensures Pictured(Terminal(a, x, id, reason).addon, x, ids, g,
                     if id == g then l.(running := false) else l,
                     if id == g && l.running then story + [FlowTerminal(reason, l.chunks, l.bytes, l.eof, l.socket)] else story)
  {
    hide Pictured, Good, Append, Frame, Writable, Recorded, Lookup, Mirrors, Known, Keyed, Lawful, Synced;
    PicturedBasics(a, x, ids, g, l, story);
    TerminalGood(a, x, id, reason);
    LookupMirrors(a, g, l);
    var j := Lookup(a, id);
    var c := Terminal(a, x, id, reason).addon;
    var m := if id == g then l.(running := false) else l;
    var told := if id == g && l.running then story + [FlowTerminal(reason, l.chunks, l.bytes, l.eof, l.socket)] else story;
    if j.Some? {
      var f := a.flows[a.active[j.value]];
      var e := FlowTerminal(reason, f.chunks, f.bytes, f.eof, f.websocket);
      var b := Popped(a, j.value);
      PoppedMirrors(a, j.value, g, l);
      StoredSynced(b.vault, x.codec, FlowRecord(id, e), x.disk(b.vault.sequence), true);
      SyncedSnoc(b.vault.history, Record(b.vault.sequence, FlowRecord(id, e)), x);
      WriteLands(b.vault, x.codec, FlowRecord(id, e), x.disk(b.vault.sequence), true);
      RecordedSnoc(b.vault.history, Record(b.vault.sequence, FlowRecord(id, e)), g);
      EmittedMirrors(b, x, id, e, g, m);
    } else {
      assert m == l;
    }
    PicturedWhole(c, x, ids, g, m, told);
  }

  lemma EmittedMirrors(a: Addon, x: Setting, id: FlowId, e: FlowEvent, g: FlowId, l: Life)
    requires Indexed(a) && Mirrors(a, g, l)
    ensures Indexed(Emit(a, x, id, e, true).addon) && Mirrors(Emit(a, x, id, e, true).addon, g, l)
  {
    hide Emit;
    var b := Emit(a, x, id, e, true).addon;
    assert b.flows == a.flows && b.active == a.active;
    assert Known(b, g) <==> Known(a, g);
    SameActive(a, b, g);
  }

  /** Only flow g's own callbacks matter for it: one that records `e` of flow `id`, if that runs. */
  lemma NotePictured(a: Addon, x: Setting, id: FlowId, e: FlowEvent, sync: bool,
                     ids: seq<FlowId>, g: FlowId, l: Life, story: seq<FlowEvent>)
    requires Pictured(a, x, ids, g, l, story) && Indexed(a) && Note(a, x, id, e, sync).ok
    requires sync || e.WebsocketMessage?
    ensures Pictured(Note(a, x, id, e, sync).addon, x, ids, g, l, if id == g && l.running then story + [e] else story)
  {
    hide Pictured, Good, Emit, Lookup, Mirrors, Known, Keyed, Distinct, SameIds, Lawful, Recorded;
    PicturedBasics(a, x, ids, g, l, story);
    LookupMirrors(a, g, l);
    if Lookup(a, id).Some? {
      FoundKnown(a, id);
      EmitPictured(a, x, id, e, sync, ids, g, l, story);
    }
  }

  lemma NoteAndEndPictured(a: Addon, x: Setting, id: FlowId, e: FlowEvent, reason: Reason,
                           ids: seq<FlowId>, g: FlowId, l: Life, story: seq<FlowEvent>)
    requires Pictured(a, x, ids, g, l, story) && Indexed(a) && NoteAndEnd(a, x, id, e, reason).ok
    ensures Pictured(NoteAndEnd(a, x, id, e, reason).addon, x, ids, g,
                     if id == g then l.(running := false) else l,
                     if id == g && l.running then story + [e, FlowTerminal(reason, l.chunks, l.bytes, l.eof, l.socket)] else story)
  {
    hide Pictured, Good, Emit, Terminal, Lookup, Mirrors, Known, Keyed, Distinct, SameIds, Lawful, Recorded;
    PicturedBasics(a, x, ids, g, l, story);
    LookupMirrors(a, g, l);
    if Lookup(a, id).Some? {
      FoundKnown(a, id);
      EmitPictured(a, x, id, e, true, ids, g, l, story);
      var noted := if id == g then story + [e] else story;
      TerminalPictured(Emit(a, x, id, e, true).addon, x, id, reason, ids, g, l, noted);
      assert story + [e] + [FlowTerminal(reason, l.chunks, l.bytes, l.eof, l.socket)]
          == story + [e, FlowTerminal(reason, l.chunks, l.bytes, l.eof, l.socket)];
    } else if id == g {
      assert l.(running := false) == l;
    }
  }

  // ---------------------------------------------------------------------------
  // The callbacks
  // ---------------------------------------------------------------------------

  /** The callback told flow g's story on. */
  ghost predicate Continues(o: Outcome, x: Setting, s: Step, ids: seq<FlowId>, g: FlowId, l: Life, story: seq<FlowEvent>) {
    Pictured(o.addon, x, ids, g, After(l, ids, s, g), story + Adds(l, ids, s, g))
  }

  lemma AnnouncePictured(a: Addon, x: Setting, id: FlowId, ids: seq<FlowId>, g: FlowId, l: Life, story: seq<FlowEvent>)
    requires Pictured(a, x, ids, g, l, story) && Indexed(a) && Distinct(ids + [id]) && OnRequestHeaders(a, x, id).ok
    ensures Pictured(OnRequestHeaders(a, x, id).addon, x, ids + [id], g,
                     if id == g then Life(true, false, false, 0, 0, false) else l,
                     if id == g then story + [FlowEvent.RequestHeaders] else story)
  {
    var m := if id == g then Life(true, false, false, 0, 0, false) else l;
    PicturedBasics(a, x, ids, g, l, story);
    ActivatedGood(a, x, id);
    ActivatedMirrors(a, id, ids, g, l);
    hide Good, Emit, Recorded, Mirrors, Activated, Distinct, Keyed;
    ActivatedKeeps(a, id, ids);
    EmitPictured(Activated(a, id), x, id, FlowEvent.RequestHeaders, true, ids + [id], g, m, story);
  }

  lemma ActivatedKeeps(a: Addon, id: FlowId, ids: seq<FlowId>)
    requires Indexed(a) && SameIds(a, ids)
    ensures var b := Activated(a, id); b.vault == a.vault && b.failed == a.failed && SameIds(b, ids + [id])
  {
    hide Lookup;
  }

  lemma NewId(a: Addon, id: FlowId, ids: seq<FlowId>)
    requires SameIds(a, ids) && Distinct(ids + [id])
    ensures forall k: nat :: k < |a.flows| ==> a.flows[k].id != id
  {
    assert (ids + [id])[|ids|] == id;
    assert forall k: nat :: k < |a.flows| ==> a.flows[k].id == (ids + [id])[k];
  }

  lemma ActivatedMirrors(a: Addon, id: FlowId, ids: seq<FlowId>, g: FlowId, l: Life)
    requires Indexed(a) && SameIds(a, ids) && Distinct(ids + [id]) && Mirrors(a, g, l)
    ensures Mirrors(Activated(a, id), g, if id == g then Life(true, false, false, 0, 0, false) else l)
  {
    hide Lookup, Distinct, SameIds;
    var b := Activated(a, id);
    assert forall k: nat :: k < |a.flows| ==> a.flows[k].id != id by { NewId(a, id, ids); }
    assert Lookup(a, id).None?;
    assert b.active == a.active + [|a.flows|] && b.flows[|a.flows|].id == id;
    assert forall k: nat :: k < |a.flows| ==> b.flows[k] == a.flows[k];
    if id == g {
      assert b.flows[b.active[|a.active|]].id == id;
    } else {
      hide Activated;
      GrownMirrors(a, b, g, l);
    }
  }

  /** The table grew by a flow other than g. */
  lemma GrownMirrors(a: Addon, b: Addon, g: FlowId, l: Life)
    requires Indexed(a) && Indexed(b) && Mirrors(a, g, l)
    requires |b.flows| == |a.flows| + 1 && b.flows[|a.flows|].id != g && b.active == a.active + [|a.flows|]
    requires forall k: nat :: k < |a.flows| ==> b.flows[k] == a.flows[k]
    ensures Mirrors(b, g, l)
  {
    if IsActive(a, g) {
      var i: nat :| i < |a.active| && a.flows[a.active[i]].id == g;
      assert b.flows[b.active[i]].id == g;
    }
    if IsActive(b, g) {
      var i: nat :| i < |b.active| && b.flows[b.active[i]].id == g;
      assert a.flows[a.active[i]].id == g;
    }
    if Known(a, g) {
      var k: nat :| k < |a.flows| && a.flows[k].id == g;
      assert b.flows[k].id == g;
    }
  }

  lemma HeadPictured(a: Addon, x: Setting, s: Step, ids: seq<FlowId>, g: FlowId, l: Life, story: seq<FlowEvent>)
    requires Pictured(a, x, ids, g, l, story) && Indexed(a) && s.ResponseHead?
    requires OnResponseHead(a, x, s.id, s.upgrade, s.transformed).ok
    ensures Continues(OnResponseHead(a, x, s.id, s.upgrade, s.transformed), x, s, ids, g, l, story)
  {
    hide Pictured, Good, Emit, NoteAndEnd, Lookup, Mirrors, Known, Keyed, Distinct, SameIds, Lawful, Recorded;
    PicturedBasics(a, x, ids, g, l, story);
    LookupMirrors(a, g, l);
    var j := Lookup(a, s.id);
    if j.None? {
      assert After(l, ids, s, g) == l && story + Adds(l, ids, s, g) == story;
    } else {
      var k := a.active[j.value];
      var f := a.flows[k].(websocket := s.upgrade);
      var m := if s.id == g then l.(socket := s.upgrade) else l;
      RetouchPictured(a, x, k, f, ids, g, l, m, story);
      var b := a.(flows := a.flows[k := f]);
      assert b.flows[k].id == s.id;
      var o := Emit(b, x, s.id, ResponseHeaders(s.upgrade), true);
      EmitSameFlows(b, x, s.id, ResponseHeaders(s.upgrade), true);
      hide Continues, Indexed;
      HeadedPictured(x, s, b, k, o, OnResponseHead(a, x, s.id, s.upgrade, s.transformed), ids, g, l, m, story);
    }
  }

  /** Behind the recorded response headers. */
  lemma HeadedPictured(x: Setting, s: Step, b: Addon, k: nat, o: Outcome, r: Outcome,
                       ids: seq<FlowId>, g: FlowId, l: Life, m: Life, story: seq<FlowEvent>)
    requires Pictured(b, x, ids, g, m, story) && s.ResponseHead? && k < |b.flows| && b.flows[k].id == s.id
    requires (s.id == g ==> l.running) && m == (if s.id == g then l.(socket := s.upgrade) else l)
    requires o == Emit(b, x, s.id, ResponseHeaders(s.upgrade), true) && o.ok && Indexed(o.addon) && o.addon.flows == b.flows
    requires r == if s.upgrade then o
                  else if s.transformed then NoteAndEnd(o.addon, x, s.id, CaptureError, CaptureConflict)
                  else Outcome(o.addon.(flows := b.flows[k := b.flows[k].(hooked := true)]), true)
    requires r.ok
    ensures Continues(r, x, s, ids, g, l, story)
  {
    hide Pictured, Known, Emit, NoteAndEnd, After, Adds;
    var noted := if s.id == g then story + [ResponseHeaders(s.upgrade)] else story;
    KnownAt(b, k);
    EmitPictured(b, x, s.id, ResponseHeaders(s.upgrade), true, ids, g, m, story);
    HeadTold(l, m, ids, s, g);
    if s.upgrade {
      assert story + Adds(l, ids, s, g) == noted;
    } else if s.transformed {
      NoteAndEndPictured(o.addon, x, s.id, CaptureError, CaptureConflict, ids, g, m, noted);
      if s.id == g {
        assert noted + [CaptureError, FlowTerminal(CaptureConflict, m.chunks, m.bytes, m.eof, m.socket)] == story + Adds(l, ids, s, g);
      } else {
        assert noted == story + Adds(l, ids, s, g);
      }
    } else {
      var n := if s.id == g then m.(streamed := true) else m;
      if s.id == g {
        HookedFlow(o.addon, x, k, ids, g, m, noted);
      }
      RetouchPictured(o.addon, x, k, b.flows[k].(hooked := true), ids, g, m, n, noted);
      assert story + Adds(l, ids, s, g) == noted;
    }
  }

  lemma EmitSameFlows(a: Addon, x: Setting, id: FlowId, e: FlowEvent, sync: bool)
    ensures Emit(a, x, id, e, sync).addon.flows == a.flows
  {
    hide Append;
  }

  lemma HookedFlow(a: Addon, x: Setting, k: nat, ids: seq<FlowId>, g: FlowId, l: Life, story: seq<FlowEvent>)
    requires Pictured(a, x, ids, g, l, story) && k < |a.flows| && a.flows[k].id == g
    ensures a.flows[k] == FlowOf(g, l)
  {
    PicturedBasics(a, x, ids, g, l, story);
    hide Pictured;
  }

  /** What response headers tell of g. */
  lemma HeadTold(l: Life, m: Life, ids: seq<FlowId>, s: Step, g: FlowId)
    requires s.ResponseHead? && (s.id == g ==> l.running) && m == (if s.id == g then l.(socket := s.upgrade) else l)
    ensures s.id != g ==> After(l, ids, s, g) == l && Adds(l, ids, s, g) == []
    ensures s.id == g && s.upgrade ==> After(l, ids, s, g) == m && Adds(l, ids, s, g) == [ResponseHeaders(true)]
    ensures s.id == g && !s.upgrade && s.transformed ==>
      && After(l, ids, s, g) == m.(running := false)
      && Adds(l, ids, s, g) ==
           [ResponseHeaders(false), CaptureError, FlowTerminal(CaptureConflict, m.chunks, m.bytes, m.eof, m.socket)]
    ensures s.id == g && !s.upgrade && !s.transformed ==>
      After(l, ids, s, g) == m.(streamed := true) && Adds(l, ids, s, g) == [ResponseHeaders(false)]
  {
  }

  lemma ChunkPictured(a: Addon, x: Setting, k: nat, length: nat, ids: seq<FlowId>, g: FlowId, l: Life, story: seq<FlowEvent>)
    requires Indexed(a) && OnChunk(a, x, k, length).ok
    requires Pictured(a, x, ids, g, l, story)
    ensures Continues(OnChunk(a, x, k, length), x, Step.Chunk(k, length), ids, g, l, story)
  {
    hide Pictured, Emit, Feeds, After, Adds, Indexed;
    var s := Step.Chunk(k, length);
    FeedsExactly(a, x, s, ids, g, l, story);
    if k >= |a.flows| || !a.flows[k].hooked {
      OtherChunk(l, ids, s, g);
      assert story + Adds(l, ids, s, g) == story;
    } else {
      hide Continues;
      FedPictured(a, x, k, length, a.flows[k], OnChunk(a, x, k, length), ids, g, l, story);
    }
  }

  /** The chunk is recorded for g exactly if it feeds g. */
  lemma FeedsExactly(a: Addon, x: Setting, s: Step, ids: seq<FlowId>, g: FlowId, l: Life, story: seq<FlowEvent>)
    requires Pictured(a, x, ids, g, l, story) && s.Chunk?
    ensures Feeds(l, ids, s, g) <==> s.flow < |a.flows| && a.flows[s.flow].hooked && a.flows[s.flow].id == g
    ensures s.flow < |a.flows| && a.flows[s.flow].id == g ==> a.flows[s.flow] == FlowOf(g, l)
  {
    PicturedBasics(a, x, ids, g, l, story);
    hide Pictured, Good, Distinct;
  }

  /** A chunk of a streamed body, of g or of another flow. */
  lemma FedPictured(a: Addon, x: Setting, k: nat, length: nat, h: Flow, r: Outcome,
                    ids: seq<FlowId>, g: FlowId, l: Life, story: seq<FlowEvent>)
    requires Indexed(a) && k < |a.flows| && a.flows[k] == h && h.hooked && r == OnChunk(a, x, k, length) && r.ok
    requires Feeds(l, ids, Step.Chunk(k, length), g) <==> h.id == g
    requires h.id == g ==> h == FlowOf(g, l)
    requires Pictured(a, x, ids, g, l, story)
    ensures Continues(r, x, Step.Chunk(k, length), ids, g, l, story)
  {
    hide Pictured, Known, Emit, After, Adds, Feeds, Indexed;
    var f := h.(chunks := h.chunks + 1, bytes := h.bytes + length);
    var m := if h.id == g then l.(chunks := l.chunks + 1, bytes := l.bytes + length) else l;
    var e := ResponseChunk(h.chunks, length);
    var noted := if h.id == g then story + [e] else story;
    var b := a.(flows := a.flows[k := f]);
    var o := Emit(b, x, h.id, e, false);
    assert r == if length > 0 then o
                else Emit(o.addon.(flows := o.addon.flows[k := f.(eof := true)]), x, h.id, StreamEof(f.chunks, f.bytes), true);
    hide OnChunk;
    RetouchPictured(a, x, k, f, ids, g, l, m, story);
    KnownAt(b, k);
    EmitPictured(b, x, h.id, e, false, ids, g, m, story);
    if length == 0 {
      EmitSameFlows(b, x, h.id, e, false);
      EndedPictured(x, o.addon, f, k, r, ids, g, m, noted);
    }
    ChunkTold(l, ids, k, length, h, g, story, noted);
  }

  /** What a chunk tells of g. */
  lemma ChunkTold(l: Life, ids: seq<FlowId>, k: nat, length: nat, h: Flow, g: FlowId, story: seq<FlowEvent>, noted: seq<FlowEvent>)
    requires Feeds(l, ids, Step.Chunk(k, length), g) <==> h.id == g
    requires h.id == g ==> h == FlowOf(g, l)
    requires noted == if h.id == g then story + [ResponseChunk(h.chunks, length)] else story
    ensures var m := if h.id == g then l.(chunks := l.chunks + 1, bytes := l.bytes + length) else l;
      After(l, ids, Step.Chunk(k, length), g) == (if h.id == g && length == 0 then m.(eof := true) else m)
    ensures story + Adds(l, ids, Step.Chunk(k, length), g) ==
            (if h.id == g && length == 0 then noted + [StreamEof(h.chunks + 1, h.bytes)] else noted)
  {
    if h.id == g {
      OwnChunk(l, ids, Step.Chunk(k, length), g);
    } else {
      OtherChunk(l, ids, Step.Chunk(k, length), g);
    }
    hide Feeds, After, Adds;
  }

  /** An empty chunk ends the body. */
  lemma EndedPictured(x: Setting, a: Addon, f: Flow, k: nat, r: Outcome,
                      ids: seq<FlowId>, g: FlowId, l: Life, story: seq<FlowEvent>)
    requires k < |a.flows| && a.flows[k] == f && (f.id == g ==> f == FlowOf(g, l))
    requires r == Emit(a.(flows := a.flows[k := f.(eof := true)]), x, f.id, StreamEof(f.chunks, f.bytes), true) && r.ok
    requires Pictured(a, x, ids, g, l, story)
    ensures Pictured(r.addon, x, ids, g, if f.id == g then l.(eof := true) else l,
                     if f.id == g then story + [StreamEof(f.chunks, f.bytes)] else story)
  {
    hide Pictured, Known, Emit;
    var d := a.(flows := a.flows[k := f.(eof := true)]);
    var m := if f.id == g then l.(eof := true) else l;
    RetouchPictured(a, x, k, f.(eof := true), ids, g, l, m, story);
    KnownAt(d, k);
    EmitPictured(d, x, f.id, StreamEof(f.chunks, f.bytes), true, ids, g, m, story);
  }

  lemma KnownAt(a: Addon, k: nat)
    requires k < |a.flows|
    ensures Known(a, a.flows[k].id)
  {
  }

  lemma OwnChunk(l: Life, ids: seq<FlowId>, s: Step, g: FlowId)
    requires s.Chunk? && Feeds(l, ids, s, g)
    ensures After(l, ids, s, g) ==
      l.(chunks := l.chunks + 1, bytes := l.bytes + s.length, eof := l.eof || s.length == 0)
    ensures Adds(l, ids, s, g) ==
      [ResponseChunk(l.chunks, s.length)] + (if s.length == 0 then [StreamEof(l.chunks + 1, l.bytes)] else [])
  {
  }

  /** A chunk of another flow tells nothing of g. */
  lemma OtherChunk(l: Life, ids: seq<FlowId>, s: Step, g: FlowId)
    requires s.Chunk? && !Feeds(l, ids, s, g)
    ensures After(l, ids, s, g) == l && Adds(l, ids, s, g) == []
  {
  }

  lemma ResponsePictured(a: Addon, x: Setting, id: FlowId, ids: seq<FlowId>, g: FlowId, l: Life, story: seq<FlowEvent>)
    requires Indexed(a) && OnResponseEnd(a, x, id).ok
    requires Pictured(a, x, ids, g, l, story)
    ensures Continues(OnResponseEnd(a, x, id), x, Step.ResponseEnd(id), ids, g, l, story)
  {
    hide Pictured, Good, Emit, NoteAndEnd, Lookup, Mirrors, Known, Keyed, Distinct, SameIds, Lawful, Recorded;
    PicturedBasics(a, x, ids, g, l, story);
    LookupMirrors(a, g, l);
    var s := Step.ResponseEnd(id);
    var j := Lookup(a, id);
    ResponseTold(l, ids, id, g);
    if j.None? {
      assert story + Adds(l, ids, s, g) == story;
    } else {
      FoundKnown(a, id);
      var f := a.flows[a.active[j.value]];
      var e := ResponseComplete(f.chunks, f.bytes, f.eof);
      if f.websocket {
        EmitPictured(a, x, id, e, true, ids, g, l, story);
      } else {
        NoteAndEndPictured(a, x, id, e, HttpComplete, ids, g, l, story);
      }
      hide After, Adds;
      assert story + [] == story;
    }
  }

  lemma ResponseTold(l: Life, ids: seq<FlowId>, id: FlowId, g: FlowId)
    ensures var s := Step.ResponseEnd(id);
      var e := ResponseComplete(l.chunks, l.bytes, l.eof);
      && After(l, ids, s, g) == (if id == g && !l.socket then l.(running := false) else l)
      && Adds(l, ids, s, g) ==
           if id != g || !l.running then []
           else if l.socket then [e] else [e, FlowTerminal(HttpComplete, l.chunks, l.bytes, l.eof, l.socket)]
  {
  }

  lemma SocketPictured(a: Addon, x: Setting, id: FlowId, ids: seq<FlowId>, g: FlowId, l: Life, story: seq<FlowEvent>)
    requires Indexed(a) && OnSocketStart(a, x, id).ok
    requires Pictured(a, x, ids, g, l, story)
    ensures Continues(OnSocketStart(a, x, id), x, Step.SocketStart(id), ids, g, l, story)
  {
    hide Pictured, Good, Emit, Lookup, Mirrors, Known, Keyed, Distinct, SameIds, Lawful, Recorded;
    PicturedBasics(a, x, ids, g, l, story);
    LookupMirrors(a, g, l);
    var s := Step.SocketStart(id);
    var j := Lookup(a, id);
    if j.None? {
      assert story + Adds(l, ids, s, g) == story;
    } else {
      var k := a.active[j.value];
      var f := a.flows[k].(websocket := true);
      var m := if id == g then l.(socket := true) else l;
      RetouchPictured(a, x, k, f, ids, g, l, m, story);
      var b := a.(flows := a.flows[k := f]);
      KnownAt(b, k);
      EmitPictured(b, x, id, WebsocketStart, true, ids, g, m, story);
      assert story + Adds(l, ids, s, g) == if id == g then story + [WebsocketStart] else story;
    }
  }

  // ---------------------------------------------------------------------------
  // Connections and the stop
  // ---------------------------------------------------------------------------

  /** A snapshot of the active table, or what is left of it: no flow twice. */
  ghost predicate Snapshot(a: Addon, snapshot: seq<nat>) {
    && Indices(a, snapshot)
    && forall i, j :: 0 <= i < j < |snapshot| ==> a.flows[snapshot[i]].id != a.flows[snapshot[j]].id
  }

  ghost predicate InSnapshot(a: Addon, snapshot: seq<nat>, g: FlowId)
    requires Indices(a, snapshot)
  {
    exists i :: 0 <= i < |snapshot| && a.flows[snapshot[i]].id == g
  }

  lemma SnapshotRest(a: Addon, b: Addon, snapshot: seq<nat>, g: FlowId)
    requires Snapshot(a, snapshot) && snapshot != [] && b.flows == a.flows
    ensures Snapshot(b, snapshot[1..])
    ensures InSnapshot(a, snapshot, g) <==> a.flows[snapshot[0]].id == g || InSnapshot(b, snapshot[1..], g)
    ensures a.flows[snapshot[0]].id == g ==> !InSnapshot(b, snapshot[1..], g)
  {
    if InSnapshot(b, snapshot[1..], g) {
      var i :| 0 <= i < |snapshot| - 1 && b.flows[snapshot[1..][i]].id == g;
      assert a.flows[snapshot[i + 1]].id == g;
    }
    if InSnapshot(a, snapshot, g) && a.flows[snapshot[0]].id != g {
      var i :| 0 <= i < |snapshot| && a.flows[snapshot[i]].id == g;
      assert b.flows[snapshot[1..][i - 1]].id == g;
    }
  }

  lemma ActiveSnapshot(a: Addon, g: FlowId)
    requires Indexed(a) && Keyed(a)
    ensures Snapshot(a, a.active) && (InSnapshot(a, a.active, g) <==> IsActive(a, g))
  {
  }

  lemma {:induction false} ClientGonePictured(a: Addon, x: Setting, gone: set<FlowId>, snapshot: seq<nat>,
                                              ids: seq<FlowId>, g: FlowId, l: Life, story: seq<FlowEvent>)
    requires Indexed(a) && Snapshot(a, snapshot) && OnClientGone(a, x, gone, snapshot).ok
    requires InSnapshot(a, snapshot, g) ==> l.running
    requires Pictured(a, x, ids, g, l, story)
    ensures Pictured(OnClientGone(a, x, gone, snapshot).addon, x, ids, g,
                     if InSnapshot(a, snapshot, g) && g in gone then l.(running := false) else l,
                     if InSnapshot(a, snapshot, g) && g in gone
                     then story + [ClientDisconnected, FlowTerminal(ClientClosedBeforeTerminal, l.chunks, l.bytes, l.eof, l.socket)]
                     else story)
    decreases |snapshot|
  {
    hide Pictured, Emit, Terminal, InSnapshot, Known;
    if snapshot == [] {
      assert !InSnapshot(a, snapshot, g) by { EmptySnapshot(a, g); }
    } else {
      var id := a.flows[snapshot[0]].id;
      if id !in gone {
        SnapshotRest(a, a, snapshot, g);
        ClientGonePictured(a, x, gone, snapshot[1..], ids, g, l, story);
      } else {
        KnownAt(a, snapshot[0]);
        var o := Emit(a, x, id, ClientDisconnected, true);
        EmitPictured(a, x, id, ClientDisconnected, true, ids, g, l, story);
        var noted := if id == g then story + [ClientDisconnected] else story;
        var t := Terminal(o.addon, x, id, ClientClosedBeforeTerminal);
        TerminalPictured(o.addon, x, id, ClientClosedBeforeTerminal, ids, g, l, noted);
        SnapshotRest(a, t.addon, snapshot, g);
        var m := if id == g then l.(running := false) else l;
        var told := if id == g && l.running
                    then noted + [FlowTerminal(ClientClosedBeforeTerminal, l.chunks, l.bytes, l.eof, l.socket)] else noted;
        ClientGonePictured(t.addon, x, gone, snapshot[1..], ids, g, m, told);
        assert id == g ==>
          told == story + [ClientDisconnected, FlowTerminal(ClientClosedBeforeTerminal, l.chunks, l.bytes, l.eof, l.socket)];
      }
    }
  }

  lemma EmptySnapshot(a: Addon, g: FlowId)
    ensures Indices(a, []) && !InSnapshot(a, [], g)
  {
  }

  lemma {:induction false} ServerGonePictured(a: Addon, x: Setting, gone: set<FlowId>, snapshot: seq<nat>,
                                              ids: seq<FlowId>, g: FlowId, l: Life, story: seq<FlowEvent>)
    requires Indexed(a) && Snapshot(a, snapshot) && OnServerGone(a, x, gone, snapshot).ok
    requires Pictured(a, x, ids, g, l, story)
    ensures Pictured(OnServerGone(a, x, gone, snapshot).addon, x, ids, g, l,
                     if InSnapshot(a, snapshot, g) && g in gone then story + [ServerDisconnected] else story)
    decreases |snapshot|
  {
    hide Pictured, Emit, InSnapshot, Known;
    if snapshot == [] {
      assert !InSnapshot(a, snapshot, g) by { EmptySnapshot(a, g); }
    } else {
      var id := a.flows[snapshot[0]].id;
      if id !in gone {
        SnapshotRest(a, a, snapshot, g);
        ServerGonePictured(a, x, gone, snapshot[1..], ids, g, l, story);
      } else {
        KnownAt(a, snapshot[0]);
        var o := Emit(a, x, id, ServerDisconnected, true);
        EmitPictured(a, x, id, ServerDisconnected, true, ids, g, l, story);
        SnapshotRest(a, o.addon, snapshot, g);
        ServerGonePictured(o.addon, x, gone, snapshot[1..], ids, g, l, if id == g then story + [ServerDisconnected] else story);
      }
    }
  }

  lemma {:induction false} EndAllPictured(a: Addon, x: Setting, snapshot: seq<nat>,
                                          ids: seq<FlowId>, g: FlowId, l: Life, story: seq<FlowEvent>)
    requires Indexed(a) && Snapshot(a, snapshot) && EndAll(a, x, snapshot).ok
    requires InSnapshot(a, snapshot, g) ==> l.running
    requires Pictured(a, x, ids, g, l, story)
    ensures Pictured(EndAll(a, x, snapshot).addon, x, ids, g,
                     if InSnapshot(a, snapshot, g) then l.(running := false) else l,
                     if InSnapshot(a, snapshot, g)
                     then story + [FlowTerminal(StoppedBeforeCompletion, l.chunks, l.bytes, l.eof, l.socket)] else story)
    decreases |snapshot|
  {
    hide Pictured, Terminal, InSnapshot, Known;
    if snapshot == [] {
      assert !InSnapshot(a, snapshot, g) by { EmptySnapshot(a, g); }
    } else {
      var id := a.flows[snapshot[0]].id;
      var t := Terminal(a, x, id, StoppedBeforeCompletion);
      TerminalPictured(a, x, id, StoppedBeforeCompletion, ids, g, l, story);
      SnapshotRest(a, t.addon, snapshot, g);
      var m := if id == g then l.(running := false) else l;
      var told := if id == g && l.running
                  then story + [FlowTerminal(StoppedBeforeCompletion, l.chunks, l.bytes, l.eof, l.socket)] else story;
      EndAllPictured(t.addon, x, snapshot[1..], ids, g, m, told);
    }
  }

  lemma ClosingPictured(a: Addon, x: Setting, ids: seq<FlowId>, g: FlowId, l: Life, story: seq<FlowEvent>)
    requires Closing(a, x).ok && a.active == []
    requires Pictured(a, x, ids, g, l, story)
    ensures Pictured(Closing(a, x).addon, x, ids, g, l, story)
  {
    hide Pictured, Good, Append, Frame, Writable, Recorded, Mirrors, Known, Lawful, Synced;
    PicturedBasics(a, x, ids, g, l, story);
    ClosingGood(a, x);
    if !a.vault.closed {
      StoredSynced(a.vault, x.codec, SessionEnd(a.failed), x.disk(a.vault.sequence), true);
      SyncedSnoc(a.vault.history, Record(a.vault.sequence, SessionEnd(a.failed)), x);
    }
    WriteLands(a.vault, x.codec, SessionEnd(a.failed), x.disk(a.vault.sequence), true);
    RecordedSnoc(a.vault.history, Record(a.vault.sequence, SessionEnd(a.failed)), g);
    var b := Closing(a, x).addon;
    SameFlowsMirror(a, b, g, l);
    PicturedWhole(b, x, ids, g, l, story);
  }

  lemma DonePictured(a: Addon, x: Setting, ids: seq<FlowId>, g: FlowId, l: Life, story: seq<FlowEvent>)
    requires Indexed(a) && OnDone(a, x).ok
    requires Pictured(a, x, ids, g, l, story)
    ensures Continues(OnDone(a, x), x, Step.Done, ids, g, l, story)
  {
    hide Pictured, Good, EndAll, Closing, Mirrors, Known, Distinct, SameIds, Lawful, Recorded, Snapshot, InSnapshot;
    PicturedBasics(a, x, ids, g, l, story);
    RunningListed(a, g, l);
    EndAllPictured(a, x, a.active, ids, g, l, story);
    EndAllGood(a, x);
    var b := EndAll(a, x, a.active).addon;
    var m := l.(running := false);
    assert m == (if l.running then m else l);
    var told := if l.running then story + [FlowTerminal(StoppedBeforeCompletion, l.chunks, l.bytes, l.eof, l.socket)] else story;
    ClosingPictured(b, x, ids, g, m, told);
    assert story + Adds(l, ids, Step.Done, g) == told;
  }

  /** A flow is in the active table exactly while it runs. */
  lemma RunningListed(a: Addon, g: FlowId, l: Life)
    requires Indexed(a) && Keyed(a) && Mirrors(a, g, l)
    ensures Snapshot(a, a.active) && (InSnapshot(a, a.active, g) <==> l.running)
  {
    hide Known;
    ActiveSnapshot(a, g);
  }

  lemma ConnectionPictured(a: Addon, x: Setting, s: Step, ids: seq<FlowId>, g: FlowId, l: Life, story: seq<FlowEvent>)
    requires Indexed(a) && (s.ClientGone? || s.ServerGone?) && Next(a, x, s).ok
    requires Pictured(a, x, ids, g, l, story)
    ensures Continues(Next(a, x, s), x, s, ids, g, l, story)
  {
    hide Pictured, Good, OnClientGone, OnServerGone, Mirrors, Known, Distinct, SameIds, Lawful, Recorded, Snapshot, InSnapshot;
    PicturedBasics(a, x, ids, g, l, story);
    RunningListed(a, g, l);
    if s.ClientGone? {
      ClientGonePictured(a, x, s.ids, a.active, ids, g, l, story);
      assert story + Adds(l, ids, s, g) ==
             if l.running && g in s.ids
             then story + [ClientDisconnected, FlowTerminal(ClientClosedBeforeTerminal, l.chunks, l.bytes, l.eof, l.socket)] else story;
    } else {
      ServerGonePictured(a, x, s.ids, a.active, ids, g, l, story);
      assert story + Adds(l, ids, s, g) == if l.running && g in s.ids then story + [ServerDisconnected] else story;
    }
  }

  /** Callbacks that record one event of their flow, or one event and its end. */
  lemma SimplePictured(a: Addon, x: Setting, s: Step, ids: seq<FlowId>, g: FlowId, l: Life, story: seq<FlowEvent>)
    requires Indexed(a) && (s.RequestBody? || s.SocketMessage? || s.SocketEnd? || s.FlowError?) && Next(a, x, s).ok
    requires Pictured(a, x, ids, g, l, story)
    ensures Continues(Next(a, x, s), x, s, ids, g, l, story)
  {
    hide Pictured, Note, NoteAndEnd;
    match s
    case RequestBody(id) =>
      NotePictured(a, x, id, RequestComplete, true, ids, g, l, story);
      assert story + Adds(l, ids, s, g) == if id == g && l.running then story + [RequestComplete] else story;
    case SocketMessage(id) =>
      NotePictured(a, x, id, WebsocketMessage, false, ids, g, l, story);
      assert story + Adds(l, ids, s, g) == if id == g && l.running then story + [WebsocketMessage] else story;
    case SocketEnd(id) =>
      NoteAndEndPictured(a, x, id, WebsocketEnd, WebsocketClosed, ids, g, l, story);
      assert story + Adds(l, ids, s, g) ==
             if id == g && l.running
             then story + [WebsocketEnd, FlowTerminal(WebsocketClosed, l.chunks, l.bytes, l.eof, l.socket)] else story;
    case FlowError(id) =>
      NoteAndEndPictured(a, x, id, HttpError, ErrorOrCancellation, ids, g, l, story);
      assert story + Adds(l, ids, s, g) ==
             if id == g && l.running
             then story + [HttpError, FlowTerminal(ErrorOrCancellation, l.chunks, l.bytes, l.eof, l.socket)] else story;
  }

  function Named(s: Step): seq<FlowId> { if s.RequestHeaders? && s.target then [s.id] else [] }

  lemma HeadersPictured(a: Addon, x: Setting, s: Step, ids: seq<FlowId>, g: FlowId, l: Life, story: seq<FlowEvent>)
    requires Indexed(a) && s.RequestHeaders? && Distinct(ids + Named(s)) && Next(a, x, s).ok
    requires Pictured(a, x, ids, g, l, story)
    ensures Pictured(Next(a, x, s).addon, x, ids + Named(s), g, After(l, ids, s, g), story + Adds(l, ids, s, g))
  {
    hide Pictured, OnRequestHeaders, Distinct;
    if s.target {
      AnnouncePictured(a, x, s.id, ids, g, l, story);
      assert story + Adds(l, ids, s, g) == if s.id == g then story + [FlowEvent.RequestHeaders] else story;
    } else {
      assert ids + Named(s) == ids && story + Adds(l, ids, s, g) == story;
    }
  }

  lemma NextPictured(a: Addon, x: Setting, s: Step, ids: seq<FlowId>, g: FlowId, l: Life, story: seq<FlowEvent>)
    requires Indexed(a) && Distinct(ids + Named(s)) && Next(a, x, s).ok
    requires Pictured(a, x, ids, g, l, story)
    ensures Pictured(Next(a, x, s).addon, x, ids + Named(s), g, After(l, ids, s, g), story + Adds(l, ids, s, g))
  {
    hide Pictured, After, Adds, Distinct, Note, NoteAndEnd, OnRequestHeaders, OnResponseHead, OnChunk, OnResponseEnd, OnSocketStart, OnClientGone, OnServerGone, OnDone;
    if s.RequestHeaders? {
      HeadersPictured(a, x, s, ids, g, l, story);
    } else {
      assert ids + Named(s) == ids;
      match s
      case ResponseHead(_, _, _) => HeadPictured(a, x, s, ids, g, l, story);
      case Chunk(k, length) => ChunkPictured(a, x, k, length, ids, g, l, story);
      case ResponseEnd(id) => ResponsePictured(a, x, id, ids, g, l, story);
      case SocketStart(id) => SocketPictured(a, x, id, ids, g, l, story);
      case ClientGone(_) => ConnectionPictured(a, x, s, ids, g, l, story);
      case ServerGone(_) => ConnectionPictured(a, x, s, ids, g, l, story);
      case Done => DonePictured(a, x, ids, g, l, story);
      case _ => SimplePictured(a, x, s, ids, g, l, story);
    }
  }

  // ---------------------------------------------------------------------------
  // Failures
  // ---------------------------------------------------------------------------

  /** Failures are never forgotten, and a callback that raises has counted one. */
  predicate Loud(a: Addon, o: Outcome) {
    a.vault.failures <= o.addon.vault.failures && (!o.ok ==> o.addon.vault.failures > 0)
  }

  lemma EmitLoud(a: Addon, x: Setting, id: FlowId, e: FlowEvent, sync: bool)
    ensures Loud(a, Emit(a, x, id, e, sync))
  {
  }

  lemma TerminalLoud(a: Addon, x: Setting, id: FlowId, reason: Reason)
    requires Indexed(a)
    ensures Loud(a, Terminal(a, x, id, reason))
  {
    hide Emit, Lookup;
    var j := Lookup(a, id);
    if j.Some? {
      var f := a.flows[a.active[j.value]];
      EmitLoud(Popped(a, j.value), x, id, FlowTerminal(reason, f.chunks, f.bytes, f.eof, f.websocket), true);
    }
  }

  lemma NoteLoud(a: Addon, x: Setting, id: FlowId, e: FlowEvent, reason: Reason)
    requires Indexed(a)
    ensures Loud(a, Note(a, x, id, e, true)) && Loud(a, Note(a, x, id, e, false)) && Loud(a, NoteAndEnd(a, x, id, e, reason))
  {
    hide Emit, Lookup, Terminal;
    EmitLoud(a, x, id, e, true);
    EmitLoud(a, x, id, e, false);
    TerminalLoud(Emit(a, x, id, e, true).addon, x, id, reason);
  }

  lemma HeadLoud(a: Addon, x: Setting, id: FlowId, upgrade: bool, transformed: bool)
    requires Indexed(a)
    ensures Loud(a, OnResponseHead(a, x, id, upgrade, transformed))
  {
    hide Emit, Lookup, NoteAndEnd;
    var j := Lookup(a, id);
    if j.Some? {
      var k := a.active[j.value];
      var b := a.(flows := a.flows[k := a.flows[k].(websocket := upgrade)]);
      EmitLoud(b, x, id, ResponseHeaders(upgrade), true);
      NoteLoud(Emit(b, x, id, ResponseHeaders(upgrade), true).addon, x, id, CaptureError, CaptureConflict);
    }
  }

  lemma ChunkLoud(a: Addon, x: Setting, k: nat, length: nat)
    requires Indexed(a)
    ensures Loud(a, OnChunk(a, x, k, length))
  {
    hide Emit;
    if k < |a.flows| && a.flows[k].hooked {
      var f := a.flows[k].(chunks := a.flows[k].chunks + 1, bytes := a.flows[k].bytes + length);
      var b := a.(flows := a.flows[k := f]);
      EmitLoud(b, x, f.id, ResponseChunk(f.chunks - 1, length), false);
      var o := Emit(b, x, f.id, ResponseChunk(f.chunks - 1, length), false);
      EmitLoud(o.addon.(flows := o.addon.flows[k := f.(eof := true)]), x, f.id, StreamEof(f.chunks, f.bytes), true);
    }
  }

  lemma FlowLoud(a: Addon, x: Setting, id: FlowId)
    requires Indexed(a)
    ensures Loud(a, OnRequestHeaders(a, x, id)) && Loud(a, OnResponseEnd(a, x, id)) && Loud(a, OnSocketStart(a, x, id))
  {
    hide Emit, Lookup, NoteAndEnd, Activated;
    EmitLoud(Activated(a, id), x, id, FlowEvent.RequestHeaders, true);
    assert Activated(a, id).vault == a.vault by { hide Lookup; ActivatedVault(a, id); }
    var j := Lookup(a, id);
    if j.Some? {
      var k := a.active[j.value];
      var f := a.flows[k];
      EmitLoud(a, x, id, ResponseComplete(f.chunks, f.bytes, f.eof), true);
      NoteLoud(a, x, id, ResponseComplete(f.chunks, f.bytes, f.eof), HttpComplete);
      EmitLoud(a.(flows := a.flows[k := f.(websocket := true)]), x, id, WebsocketStart, true);
    }
  }

  lemma ActivatedVault(a: Addon, id: FlowId)
    requires Indexed(a)
    ensures Activated(a, id).vault == a.vault
  {
    hide Lookup;
  }

  lemma {:induction false} GoneLoud(a: Addon, x: Setting, gone: set<FlowId>, snapshot: seq<nat>)
    requires Indexed(a) && Indices(a, snapshot)
    ensures Loud(a, OnClientGone(a, x, gone, snapshot)) && Loud(a, OnServerGone(a, x, gone, snapshot))
    decreases |snapshot|
  {
    hide Emit, Terminal;
    if snapshot != [] {
      var id := a.flows[snapshot[0]].id;
      var o := Emit(a, x, id, ClientDisconnected, true);
      var t := Terminal(o.addon, x, id, ClientClosedBeforeTerminal);
      var q := Emit(a, x, id, ServerDisconnected, true);
      EmitLoud(a, x, id, ClientDisconnected, true);
      EmitLoud(a, x, id, ServerDisconnected, true);
      TerminalLoud(o.addon, x, id, ClientClosedBeforeTerminal);
      GoneLoud(a, x, gone, snapshot[1..]);
      GoneLoud(t.addon, x, gone, snapshot[1..]);
      GoneLoud(q.addon, x, gone, snapshot[1..]);
    }
  }

  lemma {:induction false} EndAllLoud(a: Addon, x: Setting, snapshot: seq<nat>)
    requires Indexed(a) && Indices(a, snapshot)
    ensures Loud(a, EndAll(a, x, snapshot))
    decreases |snapshot|
  {
    hide Terminal;
    if snapshot != [] {
      var t := Terminal(a, x, a.flows[snapshot[0]].id, StoppedBeforeCompletion);
      TerminalLoud(a, x, a.flows[snapshot[0]].id, StoppedBeforeCompletion);
      EndAllLoud(t.addon, x, snapshot[1..]);
    }
  }

  lemma DoneLoud(a: Addon, x: Setting)
    requires Indexed(a)
    ensures Loud(a, OnDone(a, x))
  {
    hide EndAll;
    EndAllLoud(a, x, a.active);
  }

  lemma NextLoud(a: Addon, x: Setting, s: Step)
    requires Indexed(a)
    ensures Loud(a, Next(a, x, s))
  {
    hide Note, NoteAndEnd, OnRequestHeaders, OnResponseHead, OnChunk, OnResponseEnd, OnSocketStart, OnClientGone, OnServerGone, OnDone;
    match s
    case RequestHeaders(id, _) => FlowLoud(a, x, id);
    case RequestBody(id) => NoteLoud(a, x, id, RequestComplete, HttpComplete);
    case ResponseHead(id, upgrade, transformed) => HeadLoud(a, x, id, upgrade, transformed);
    case Chunk(k, length) => ChunkLoud(a, x, k, length);
    case ResponseEnd(id) => FlowLoud(a, x, id);
    case SocketStart(id) => FlowLoud(a, x, id);
    case SocketMessage(id) => NoteLoud(a, x, id, WebsocketMessage, HttpComplete);
    case SocketEnd(id) => NoteLoud(a, x, id, WebsocketEnd, WebsocketClosed);
    case ClientGone(ids) => GoneLoud(a, x, ids, a.active);
    case ServerGone(ids) => GoneLoud(a, x, ids, a.active);
    case FlowError(id) => NoteLoud(a, x, id, HttpError, ErrorOrCancellation);
    case Done => DoneLoud(a, x);
  }

  // ---------------------------------------------------------------------------
  // Whole runs
  // ---------------------------------------------------------------------------

  /** The proxy gives each flow its own id. */
  ghost predicate OwnIds(steps: seq<Step>) {
    forall i, j :: 0 <= i < j < |steps| && steps[i].RequestHeaders? && steps[i].target && steps[j].RequestHeaders? && steps[j].target
      ==> steps[i].id != steps[j].id
  }

  lemma {:induction false} AnnouncedFrom(steps: seq<Step>, id: FlowId)
    requires id in Announced(steps)
    ensures exists i :: 0 <= i < |steps| && Begins(steps[i], id)
  {
    var last := |steps| - 1;
    if Begins(steps[last], id) {
    } else {
      AnnouncedFrom(steps[..last], id);
      var i :| 0 <= i < last && Begins(steps[..last][i], id);
      assert Begins(steps[i], id);
    }
  }

  lemma {:induction false} OwnIdsDistinct(steps: seq<Step>)
    requires OwnIds(steps)
    ensures Distinct(Announced(steps))
  {
    if steps != [] {
      var last := |steps| - 1;
      var before := steps[..last];
      assert OwnIds(before);
      OwnIdsDistinct(before);
      var ids := Announced(before);
      if steps[last].RequestHeaders? && steps[last].target {
        forall i | 0 <= i < |ids| ensures ids[i] != steps[last].id {
          AnnouncedFrom(before, ids[i]);
          var k :| 0 <= k < |before| && Begins(before[k], ids[i]);
          assert steps[k] == before[k];
        }
      }
    }
  }

  lemma BeginSynced(x: Setting, name: string)
    requires Begin(x.codec, name, x.disk(0)).ok
    ensures x.disk(0).syncs
  {
    var magic := Push(|MAGIC|, x.disk(0).grants);
    StoredSynced(Vault(0, false, MAGIC[..magic.landed], [], [], 0), x.codec, SessionStart(name), x.disk(0).(grants := magic.rest), true);
    hide Append, Push;
  }

  lemma StartedPictured(x: Setting, name: string, g: FlowId)
    requires Lawful(x.codec) && Begin(x.codec, name, x.disk(0)).ok
    ensures Pictured(Started(Begin(x.codec, name, x.disk(0)).vault), x, [], g, Unborn, [])
  {
    StartedGood(x, name);
    BeginHistory(x, name);
    hide Begin, Good;
    var a := Started(Begin(x.codec, name, x.disk(0)).vault);
    assert a.vault.history[..0] == [];
    assert Recorded(a.vault.history, g) == [];
    BeginSynced(x, name);
    PicturedWhole(a, x, [], g, Unborn, []);
  }

  lemma {:induction false} RunPictured(x: Setting, name: string, steps: seq<Step>, g: FlowId)
    requires Lawful(x.codec) && Begin(x.codec, name, x.disk(0)).ok && OwnIds(steps)
    requires Run(Started(Begin(x.codec, name, x.disk(0)).vault), x, steps).vault.failures == 0
    ensures Pictured(Run(Started(Begin(x.codec, name, x.disk(0)).vault), x, steps), x, Announced(steps), g, LifeOf(steps, g), Story(steps, g))
    decreases |steps|
  {
    hide Pictured, Begin, Next, After, Adds, Distinct;
    var a := Started(Begin(x.codec, name, x.disk(0)).vault);
    if steps == [] {
      StartedPictured(x, name, g);
    } else {
      var before, s := steps[..|steps| - 1], steps[|steps| - 1];
      var b := Run(a, x, before);
      NextLoud(b, x, s);
      RunPictured(x, name, before, g);
      OwnIdsDistinct(steps);
      assert Announced(steps) == Announced(before) + Named(s);
      NextPictured(b, x, s, Announced(before), g, LifeOf(before, g), Story(before, g));
    }
  }

  /**
    In every run in which nothing fails, with each flow under its own id, the records of a flow are exactly
    its story, and the add-on keeps the flow exactly while it runs.
   */
  lemma OwnStory(x: Setting, name: string, steps: seq<Step>, g: FlowId)
    requires Lawful(x.codec) && Begin(x.codec, name, x.disk(0)).ok && OwnIds(steps)
    requires Final(x, name, steps).failures == 0
    ensures Recorded(Final(x, name, steps).history, g) == Story(steps, g)
    ensures IsActive(Run(Started(Begin(x.codec, name, x.disk(0)).vault), x, steps), g) <==> LifeOf(steps, g).running
  {
    hide Begin, Run, Pictured;
    RunPictured(x, name, steps, g);
    PicturedBasics(Run(Started(Begin(x.codec, name, x.disk(0)).vault), x, steps), x, Announced(steps), g, LifeOf(steps, g), Story(steps, g));
  }

  /**
    In such a run every record other than a chunk or a WebSocket message, the first and the last of the session
    included, was synced to the disk before its callback returned.
   */
  lemma RecordsSynced(x: Setting, name: string, steps: seq<Step>)
    requires Lawful(x.codec) && Begin(x.codec, name, x.disk(0)).ok && OwnIds(steps)
    requires Final(x, name, steps).failures == 0
    ensures Synced(Final(x, name, steps).history, x)
  {
    hide Begin, Run, Pictured, Synced;
    RunPictured(x, name, steps, "");
    PicturedBasics(Run(Started(Begin(x.codec, name, x.disk(0)).vault), x, steps), x, Announced(steps), "", LifeOf(steps, ""), Story(steps, ""));
  }
}
