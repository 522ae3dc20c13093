/**
  The capture add-on's flow life cycle: proxy callbacks, in any order, turned into records of one vault.

  A callback either finishes or raises at the first record that cannot be stored; what it changed before
  then stays. The `stream` callback of a flow may still fire after the flow's terminal record.
 */
module CaptureAddons {
  import opened Wrappers
  import opened ByteStrings
  import opened CaptureVaults

  /** The state kept for one flow; `hooked` once its response body is streamed through the recorder. */
  datatype Flow = Flow(id: FlowId, chunks: nat, bytes: nat, eof: bool, websocket: bool, hooked: bool)

  /** Every flow state ever made, and the indices of the active ones in the order they were added. */
  datatype Addon = Addon(
    vault: Vault,
    flows: seq<Flow>,
    active: seq<nat>,
    failed: bool,
    eventsWritten: nat,
    flowsCompleted: nat)

  /** What happens outside the add-on's control: the codec, and how the disk treats each sequence number. */
  datatype Setting = Setting(codec: Codec, disk: nat -> Disk)

  datatype Outcome = Outcome(addon: Addon, ok: bool)

  datatype Step =
    | RequestHeaders(id: FlowId, target: bool)
    | RequestBody(id: FlowId)
    | ResponseHead(id: FlowId, upgrade: bool, transformed: bool)
    | Chunk(flow: nat, length: nat)
    | ResponseEnd(id: FlowId)
    | SocketStart(id: FlowId)
    | SocketMessage(id: FlowId)
    | SocketEnd(id: FlowId)
    | ClientGone(ids: set<FlowId>)
    | ServerGone(ids: set<FlowId>)
    | FlowError(id: FlowId)
    | Done

  /** The indices kept in the active table are indices of flow states. */
  predicate Indexed(a: Addon) { Indices(a, a.active) }

  predicate Indices(a: Addon, ks: seq<nat>) { forall i :: 0 <= i < |ks| ==> ks[i] < |a.flows| }

  /** Where `id` stands in the active table. */
  function Find(a: Addon, id: FlowId, from: nat): (j: Option<nat>)
    requires Indexed(a) && from <= |a.active|
    ensures j.Some? ==> from <= j.value < |a.active| && a.flows[a.active[j.value]].id == id
    ensures j.None? ==> forall i :: from <= i < |a.active| ==> a.flows[a.active[i]].id != id
    decreases |a.active| - from
  {
    if from == |a.active| then None
    else if a.flows[a.active[from]].id == id then Some(from)
    else Find(a, id, from + 1)
  }

  function Lookup(a: Addon, id: FlowId): (j: Option<nat>)
    requires Indexed(a)
    ensures j.Some? ==> j.value < |a.active| && a.flows[a.active[j.value]].id == id
    ensures j.None? ==> forall i :: 0 <= i < |a.active| ==> a.flows[a.active[i]].id != id
  {
    Find(a, id, 0)
  }

  /** `emit`: one record; a failure is remembered and raised. */
  function Emit(a: Addon, x: Setting, id: FlowId, e: FlowEvent, sync: bool): (o: Outcome)
    ensures o.addon == a.(vault := o.addon.vault, eventsWritten := o.addon.eventsWritten, failed := o.addon.failed)
  {
    var w := Append(a.vault, x.codec, FlowRecord(id, e), x.disk(a.vault.sequence), sync);
    if w.ok then Outcome(a.(vault := w.vault, eventsWritten := a.eventsWritten + 1), true)
    else Outcome(a.(vault := w.vault, failed := true), false)
  }

  /** `terminal`: takes the flow out of the active table, then records why it ended. */
  function Terminal(a: Addon, x: Setting, id: FlowId, reason: Reason): (o: Outcome)
    requires Indexed(a)
    ensures Indexed(o.addon) && o.addon.flows == a.flows
  {
    var j := Lookup(a, id);
    if j.None? then Outcome(a, true)
    else
      var f := a.flows[a.active[j.value]];
      Emit(Popped(a, j.value), x, id, FlowTerminal(reason, f.chunks, f.bytes, f.eof, f.websocket), true)
  }

  function Popped(a: Addon, j: nat): (b: Addon)
    requires j < |a.active| && Indexed(a)
    ensures Indexed(b)
  {
    a.(active := a.active[..j] + a.active[j + 1..], flowsCompleted := a.flowsCompleted + 1)
  }

  function OnRequestHeaders(a: Addon, x: Setting, id: FlowId): (o: Outcome)
    requires Indexed(a)
    ensures Indexed(o.addon)
  {
    if a.failed then Outcome(a, true)
    else Emit(Activated(a, id), x, id, FlowEvent.RequestHeaders, true)
  }

  /** A new flow state under `id`; one already there keeps its place in the table. */
  function Activated(a: Addon, id: FlowId): (b: Addon)
    requires Indexed(a)
    ensures Indexed(b)
  {
    var j := Lookup(a, id);
    var flows := a.flows + [Flow(id, 0, 0, false, false, false)];
    if j.Some? then a.(flows := flows, active := a.active[j.value := |a.flows|])
    else a.(flows := flows, active := a.active + [|a.flows|])
  }

  /** A callback that only records `e`, and only for an active flow. */
  function Note(a: Addon, x: Setting, id: FlowId, e: FlowEvent, sync: bool): (o: Outcome)
    requires Indexed(a)
    ensures Indexed(o.addon) && o.addon.flows == a.flows
  {
    if Lookup(a, id).None? then Outcome(a, true) else Emit(a, x, id, e, sync)
  }

  /** A record, and then the end of the flow. */
  function NoteAndEnd(a: Addon, x: Setting, id: FlowId, e: FlowEvent, reason: Reason): (o: Outcome)
    requires Indexed(a)
    ensures Indexed(o.addon) && o.addon.flows == a.flows
  {
    if Lookup(a, id).None? then Outcome(a, true)
    else
      var o := Emit(a, x, id, e, true);
      if !o.ok then o else Terminal(o.addon, x, id, reason)
  }

  function OnResponseHead(a: Addon, x: Setting, id: FlowId, upgrade: bool, transformed: bool): (o: Outcome)
    requires Indexed(a)
    ensures Indexed(o.addon)
  {
    var j := Lookup(a, id);
    if j.None? then Outcome(a, true)
    else
      var k := a.active[j.value];
      var o := Emit(a.(flows := a.flows[k := a.flows[k].(websocket := upgrade)]), x, id, ResponseHeaders(upgrade), true);
      if !o.ok || upgrade then o
      else if transformed then NoteAndEnd(o.addon, x, id, CaptureError, CaptureConflict)
      else Outcome(o.addon.(flows := o.addon.flows[k := o.addon.flows[k].(hooked := true)]), true)
  }

  /** The response stream callback, which outlives the flow's place in the active table. */
  function OnChunk(a: Addon, x: Setting, k: nat, length: nat): (o: Outcome)
    requires Indexed(a)
    ensures Indexed(o.addon)
  {
    if k >= |a.flows| || !a.flows[k].hooked then Outcome(a, true)
    else
      var f := a.flows[k].(chunks := a.flows[k].chunks + 1, bytes := a.flows[k].bytes + length);
      var o := Emit(a.(flows := a.flows[k := f]), x, f.id, ResponseChunk(f.chunks - 1, length), false);
      if !o.ok || length > 0 then o
      else Emit(o.addon.(flows := o.addon.flows[k := f.(eof := true)]), x, f.id, StreamEof(f.chunks, f.bytes), true)
  }

  function OnResponseEnd(a: Addon, x: Setting, id: FlowId): (o: Outcome)
    requires Indexed(a)
    ensures Indexed(o.addon) && o.addon.flows == a.flows
  {
    var j := Lookup(a, id);
    if j.None? then Outcome(a, true)
    else
      var f := a.flows[a.active[j.value]];
      if f.websocket then Emit(a, x, id, ResponseComplete(f.chunks, f.bytes, f.eof), true)
      else NoteAndEnd(a, x, id, ResponseComplete(f.chunks, f.bytes, f.eof), HttpComplete)
  }

  function OnSocketStart(a: Addon, x: Setting, id: FlowId): (o: Outcome)
    requires Indexed(a)
    ensures Indexed(o.addon)
  {
    var j := Lookup(a, id);
    if j.None? then Outcome(a, true)
    else
      var k := a.active[j.value];
      Emit(a.(flows := a.flows[k := a.flows[k].(websocket := true)]), x, id, WebsocketStart, true)
  }

  /** A client connection closed: its flows, from a snapshot of the active table. */
  function OnClientGone(a: Addon, x: Setting, ids: set<FlowId>, snapshot: seq<nat>): (o: Outcome)
    requires Indexed(a) && Indices(a, snapshot)
    ensures Indexed(o.addon)
    decreases |snapshot|
  {
    if snapshot == [] then Outcome(a, true)
    else
      var id := a.flows[snapshot[0]].id;
      if id !in ids then OnClientGone(a, x, ids, snapshot[1..])
      else
        var o := Emit(a, x, id, ClientDisconnected, true);
        if !o.ok then o
        else
          var t := Terminal(o.addon, x, id, ClientClosedBeforeTerminal);
          if !t.ok then t else OnClientGone(t.addon, x, ids, snapshot[1..])
  }

  /** A server connection closed: noted in its flows, which may still deliver buffered events. */
  function OnServerGone(a: Addon, x: Setting, ids: set<FlowId>, snapshot: seq<nat>): (o: Outcome)
    requires Indexed(a) && Indices(a, snapshot)
    ensures Indexed(o.addon)
    decreases |snapshot|
  {
    if snapshot == [] then Outcome(a, true)
    else
      var id := a.flows[snapshot[0]].id;
      if id !in ids then OnServerGone(a, x, ids, snapshot[1..])
      else
        var o := Emit(a, x, id, ServerDisconnected, true);
        if !o.ok then o else OnServerGone(o.addon, x, ids, snapshot[1..])
  }

  function EndAll(a: Addon, x: Setting, snapshot: seq<nat>): (o: Outcome)
    requires Indexed(a) && Indices(a, snapshot)
    ensures Indexed(o.addon)
    decreases |snapshot|
  {
    if snapshot == [] then Outcome(a, true)
    else
      var t := Terminal(a, x, a.flows[snapshot[0]].id, StoppedBeforeCompletion);
      if !t.ok then t else EndAll(t.addon, x, snapshot[1..])
  }

  /** `done`: ends every active flow, then closes the vault; a record that fails leaves it open. */
  function OnDone(a: Addon, x: Setting): (o: Outcome)
    requires Indexed(a)
    ensures Indexed(o.addon)
  {
    var o := EndAll(a, x, a.active);
    if !o.ok then o else Closing(o.addon, x)
  }

  function Closing(a: Addon, x: Setting): (o: Outcome)
    ensures o.addon == a.(vault := o.addon.vault)
  {
    var w := CloseVault(a.vault, x.codec, a.failed, x.disk(a.vault.sequence));
    Outcome(a.(vault := w.vault), w.ok)
  }

  function Next(a: Addon, x: Setting, s: Step): (o: Outcome)
    requires Indexed(a)
    ensures Indexed(o.addon)
  {
    match s
    case RequestHeaders(id, target) => if target then OnRequestHeaders(a, x, id) else Outcome(a, true)
    case RequestBody(id) => Note(a, x, id, RequestComplete, true)
    case ResponseHead(id, upgrade, transformed) => OnResponseHead(a, x, id, upgrade, transformed)
    case Chunk(k, length) => OnChunk(a, x, k, length)
    case ResponseEnd(id) => OnResponseEnd(a, x, id)
    case SocketStart(id) => OnSocketStart(a, x, id)
    case SocketMessage(id) => Note(a, x, id, WebsocketMessage, false)
    case SocketEnd(id) => NoteAndEnd(a, x, id, WebsocketEnd, WebsocketClosed)
    case ClientGone(ids) => OnClientGone(a, x, ids, a.active)
    case ServerGone(ids) => OnServerGone(a, x, ids, a.active)
    case FlowError(id) => NoteAndEnd(a, x, id, HttpError, ErrorOrCancellation)
    case Done => OnDone(a, x)
  }

  function Run(a: Addon, x: Setting, steps: seq<Step>): (b: Addon)
    requires Indexed(a)
    ensures Indexed(b)
    decreases |steps|
  {
    if steps == [] then a else Next(Run(a, x, steps[..|steps| - 1]), x, steps[|steps| - 1]).addon
  }

  /** The add-on of a vault whose session_start landed. */
  function Started(v: Vault): (a: Addon)
    ensures Indexed(a)
  {
    Addon(v, [], [], false, 0, 0)
  }
}
