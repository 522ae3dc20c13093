/** The capture add-on as the proxy sees it: an object whose callbacks change its table of flows. */
module CaptureAddonObjects {
  import opened Wrappers
  import opened ByteStrings
  import opened CaptureVaults
  import opened CaptureAddons

  lemma NoteAndEndCases(a: Addon, x: Setting, id: FlowId, e: FlowEvent, reason: Reason)
    requires Indexed(a)
    ensures var o := Emit(a, x, id, e, true);
            && Indexed(o.addon)
            && NoteAndEnd(a, x, id, e, reason) ==
               if Lookup(a, id).None? then Outcome(a, true)
               else if !o.ok then o else Terminal(o.addon, x, id, reason)
  {
  }

  /** A callback returns false when it raises. */
  class CaptureAddon {
    const setting: Setting
    const vault: CaptureVault
    var flows: seq<Flow>
    var active: seq<nat>
    var failed: bool
    var eventsWritten: nat
    var flowsCompleted: nat

    ghost function State(): Addon
      reads this, vault
    {
      Addon(vault.State(), flows, active, failed, eventsWritten, flowsCompleted)
    }

    ghost predicate Valid()
      reads this, vault
      ensures Valid() ==> Indexed(State())
    {
      vault.codec == setting.codec && Indexed(State())
    }

    constructor (setting: Setting, vault: CaptureVault)
      requires vault.codec == setting.codec
      ensures this.setting == setting && this.vault == vault && Valid() && State() == Started(vault.State())
    {
      this.setting, this.vault := setting, vault;
      flows, active, failed, eventsWritten, flowsCompleted := [], [], false, 0, 0;
    }

    /** `id in self.active`, and where. */
    method Position(id: FlowId) returns (j: Option<nat>)
      requires Valid()
      ensures j == Lookup(State(), id)
    {
      var i := 0;
      while i < |active|
        invariant i <= |active| && Lookup(State(), id) == Find(State(), id, i)
      {
        if flows[active[i]].id == id {
          return Some(i);
        }
        i := i + 1;
      }
      return None;
    }

    method Record(id: FlowId, event: FlowEvent, sync: bool) returns (ok: bool)
      requires Valid()
      modifies this, vault
      ensures Valid() && Outcome(State(), ok) == Emit(old(State()), setting, id, event, sync)
    {
      hide Append;
      ok := vault.Write(FlowRecord(id, event), setting.disk(vault.sequence), sync);
      if ok {
        eventsWritten := eventsWritten + 1;
      } else {
        failed := true;
      }
    }

    method End(id: FlowId, reason: Reason) returns (ok: bool)
      requires Valid()
      modifies this, vault
      ensures Valid() && Outcome(State(), ok) == Terminal(old(State()), setting, id, reason)
    {
      hide Emit, Lookup;
      var j := Position(id);
      if j.None? {
        return true;
      }
      var f := flows[active[j.value]];
      active := active[..j.value] + active[j.value + 1..];
      flowsCompleted := flowsCompleted + 1;
      assert State() == Popped(old(State()), j.value);
      ok := Record(id, FlowTerminal(reason, f.chunks, f.bytes, f.eof, f.websocket), true);
    }

    method RequestHeaders(id: FlowId, target: bool) returns (ok: bool)
      requires Valid()
      modifies this, vault
      ensures Valid() && Outcome(State(), ok) == Next(old(State()), setting, Step.RequestHeaders(id, target))
    {
      hide Emit, Lookup;
      if !target || failed {
        return true;
      }
      var j := Position(id);
      flows := flows + [Flow(id, 0, 0, false, false, false)];
      active := if j.Some? then active[j.value := |flows| - 1] else active + [|flows| - 1];
      assert State() == Activated(old(State()), id);
      ok := Record(id, FlowEvent.RequestHeaders, true);
    }

    /** A callback that only records an event of an active flow. */
    method Remark(id: FlowId, event: FlowEvent, sync: bool) returns (ok: bool)
      requires Valid()
      modifies this, vault
      ensures Valid() && Outcome(State(), ok) == Note(old(State()), setting, id, event, sync)
    {
      hide Emit, Lookup;
      var j := Position(id);
      if j.None? {
        return true;
      }
      ok := Record(id, event, sync);
    }

    method RemarkAndEnd(id: FlowId, event: FlowEvent, reason: Reason) returns (ok: bool)
      requires Valid()
      modifies this, vault
      ensures Valid() && Outcome(State(), ok) == NoteAndEnd(old(State()), setting, id, event, reason)
    {
      hide *;
      NoteAndEndCases(State(), setting, id, event, reason);
      var j := Position(id);
      if j.None? {
        return true;
      }
      ok := Record(id, event, true);
      if !ok {
        return;
      }
      ok := End(id, reason);
    }

    method ResponseHeaders(id: FlowId, upgrade: bool, transformed: bool) returns (ok: bool)
      requires Valid()
      modifies this, vault
      ensures Valid() && Outcome(State(), ok) == OnResponseHead(old(State()), setting, id, upgrade, transformed)
    {
      hide Emit, Terminal, Lookup, NoteAndEnd;
      var j := Position(id);
      if j.None? {
        return true;
      }
      var k := active[j.value];
      flows := flows[k := flows[k].(websocket := upgrade)];
      ok := Record(id, FlowEvent.ResponseHeaders(upgrade), true);
      if !ok || upgrade {
        return;
      }
      if transformed {
        ok := RemarkAndEnd(id, CaptureError, CaptureConflict);
        return;
      }
      flows := flows[k := flows[k].(hooked := true)];
    }

    /** The callback installed by `ResponseHeaders` on the flow state k. */
    method Stream(k: nat, length: nat) returns (ok: bool)
      requires Valid()
      modifies this, vault
      ensures Valid() && Outcome(State(), ok) == OnChunk(old(State()), setting, k, length)
    {
      hide Emit;
      if k >= |flows| || !flows[k].hooked {
        return true;
      }
      flows := flows[k := flows[k].(chunks := flows[k].chunks + 1, bytes := flows[k].bytes + length)];
      ok := Record(flows[k].id, ResponseChunk(flows[k].chunks - 1, length), false);
      if !ok || length > 0 {
        return;
      }
      flows := flows[k := flows[k].(eof := true)];
      ok := Record(flows[k].id, StreamEof(flows[k].chunks, flows[k].bytes), true);
    }

    method Response(id: FlowId) returns (ok: bool)
      requires Valid()
      modifies this, vault
      ensures Valid() && Outcome(State(), ok) == OnResponseEnd(old(State()), setting, id)
    {
      hide Emit, NoteAndEnd, Lookup;
      var j := Position(id);
      if j.None? {
        return true;
      }
      var f := flows[active[j.value]];
      if f.websocket {
        ok := Record(id, ResponseComplete(f.chunks, f.bytes, f.eof), true);
      } else {
        ok := RemarkAndEnd(id, ResponseComplete(f.chunks, f.bytes, f.eof), HttpComplete);
      }
    }

    method WebsocketStart(id: FlowId) returns (ok: bool)
      requires Valid()
      modifies this, vault
      ensures Valid() && Outcome(State(), ok) == OnSocketStart(old(State()), setting, id)
    {
      hide Emit, Lookup;
      var j := Position(id);
      if j.None? {
        return true;
      }
      flows := flows[active[j.value] := flows[active[j.value]].(websocket := true)];
      ok := Record(id, FlowEvent.WebsocketStart, true);
    }

    method ClientDisconnected(ids: set<FlowId>) returns (ok: bool)
      requires Valid()
      modifies this, vault
      ensures Valid() && Outcome(State(), ok) == OnClientGone(old(State()), setting, ids, old(active))
    {
      hide Emit, Terminal;
      ok := true;
      var snapshot := active;
      var i := 0;
      while i < |snapshot|
        invariant Valid() && ok && i <= |snapshot| && Indices(State(), snapshot[i..])
        invariant OnClientGone(old(State()), setting, ids, old(active)) == OnClientGone(State(), setting, ids, snapshot[i..])
      {
        assert snapshot[i..][1..] == snapshot[i + 1..];
        var id := flows[snapshot[i..][0]].id;
        if id in ids {
          ok := Record(id, FlowEvent.ClientDisconnected, true);
          if !ok {
            return;
          }
          ok := End(id, ClientClosedBeforeTerminal);
          if !ok {
            return;
          }
        }
        i := i + 1;
      }
    }

    method ServerDisconnected(ids: set<FlowId>) returns (ok: bool)
      requires Valid()
      modifies this, vault
      ensures Valid() && Outcome(State(), ok) == OnServerGone(old(State()), setting, ids, old(active))
    {
      hide Emit;
      ok := true;
      var snapshot := active;
      var i := 0;
      while i < |snapshot|
        invariant Valid() && ok && i <= |snapshot| && Indices(State(), snapshot[i..])
        invariant OnServerGone(old(State()), setting, ids, old(active)) == OnServerGone(State(), setting, ids, snapshot[i..])
      {
        assert snapshot[i..][1..] == snapshot[i + 1..];
        var id := flows[snapshot[i..][0]].id;
        if id in ids {
          ok := Record(id, FlowEvent.ServerDisconnected, true);
          if !ok {
            return;
          }
        }
        i := i + 1;
      }
    }

    method Done() returns (ok: bool)
      requires Valid()
      modifies this, vault
      ensures Valid() && Outcome(State(), ok) == OnDone(old(State()), setting)
    {
      hide Terminal, CloseVault;
      ok := true;
      var snapshot := active;
      var i := 0;
      while i < |snapshot|
        invariant Valid() && ok && i <= |snapshot| && Indices(State(), snapshot[i..])
        invariant EndAll(old(State()), setting, old(active)) == EndAll(State(), setting, snapshot[i..])
      {
        assert snapshot[i..][1..] == snapshot[i + 1..];
        ok := End(flows[snapshot[i..][0]].id, StoppedBeforeCompletion);
        if !ok {
          return;
        }
        i := i + 1;
      }
      ok := vault.Close(failed, setting.disk(vault.sequence));
    }

    /** One callback, whichever it is. */
    method Take(step: Step) returns (ok: bool)
      requires Valid()
      modifies this, vault
      ensures Valid() && Outcome(State(), ok) == Next(old(State()), setting, step)
    {
      hide OnRequestHeaders, Note, NoteAndEnd, OnResponseHead, OnChunk, OnResponseEnd, OnSocketStart, OnClientGone, OnServerGone, OnDone;
      match step {
        case RequestHeaders(id, target) => ok := RequestHeaders(id, target);
        case RequestBody(id) => ok := Remark(id, RequestComplete, true);
        case ResponseHead(id, upgrade, transformed) => ok := ResponseHeaders(id, upgrade, transformed);
        case Chunk(k, length) => ok := Stream(k, length);
        case ResponseEnd(id) => ok := Response(id);
        case SocketStart(id) => ok := WebsocketStart(id);
        case SocketMessage(id) => ok := Remark(id, WebsocketMessage, false);
        case SocketEnd(id) => ok := RemarkAndEnd(id, WebsocketEnd, WebsocketClosed);
        case ClientGone(ids) => ok := ClientDisconnected(ids);
        case ServerGone(ids) => ok := ServerDisconnected(ids);
        case FlowError(id) => ok := RemarkAndEnd(id, HttpError, ErrorOrCancellation);
        case Done => ok := Done();
      }
    }
  }
}
