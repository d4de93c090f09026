/**
 * The proxy tool broker (apps/agent-runtime/src/proxy-tools.ts).
 *
 * Calls of `Execute` are numbered in order; `settled` lists the numbers of the calls whose promise
 * has been resolved or rejected. The emitter neither throws nor calls back into the broker.
 */
module ToolBroker {
  import opened Wrappers
  import opened ToolTranscript
  import opened ToolArguments

  const MAX_CANCELLED := 256

  datatype Record =
    | ToolRequest(requestId: string, toolCallId: string, operation: string, input: Json)
    | ToolCancel(requestId: string, reason: string)

  /** An entry of the pending map, in insertion order. */
  datatype PendingCall = PendingCall(requestId: string, call: nat)

  datatype Settlement = Settlement(call: nat, ok: bool)

  datatype Broker = Broker(
    pending: seq<PendingCall>,
    cancelled: seq<string>,
    issued: set<string>,
    fallbackUses: map<string, nat>,
    emitted: seq<Record>,
    calls: nat,
    settled: seq<Settlement>)

  datatype Thrown = UnknownResult | UnknownCancel | ResultLimit

  function Init(): Broker {
    Broker([], [], {}, map[], [], 0, [])
  }

  // ---------------------------------------------------------------- choosing a request id

  function OfId(calls: seq<TranscriptCall>, id: string): seq<TranscriptCall> {
    if calls == [] then []
    else OfId(calls[..|calls| - 1], id) + (if calls[|calls| - 1].toolCallId == id then [calls[|calls| - 1]] else [])
  }

  function OfMessage(calls: seq<TranscriptCall>, message: nat): seq<TranscriptCall> {
    if calls == [] then []
    else
      OfMessage(calls[..|calls| - 1], message)
        + (if calls[|calls| - 1].message == message then [calls[|calls| - 1]] else [])
  }

  /** The blocks of the latest assistant message that has the id. */
  function LatestBlocks(calls: seq<TranscriptCall>, id: string): seq<TranscriptCall> {
    var own := OfId(calls, id);
    if own == [] then [] else OfMessage(own, own[|own| - 1].message)
  }

  function NotIssued(calls: seq<TranscriptCall>, issued: set<string>): seq<TranscriptCall> {
    if calls == [] then []
    else if calls[0].requestId in issued then NotIssued(calls[1..], issued)
    else [calls[0]] + NotIssued(calls[1..], issued)
  }

  /** The first block with the executed arguments. */
  function FirstMatch(calls: seq<TranscriptCall>, arguments: Json): (i: nat)
    ensures i <= |calls|
    ensures i < |calls| ==> SameArguments(calls[i].arguments, arguments)
    ensures forall j | 0 <= j < i :: !SameArguments(calls[j].arguments, arguments)
  {
    if calls == [] || SameArguments(calls[0].arguments, arguments) then 0 else 1 + FirstMatch(calls[1..], arguments)
  }

  /** The block chosen for an execution: one with its arguments if there is one, else the first. */
  function Choose(candidates: seq<TranscriptCall>, arguments: Json): Option<TranscriptCall> {
    var i := FirstMatch(candidates, arguments);
    if i < |candidates| then Some(candidates[i])
    else if candidates != [] then Some(candidates[0])
    else None
  }

  // ---------------------------------------------------------------- the operations

  function IndexOf(pending: seq<PendingCall>, requestId: string): (i: nat)
    ensures i <= |pending| && (i < |pending| ==> pending[i].requestId == requestId)
    ensures forall j | 0 <= j < i :: pending[j].requestId != requestId
  {
    if pending == [] || pending[0].requestId == requestId then 0 else 1 + IndexOf(pending[1..], requestId)
  }

  predicate IsPending(b: Broker, requestId: string) {
    IndexOf(b.pending, requestId) < |b.pending|
  }

  /** `Set.delete` on a set kept in insertion order. */
  function Delete(ids: seq<string>, id: string): seq<string> {
    if ids == [] then [] else if ids[0] == id then ids[1..] else [ids[0]] + Delete(ids[1..], id)
  }

  /** Remembers a cancelled id, forgetting the oldest over the limit; an empty oldest id would stay. */
  function Remember(cancelled: seq<string>, id: string): seq<string> {
    var added := if id in cancelled then cancelled else cancelled + [id];
    if |added| <= MAX_CANCELLED || added[0] == "" then added else Delete(added, added[0])
  }

  function Forget(b: Broker, requestId: string): Broker {
    b.(cancelled := Delete(b.cancelled, requestId))
  }

  /** Takes a call out of the pending map and settles its promise. */
  function Settle(b: Broker, i: nat, ok: bool): Broker
    requires i < |b.pending|
  {
    b.(pending := b.pending[..i] + b.pending[i + 1..], settled := b.settled + [Settlement(b.pending[i].call, ok)])
  }

  function SettleCancelled(b: Broker, i: nat): Broker
    requires i < |b.pending|
  {
    Settle(b, i, false).(cancelled := Remember(b.cancelled, b.pending[i].requestId))
  }

  function SettleError(b: Broker, requestId: string): (Broker, Option<Thrown>) {
    if IsPending(b, requestId) then (SettleCancelled(b, IndexOf(b.pending, requestId)), None)
    else if requestId in b.cancelled then (Forget(b, requestId), None)
    else (b, Some(UnknownCancel))
  }

  function AcceptResult(b: Broker, requestId: string, tooLarge: bool, final: bool,
          isError: bool): (Broker, Option<Thrown>) {
    if !IsPending(b, requestId) then
      if requestId in b.cancelled then (Forget(b, requestId), None) else (b, Some(UnknownResult))
    else
      var i := IndexOf(b.pending, requestId);
      if tooLarge then (SettleCancelled(b, i), Some(ResultLimit))
      else if final then (Settle(b, i, !isError), None)
      else if isError then (SettleCancelled(b, i), None)
      else (b, None)
  }

  function CancelAll(b: Broker, reason: string): Broker
    decreases |b.pending|
  {
    if b.pending == [] then b
    else CancelAll(SettleCancelled(b, 0).(emitted := b.emitted + [ToolCancel(b.pending[0].requestId, reason)]), reason)
  }

  /** The abort listener of a call: it is removed when the call settles. */
  function Abort(b: Broker, requestId: string): Broker {
    if !IsPending(b, requestId) then b
    else
      SettleCancelled(b, IndexOf(b.pending, requestId)).(
        emitted := b.emitted + [ToolCancel(requestId, "agent tool call aborted")])
  }

  function Candidates(b: Broker, hash: string -> string, id: string,
          transcript: Option<seq<Message>>): seq<TranscriptCall> {
    NotIssued(LatestBlocks(if transcript.Some? then TranscriptCalls(hash, transcript.value) else [], id), b.issued)
  }

  /** The request id of an execution, and the broker that has issued it. */
  function RequestIdFor(b: Broker, hash: string -> string, id: string, params: Json,
          transcript: Option<seq<Message>>): (string, Broker) {
    var chosen := Choose(Candidates(b, hash, id, transcript), params);
    if chosen.Some? then (chosen.value.requestId, b.(issued := b.issued + {chosen.value.requestId}))
    else
      var base := BoundedId(hash, id);
      var index := if base in b.fallbackUses then b.fallbackUses[base] else 0;
      var requestId := ProxyRequestId(hash, id, index);
      (requestId, b.(issued := b.issued + {requestId}, fallbackUses := b.fallbackUses[base := index + 1]))
  }

  /** A new call, settled at once: it was aborted, or it is already in flight. */
  function Refuse(b: Broker): Broker {
    b.(calls := b.calls + 1, settled := b.settled + [Settlement(b.calls, false)])
  }

  function Execute(b: Broker, hash: string -> string, operation: string, id: string, params: Json,
          transcript: Option<seq<Message>>, aborted: bool): Broker {
    if aborted then Refuse(b)
    else
      var (requestId, issued) := RequestIdFor(b, hash, id, params, transcript);
      Proxy(issued, ToolRequest(requestId, BoundedId(hash, id), operation, params))
  }

  /** Proxies a call under a request id that is not in flight. */
  function Proxy(b: Broker, request: Record): Broker
    requires request.ToolRequest?
  {
    if IsPending(b, request.requestId) then Refuse(b)
    else b.(
      cancelled := Delete(b.cancelled, request.requestId),
      pending := b.pending + [PendingCall(request.requestId, b.calls)],
      calls := b.calls + 1,
      emitted := b.emitted + [request])
  }

  datatype Op =
    | ExecuteOp(operation: string, id: string, params: Json, transcript: Option<seq<Message>>, aborted: bool)
    | ResultOp(requestId: string, tooLarge: bool, final: bool, isError: bool)
    | CancelOp(requestId: string)
    | CancelAllOp(reason: string)
    | AbortOp(requestId: string)

  function Apply(b: Broker, hash: string -> string, op: Op): Broker {
    match op
    case ExecuteOp(operation, id, params, transcript, aborted) =>
      Execute(b, hash, operation, id, params, transcript, aborted)
    case ResultOp(requestId, tooLarge, final, isError) => AcceptResult(b, requestId, tooLarge, final, isError).0
    case CancelOp(requestId) => SettleError(b, requestId).0
    case CancelAllOp(reason) => CancelAll(b, reason)
    case AbortOp(requestId) => Abort(b, requestId)
  }

  function Run(b: Broker, hash: string -> string, ops: seq<Op>): Broker
    decreases |ops|
  {
    if ops == [] then b else Run(Apply(b, hash, ops[0]), hash, ops[1..])
  }

  // ---------------------------------------------------------------- the object

  class ProxyToolBroker {
    const hash: string -> string
    var pending: seq<PendingCall>
    var cancelled: seq<string>
    var issued: set<string>
    var fallbackUses: map<string, nat>
    var emitted: seq<Record>
    var calls: nat
    var settled: seq<Settlement>

    function State(): Broker
      reads this
    {
      Broker(pending, cancelled, issued, fallbackUses, emitted, calls, settled)
    }

    constructor (hash: string -> string)
      ensures State() == Init() && this.hash == hash
    {
      this.hash := hash;
      pending, cancelled, issued, fallbackUses := [], [], {}, map[];
      emitted, calls, settled := [], 0, [];
    }

    /** Takes a call out of the pending map and settles its promise. */
    method SettleCall(i: nat, ok: bool)
      requires i < |pending|
      modifies this
      ensures State() == Settle(old(State()), i, ok)
    {
      settled := settled + [Settlement(pending[i].call, ok)];
      pending := pending[..i] + pending[i + 1..];
    }

    method RememberCancelled(requestId: string)
      modifies this`cancelled
      ensures cancelled == Remember(old(cancelled), requestId)
    {
      if requestId !in cancelled {
        cancelled := cancelled + [requestId];
      }
      if |cancelled| <= MAX_CANCELLED {
        return;
      }
      var oldest := cancelled[0];
      if oldest != "" {
        cancelled := Delete(cancelled, oldest);
      }
    }

    method SettleWithError(requestId: string) returns (thrown: Option<Thrown>)
      modifies this
      ensures (State(), thrown) == SettleError(old(State()), requestId)
    {
      var i := IndexOf(pending, requestId);
      if i == |pending| {
        if requestId in cancelled {
          cancelled := Delete(cancelled, requestId);
          return None;
        }
        return Some(UnknownCancel);
      }
      RememberCancelled(requestId);
      SettleCall(i, false);
      thrown := None;
    }

    method ReceiveResult(requestId: string, tooLarge: bool, final: bool, isError: bool) returns (thrown: Option<Thrown>)
      modifies this
      ensures (State(), thrown) == AcceptResult(old(State()), requestId, tooLarge, final, isError)
    {
      var i := IndexOf(pending, requestId);
      if i == |pending| {
        if requestId in cancelled {
          cancelled := Delete(cancelled, requestId);
          return None;
        }
        return Some(UnknownResult);
      }
      if tooLarge {
        thrown := SettleWithError(requestId);
        return Some(ResultLimit);
      }
      if !final {
        if isError {
          thrown := SettleWithError(requestId);
        }
        return None;
      }
      SettleCall(i, !isError);
      thrown := None;
    }

    /** Cancels the calls that are pending on entry, one after the other. */
    method CancelEverything(reason: string)
      modifies this
      ensures State() == CancelAll(old(State()), reason)
    {
      while pending != []
        invariant CancelAll(State(), reason) == CancelAll(old(State()), reason)
        decreases |pending|
      {
        var requestId := pending[0].requestId;
        emitted := emitted + [ToolCancel(requestId, reason)];
        var thrown := SettleWithError(requestId);
      }
    }

    method AbortCall(requestId: string)
      modifies this
      ensures State() == Abort(old(State()), requestId)
    {
      var i := IndexOf(pending, requestId);
      if i == |pending| {
        return;
      }
      RememberCancelled(requestId);
      emitted := emitted + [ToolCancel(requestId, "agent tool call aborted")];
      SettleCall(i, false);
    }

    method ChooseRequestId(id: string, params: Json, transcript: Option<seq<Message>>) returns (requestId: string)
      modifies this`issued, this`fallbackUses
      ensures (requestId, State()) == RequestIdFor(old(State()), hash, id, params, transcript)
    {
      var recorded: seq<TranscriptCall> := [];
      if transcript.Some? {
        recorded := TranscriptToolCalls(hash, transcript.value);
      }
      var candidates := NotIssued(LatestBlocks(recorded, id), issued);
      assert candidates == Candidates(State(), hash, id, transcript);
      var chosen := Choose(candidates, params);
      if chosen.Some? {
        requestId := chosen.value.requestId;
      } else {
        var base := BoundedId(hash, id);
        var index := if base in fallbackUses then fallbackUses[base] else 0;
        fallbackUses := fallbackUses[base := index + 1];
        requestId := ProxyRequestId(hash, id, index);
      }
      issued := issued + {requestId};
    }

    method ExecuteCall(operation: string, id: string, params: Json, transcript: Option<seq<Message>>, aborted: bool)
      modifies this
      ensures State() == Execute(old(State()), hash, operation, id, params, transcript, aborted)
    {
      if aborted {
        RejectCall();
        return;
      }
      var requestId := ChooseRequestId(id, params, transcript);
      ProxyCall(ToolRequest(requestId, BoundedId(hash, id), operation, params));
    }

    method RejectCall()
      modifies this
      ensures State() == Refuse(old(State()))
    {
      settled := settled + [Settlement(calls, false)];
      calls := calls + 1;
    }

    method ProxyCall(request: Record)
      requires request.ToolRequest?
      modifies this
      ensures State() == Proxy(old(State()), request)
    {
      if IndexOf(pending, request.requestId) < |pending| {
        RejectCall();
        return;
      }
      cancelled := Delete(cancelled, request.requestId);
      pending := pending + [PendingCall(request.requestId, calls)];
      calls := calls + 1;
      emitted := emitted + [request];
    }
  }
}
