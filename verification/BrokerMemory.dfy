/** What becomes of requests, and which the broker remembers as cancelled (apps/agent-runtime/src/proxy-tools.ts). */
module BrokerMemory {
  import opened Wrappers
  import opened ToolTranscript
  import opened ToolBroker
  import opened BrokerGuarantees

  /** The id is one of the last `m` remembered. */
  predicate InLast(cancelled: seq<string>, id: string, m: nat) {
    id in cancelled[if m <= |cancelled| then |cancelled| - m else 0..]
  }

  /** The set keeps its order, takes a new id in last, and lets the oldest go for it once it holds 256. */
  lemma RememberExact(cancelled: seq<string>, id: string)
    requires NoRepeats(cancelled) && "" !in cancelled && |cancelled| <= 256 && id != ""
    ensures Remember(cancelled, id) ==
      if id in cancelled then cancelled
      else if |cancelled| < 256 then cancelled + [id]
      else cancelled[1..] + [id]
  {
    if id !in cancelled && |cancelled| == 256 {
      assert (cancelled + [id])[1..] == cancelled[1..] + [id];
    }
  }

  /** An id stays while fewer than 256 others are remembered after it. */
  lemma StaysRemembered(cancelled: seq<string>, id: string, other: string, m: nat)
    requires NoRepeats(cancelled) && "" !in cancelled && |cancelled| <= 256 && other != ""
    requires InLast(cancelled, id, m) && m < 256
    ensures InLast(Remember(cancelled, other), id, m + 1)
  {
    RememberExact(cancelled, other);
    var from := if m <= |cancelled| then |cancelled| - m else 0;
    var k :| from <= k < |cancelled| && cancelled[k] == id;
    var next := Remember(cancelled, other);
    var place := if other in cancelled || |cancelled| < 256 then k else k - 1;
    assert next[place] == id;
    var start := if m + 1 <= |next| then |next| - (m + 1) else 0;
    assert start <= place;
    assert next[start..][place - start] == id;
  }

  /** How a call in flight can be cancelled. */
  predicate Cancels(op: Op, id: string) {
    match op
    case AbortOp(requestId) => requestId == id
    case CancelOp(requestId) => requestId == id
    case ResultOp(requestId, tooLarge, final, isError) => requestId == id && (tooLarge || (isError && !final))
    case _ => false
  }

  lemma SettledIsLast(b: Broker, i: nat)
    requires BrokerInv(b) && i < |b.pending|
    ensures var id := b.pending[i].requestId; var next := SettleCancelled(b, i);
      && id !in b.cancelled && next.cancelled != [] && next.cancelled[|next.cancelled| - 1] == id
      && (|b.cancelled| < 256 ==> b.cancelled <= next.cancelled)
  {
    assert b.pending[i] in b.pending;
    RememberExact(b.cancelled, b.pending[i].requestId);
  }

  lemma PendingIndex(b: Broker, call: PendingCall)
    requires BrokerInv(b) && call in b.pending
    ensures IndexOf(b.pending, call.requestId) < |b.pending| && b.pending[IndexOf(b.pending, call.requestId)] == call
  {
    var i :| 0 <= i < |b.pending| && b.pending[i] == call;
    assert b.pending[i].requestId == call.requestId;
  }

  lemma CancelledIsNotPending(pending: seq<PendingCall>, cancelled: seq<string>, id: string)
    requires IdsValid(pending, cancelled) && id in cancelled
    ensures IndexOf(pending, id) == |pending|
  {
    forall i | 0 <= i < |pending| ensures pending[i].requestId != id {
      assert pending[i] in pending;
    }
  }

  /**
   * A call in flight that is aborted, cancelled, or refused by an error or for its size, is remembered last: a result
   * or a cancellation that comes late for it is absorbed, and forgets it. Nothing else is forgotten for it unless 256
   * are remembered already.
   */
  lemma CancelledIsAbsorbed(b: Broker, hash: string -> string, op: Op, call: PendingCall, tooLarge: bool, final: bool,
          isError: bool)
    requires BrokerInv(b) && call in b.pending && Cancels(op, call.requestId)
    ensures var next := Apply(b, hash, op);
      && InLast(next.cancelled, call.requestId, 1) && (|b.cancelled| < 256 ==> b.cancelled <= next.cancelled)
      && AcceptResult(next, call.requestId, tooLarge, final, isError).1.None?
      && SettleError(next, call.requestId).1.None?
      && call.requestId !in AcceptResult(next, call.requestId, tooLarge, final, isError).0.cancelled
  {
    PendingIndex(b, call);
    var i := IndexOf(b.pending, call.requestId);
    SettledIsLast(b, i);
    SettleCancelledInv(b, i);
    var next := Apply(b, hash, op);
    assert next.cancelled == SettleCancelled(b, i).cancelled && next.pending == SettleCancelled(b, i).pending;
    assert next.cancelled[|next.cancelled| - 1] == call.requestId;
    LateIsAbsorbed(next, call.requestId, tooLarge, final, isError);
  }

  lemma LateIsAbsorbed(b: Broker, id: string, tooLarge: bool, final: bool, isError: bool)
    requires IdsValid(b.pending, b.cancelled) && id in b.cancelled
    ensures AcceptResult(b, id, tooLarge, final, isError).1.None? && SettleError(b, id).1.None?
    ensures id !in AcceptResult(b, id, tooLarge, final, isError).0.cancelled
  {
    CancelledIsNotPending(b.pending, b.cancelled, id);
    DeleteFacts(b.cancelled, id);
  }

  /** A call that got its final result is not remembered: whatever comes late for it is refused. */
  lemma FinishedIsRefused(b: Broker, call: PendingCall, failed: bool, tooLarge: bool, final: bool, isError: bool)
    requires BrokerInv(b) && call in b.pending
    ensures var next := AcceptResult(b, call.requestId, false, true, failed).0;
      && next.cancelled == b.cancelled
      && AcceptResult(next, call.requestId, tooLarge, final, isError) == (next, Some(UnknownResult))
      && SettleError(next, call.requestId) == (next, Some(UnknownCancel))
  {
    PendingIndex(b, call);
    var i := IndexOf(b.pending, call.requestId);
    var next := Settle(b, i, !failed);
    assert call.requestId !in b.cancelled;
    SettledIsGone(b.pending, i, call.requestId);
  }

  lemma {:induction false} CancelAllKeeps(b: Broker, reason: string, id: string, m: nat)
    requires BrokerInv(b) && InLast(b.cancelled, id, m) && m + |b.pending| <= 256
    ensures InLast(CancelAll(b, reason).cancelled, id, m + |b.pending|)
    decreases |b.pending|
  {
    if b.pending != [] {
      assert b.pending[0] in b.pending;
      StaysRemembered(b.cancelled, id, b.pending[0].requestId, m);
      SettleCancelledInv(b, 0);
      var next := SettleCancelled(b, 0).(emitted := b.emitted + [ToolCancel(b.pending[0].requestId, reason)]);
      CancelAllKeeps(next, reason, id, m + 1);
    }
  }

  /** When all calls in flight are cancelled, the last 256 of them are remembered. */
  lemma {:induction false} CancelAllRemembers(b: Broker, reason: string, k: nat)
    requires BrokerInv(b) && k < |b.pending| && |b.pending| - k <= 256
    ensures b.pending[k].requestId in CancelAll(b, reason).cancelled
    decreases |b.pending|
  {
    if k > 0 {
      SettleCancelledInv(b, 0);
      var next := SettleCancelled(b, 0).(emitted := b.emitted + [ToolCancel(b.pending[0].requestId, reason)]);
      CancelAllRemembers(next, reason, k - 1);
      assert next.pending[k - 1] == b.pending[k];
    } else {
      FirstIsRemembered(b, reason);
    }
  }

  lemma FirstIsRemembered(b: Broker, reason: string)
    requires BrokerInv(b) && 1 <= |b.pending| <= 256
    ensures b.pending[0].requestId in CancelAll(b, reason).cancelled
  {
    var id := b.pending[0].requestId;
    var next := SettleCancelled(b, 0).(emitted := b.emitted + [ToolCancel(id, reason)]);
    SettleCancelledInv(b, 0);
    SettledIsLast(b, 0);
    assert next.cancelled[|next.cancelled| - 1] == id;
    CancelAllKeeps(next, reason, id, 1);
  }

  // ---------------------------------------------------------------- every request comes to one end

  /** The runner ends a call in flight: with a result that is final, failed or too large, or by cancelling it. */
  predicate RunnerEnds(b: Broker, op: Op, id: string) {
    IsPending(b, id) && match op
      case ResultOp(requestId, tooLarge, final, isError) => requestId == id && (tooLarge || final || isError)
      case CancelOp(requestId) => requestId == id
      case _ => false
  }

  function RunnerEnded(b: Broker, hash: string -> string, ops: seq<Op>, id: string): nat
    decreases |ops|
  {
    if ops == [] then 0
    else RunnerEnded(Apply(b, hash, ops[0]), hash, ops[1..], id) + (if RunnerEnds(b, ops[0], id) then 1 else 0)
  }

  /** The requests under an id that are neither in flight nor were asked to be cancelled. */
  function Answered(b: Broker, id: string): int {
    CountRequests(b.emitted, id) - CountCancels(b.emitted, id) - InFlight(b.pending, id)
  }

  lemma TakenOutAnswers(b: Broker, i: nat, ok: bool, id: string)
    requires DistinctPending(b.pending) && i < |b.pending|
    ensures DistinctPending(Settle(b, i, ok).pending)
    ensures Answered(Settle(b, i, ok), id) == Answered(b, id) + (if id == b.pending[i].requestId then 1 else 0)
  {
    SettledIsGone(b.pending, i, id);
    if id == b.pending[i].requestId {
      assert InFlight(b.pending, id) == 1;
    }
  }

  /** Taken out and asked to be cancelled. */
  lemma CancelledAnswers(b: Broker, i: nat, reason: string, id: string)
    requires DistinctPending(b.pending) && i < |b.pending|
    ensures var next := SettleCancelled(b, i).(emitted := b.emitted + [ToolCancel(b.pending[i].requestId, reason)]);
      DistinctPending(next.pending) && Answered(next, id) == Answered(b, id)
  {
    TakenOutAnswers(b, i, false, id);
    CountsAppend(b.emitted, ToolCancel(b.pending[i].requestId, reason), id);
  }

  lemma {:induction false} CancelAllAnswers(b: Broker, reason: string, id: string)
    requires DistinctPending(b.pending)
    ensures DistinctPending(CancelAll(b, reason).pending) && Answered(CancelAll(b, reason), id) == Answered(b, id)
    decreases |b.pending|
  {
    if b.pending != [] {
      CancelledAnswers(b, 0, reason, id);
      CancelAllAnswers(SettleCancelled(b, 0).(emitted := b.emitted + [ToolCancel(b.pending[0].requestId, reason)]),
        reason, id);
    }
  }

  lemma ProxyAnswers(b: Broker, request: Record, id: string)
    requires DistinctPending(b.pending) && request.ToolRequest?
    ensures DistinctPending(Proxy(b, request).pending) && Answered(Proxy(b, request), id) == Answered(b, id)
  {
    if !IsPending(b, request.requestId) {
      RequestAnswers(b, Proxy(b, request), request, id);
    }
  }

  lemma RequestAnswers(b: Broker, next: Broker, request: Record, id: string)
    requires DistinctPending(b.pending) && request.ToolRequest? && !IsPending(b, request.requestId)
    requires next.emitted == b.emitted + [request]
    requires next.pending == b.pending + [PendingCall(request.requestId, b.calls)]
    ensures DistinctPending(next.pending) && Answered(next, id) == Answered(b, id)
  {
    CountsAppend(b.emitted, request, id);
    AddedInFlight(b.pending, PendingCall(request.requestId, b.calls), id);
  }

  lemma AddedInFlight(pending: seq<PendingCall>, call: PendingCall, id: string)
    requires DistinctPending(pending) && IndexOf(pending, call.requestId) == |pending|
    ensures DistinctPending(pending + [call])
    ensures InFlight(pending + [call], id) == InFlight(pending, id) + (if id == call.requestId then 1 else 0)
  {
    var all := pending + [call];
    assert all[|pending|] == call;
    if IndexOf(pending, id) < |pending| {
      assert all[IndexOf(pending, id)].requestId == id;
    }
    if IndexOf(all, id) < |pending| {
      assert pending[IndexOf(all, id)].requestId == id;
    }
  }

  lemma ExecutionAnswers(b: Broker, hash: string -> string, op: Op, id: string)
    requires DistinctPending(b.pending) && op.ExecuteOp?
    ensures var next := Apply(b, hash, op);
      DistinctPending(next.pending) && Answered(next, id) == Answered(b, id)
  {
    if !op.aborted {
      var (requestId, issued) := RequestIdFor(b, hash, op.id, op.params, op.transcript);
      ProxyAnswers(issued, ToolRequest(requestId, BoundedId(hash, op.id), op.operation, op.params), id);
    }
  }

  lemma StepAnswers(b: Broker, hash: string -> string, op: Op, id: string)
    requires DistinctPending(b.pending)
    ensures var next := Apply(b, hash, op);
      DistinctPending(next.pending) && Answered(next, id) == Answered(b, id) + (if RunnerEnds(b, op, id) then 1 else 0)
  {
    match op
    case ExecuteOp(_, _, _, _, _) => ExecutionAnswers(b, hash, op, id);
    case ResultOp(requestId, _, _, isError) =>
      if IsPending(b, requestId) {
        TakenOutAnswers(b, IndexOf(b.pending, requestId), !isError, id);
        TakenOutAnswers(b, IndexOf(b.pending, requestId), false, id);
      }
    case CancelOp(requestId) =>
      if IsPending(b, requestId) {
        TakenOutAnswers(b, IndexOf(b.pending, requestId), false, id);
      }
    case CancelAllOp(reason) => CancelAllAnswers(b, reason, id);
    case AbortOp(requestId) =>
      if IsPending(b, requestId) {
        CancelledAnswers(b, IndexOf(b.pending, requestId), "agent tool call aborted", id);
      }
  }

  lemma {:induction false} RunAnswers(b: Broker, hash: string -> string, ops: seq<Op>, id: string)
    requires DistinctPending(b.pending)
    ensures Answered(Run(b, hash, ops), id) == Answered(b, id) + RunnerEnded(b, hash, ops, id)
    decreases |ops|
  {
    if ops != [] {
      StepAnswers(b, hash, ops[0], id);
      RunAnswers(Apply(b, hash, ops[0]), hash, ops[1..], id);
    }
  }

  /**
   * Over every run, the requests emitted under an id are exactly those in flight, those asked to be cancelled, and
   * those that the runner ended: each comes to one end.
   */
  lemma RequestsAreConserved(hash: string -> string, ops: seq<Op>, id: string)
    ensures var b := Run(Init(), hash, ops);
      CountRequests(b.emitted, id)
        == InFlight(b.pending, id) + CountCancels(b.emitted, id) + RunnerEnded(Init(), hash, ops, id)
  {
    RunAnswers(Init(), hash, ops, id);
    assert Init().pending == [] && Init().emitted == [];
  }
}
