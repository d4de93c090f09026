/** What holds of the proxy tool broker in every run (apps/agent-runtime/src/proxy-tools.ts). */
module BrokerGuarantees {
  import opened Wrappers
  import opened ToolTranscript
  import opened ToolArguments
  import opened ToolBroker
  import opened ToolPairing

  // ---------------------------------------------------------------- the broker invariant

  function CountPending(pending: seq<PendingCall>, call: nat): nat {
    if pending == [] then 0 else CountPending(pending[1..], call) + (if pending[0].call == call then 1 else 0)
  }

  function CountSettled(settled: seq<Settlement>, call: nat): nat {
    if settled == [] then 0
    else CountSettled(settled[..|settled| - 1], call) + (if settled[|settled| - 1].call == call then 1 else 0)
  }

  ghost predicate NoRepeats(ids: seq<string>) {
    forall i, j | 0 <= i < j < |ids| :: ids[i] != ids[j]
  }

  /** Pending and cancelled ids are disjoint, and at most 256 cancelled ids are kept. */
  ghost predicate IdsValid(pending: seq<PendingCall>, cancelled: seq<string>) {
    && (forall i, j | 0 <= i < j < |pending| :: pending[i].requestId != pending[j].requestId)
    && (forall e | e in pending :: e.requestId != "" && e.requestId !in cancelled)
    && NoRepeats(cancelled) && "" !in cancelled && |cancelled| <= MAX_CANCELLED
  }

  /** Every call so far is either pending or settled, once. */
  ghost predicate Conserved(pending: seq<PendingCall>, settled: seq<Settlement>, calls: nat) {
    forall n: nat :: CountPending(pending, n) + CountSettled(settled, n) == if n < calls then 1 else 0
  }

  ghost predicate BrokerInv(b: Broker) {
    IdsValid(b.pending, b.cancelled) && Conserved(b.pending, b.settled, b.calls)
  }

  lemma {:induction false} DeleteFacts(ids: seq<string>, id: string)
    requires NoRepeats(ids)
    ensures NoRepeats(Delete(ids, id)) && |Delete(ids, id)| <= |ids|
    ensures id in ids ==> |Delete(ids, id)| == |ids| - 1
    ensures forall x :: x in Delete(ids, id) <==> x in ids && x != id
  {
    if ids != [] {
      assert ids == [ids[0]] + ids[1..];
      assert ids[0] !in ids[1..];
      if ids[0] != id {
        DeleteFacts(ids[1..], id);
      }
    }
  }

  lemma RememberFacts(cancelled: seq<string>, id: string)
    requires NoRepeats(cancelled) && "" !in cancelled && |cancelled| <= MAX_CANCELLED && id != ""
    ensures NoRepeats(Remember(cancelled, id)) && "" !in Remember(cancelled, id)
      && |Remember(cancelled, id)| <= MAX_CANCELLED
    ensures forall x | x in Remember(cancelled, id) :: x == id || x in cancelled
    ensures id in Remember(cancelled, id)
  {
    var added := if id in cancelled then cancelled else cancelled + [id];
    if |added| > MAX_CANCELLED {
      assert added[0] == cancelled[0];
      DeleteFacts(added, added[0]);
    }
  }

  lemma {:induction false} CountPendingRemove(pending: seq<PendingCall>, i: nat, n: nat)
    requires i < |pending|
    ensures CountPending(pending, n)
      == CountPending(pending[..i] + pending[i + 1..], n) + (if pending[i].call == n then 1 else 0)
  {
    if i == 0 {
      assert pending[..0] + pending[1..] == pending[1..];
    } else {
      CountPendingRemove(pending[1..], i - 1, n);
      var rest := pending[1..][..i - 1] + pending[1..][i..];
      assert pending[..i] + pending[i + 1..] == [pending[0]] + rest;
      assert ([pending[0]] + rest)[1..] == rest;
    }
  }

  lemma {:induction false} CountPendingAppend(pending: seq<PendingCall>, e: PendingCall, n: nat)
    ensures CountPending(pending + [e], n) == CountPending(pending, n) + (if e.call == n then 1 else 0)
  {
    if pending == [] {
      assert pending + [e] == [e];
    } else {
      CountPendingAppend(pending[1..], e, n);
      assert (pending + [e])[1..] == pending[1..] + [e];
    }
  }

  lemma CountSettledAppend(settled: seq<Settlement>, x: Settlement, n: nat)
    ensures CountSettled(settled + [x], n) == CountSettled(settled, n) + (if x.call == n then 1 else 0)
  {
    assert (settled + [x])[..|settled|] == settled;
  }

  lemma SettleConserves(pending: seq<PendingCall>, settled: seq<Settlement>, calls: nat, i: nat, ok: bool)
    requires Conserved(pending, settled, calls) && i < |pending|
    ensures Conserved(pending[..i] + pending[i + 1..], settled + [Settlement(pending[i].call, ok)], calls)
  {
    forall n: nat
      ensures CountPending(pending[..i] + pending[i + 1..], n)
        + CountSettled(settled + [Settlement(pending[i].call, ok)], n) == if n < calls then 1 else 0
    {
      CountPendingRemove(pending, i, n);
      CountSettledAppend(settled, Settlement(pending[i].call, ok), n);
    }
  }

  lemma RefuseConserves(pending: seq<PendingCall>, settled: seq<Settlement>, calls: nat)
    requires Conserved(pending, settled, calls)
    ensures Conserved(pending, settled + [Settlement(calls, false)], calls + 1)
  {
    forall n: nat
      ensures CountPending(pending, n) + CountSettled(settled + [Settlement(calls, false)], n)
        == if n < calls + 1 then 1 else 0
    {
      CountSettledAppend(settled, Settlement(calls, false), n);
    }
  }

  lemma AddConserves(pending: seq<PendingCall>, settled: seq<Settlement>, calls: nat, requestId: string)
    requires Conserved(pending, settled, calls)
    ensures Conserved(pending + [PendingCall(requestId, calls)], settled, calls + 1)
  {
    forall n: nat
      ensures CountPending(pending + [PendingCall(requestId, calls)], n) + CountSettled(settled, n)
        == if n < calls + 1 then 1 else 0
    {
      CountPendingAppend(pending, PendingCall(requestId, calls), n);
    }
  }

  lemma RemoveIds(pending: seq<PendingCall>, i: nat, cancelled: seq<string>)
    requires IdsValid(pending, cancelled) && i < |pending|
    ensures IdsValid(pending[..i] + pending[i + 1..], cancelled)
    ensures forall e | e in pending[..i] + pending[i + 1..] :: e in pending && e.requestId != pending[i].requestId
  {
    var left := pending[..i] + pending[i + 1..];
    forall k | 0 <= k < |left| ensures left[k] in pending && left[k].requestId != pending[i].requestId {
      assert left[k] == if k < i then pending[k] else pending[k + 1];
    }
  }

  lemma SettleInv(b: Broker, i: nat, ok: bool)
    requires BrokerInv(b) && i < |b.pending|
    ensures BrokerInv(Settle(b, i, ok))
  {
    SettleConserves(b.pending, b.settled, b.calls, i, ok);
    RemoveIds(b.pending, i, b.cancelled);
  }

  lemma SettleCancelledInv(b: Broker, i: nat)
    requires BrokerInv(b) && i < |b.pending|
    ensures BrokerInv(SettleCancelled(b, i))
  {
    SettleConserves(b.pending, b.settled, b.calls, i, false);
    RemoveIds(b.pending, i, b.cancelled);
    assert b.pending[i] in b.pending;
    RememberFacts(b.cancelled, b.pending[i].requestId);
  }

  lemma ForgetInv(b: Broker, requestId: string)
    requires BrokerInv(b)
    ensures BrokerInv(Forget(b, requestId))
  {
    DeleteFacts(b.cancelled, requestId);
  }

  lemma {:induction false} CancelAllInv(b: Broker, reason: string)
    requires BrokerInv(b)
    ensures BrokerInv(CancelAll(b, reason)) && CancelAll(b, reason).pending == []
    decreases |b.pending|
  {
    if b.pending != [] {
      SettleCancelledInv(b, 0);
      CancelAllInv(SettleCancelled(b, 0).(emitted := b.emitted + [ToolCancel(b.pending[0].requestId, reason)]), reason);
    }
  }

  /** The hash never gives the empty text, so no request id is empty. */
  ghost predicate NeverEmpty(hash: string -> string) {
    forall text :: hash(text) != ""
  }

  lemma TranscriptIdsNotEmpty(hash: string -> string, messages: seq<Message>)
    requires NeverEmpty(hash)
    ensures forall c | c in TranscriptCalls(hash, messages) :: c.requestId != ""
  {}

  lemma CandidatesNotEmpty(b: Broker, hash: string -> string, id: string, transcript: Option<seq<Message>>)
    requires NeverEmpty(hash)
    ensures forall c | c in Candidates(b, hash, id, transcript) :: c.requestId != ""
  {
    var calls := if transcript.Some? then TranscriptCalls(hash, transcript.value) else [];
    if transcript.Some? {
      TranscriptIdsNotEmpty(hash, transcript.value);
    }
    NotIssuedSubset(LatestBlocks(calls, id), b.issued);
    LatestBlocksSubset(calls, id);
  }

  lemma RequestIdNotEmpty(b: Broker, hash: string -> string, id: string, params: Json, transcript: Option<seq<Message>>)
    requires NeverEmpty(hash)
    ensures RequestIdFor(b, hash, id, params, transcript).0 != ""
  {
    CandidatesNotEmpty(b, hash, id, transcript);
  }

  lemma {:induction false} NotIssuedSubset(blocks: seq<TranscriptCall>, issued: set<string>)
    ensures forall b | b in NotIssued(blocks, issued) :: b in blocks
  {
    if blocks != [] {
      NotIssuedSubset(blocks[1..], issued);
    }
  }

  lemma LatestBlocksSubset(calls: seq<TranscriptCall>, id: string)
    ensures forall b | b in LatestBlocks(calls, id) :: b in calls
  {
    OfIdSubset(calls, id);
    var own := OfId(calls, id);
    if own != [] {
      OfMessageSubset(own, own[|own| - 1].message);
    }
  }

  lemma {:induction false} OfIdSubset(calls: seq<TranscriptCall>, id: string)
    ensures forall c | c in OfId(calls, id) :: c in calls
  {
    if calls != [] {
      OfIdSubset(calls[..|calls| - 1], id);
    }
  }

  lemma {:induction false} OfMessageSubset(calls: seq<TranscriptCall>, message: nat)
    ensures forall c | c in OfMessage(calls, message) :: c in calls
  {
    if calls != [] {
      OfMessageSubset(calls[..|calls| - 1], message);
    }
  }

  lemma AddIds(pending: seq<PendingCall>, cancelled: seq<string>, requestId: string, call: nat)
    requires IdsValid(pending, cancelled) && requestId != "" && IndexOf(pending, requestId) == |pending|
    ensures IdsValid(pending + [PendingCall(requestId, call)], Delete(cancelled, requestId))
  {
    DeleteFacts(cancelled, requestId);
  }

  lemma ExecuteInv(b: Broker, hash: string -> string, operation: string, id: string, params: Json,
          transcript: Option<seq<Message>>, aborted: bool)
    requires BrokerInv(b) && NeverEmpty(hash)
    ensures BrokerInv(Execute(b, hash, operation, id, params, transcript, aborted))
  {
    if aborted {
      RefuseConserves(b.pending, b.settled, b.calls);
    } else {
      var (requestId, issued) := RequestIdFor(b, hash, id, params, transcript);
      RequestIdNotEmpty(b, hash, id, params, transcript);
      ProxyInv(issued, ToolRequest(requestId, BoundedId(hash, id), operation, params));
    }
  }

  lemma ProxyInv(b: Broker, request: Record)
    requires BrokerInv(b) && request.ToolRequest? && request.requestId != ""
    ensures BrokerInv(Proxy(b, request))
  {
    RefuseConserves(b.pending, b.settled, b.calls);
    if !IsPending(b, request.requestId) {
      AddConserves(b.pending, b.settled, b.calls, request.requestId);
      AddIds(b.pending, b.cancelled, request.requestId, b.calls);
    }
  }

  lemma ApplyInv(b: Broker, hash: string -> string, op: Op)
    requires BrokerInv(b) && NeverEmpty(hash)
    ensures BrokerInv(Apply(b, hash, op))
  {
    match op
    case ExecuteOp(operation, id, params, transcript, aborted) =>
      ExecuteInv(b, hash, operation, id, params, transcript, aborted);
    case ResultOp(requestId, tooLarge, final, isError) =>
      if IsPending(b, requestId) {
        SettleInv(b, IndexOf(b.pending, requestId), !isError);
        SettleCancelledInv(b, IndexOf(b.pending, requestId));
      } else {
        ForgetInv(b, requestId);
      }
    case CancelOp(requestId) =>
      if IsPending(b, requestId) {
        SettleCancelledInv(b, IndexOf(b.pending, requestId));
      } else {
        ForgetInv(b, requestId);
      }
    case CancelAllOp(reason) => CancelAllInv(b, reason);
    case AbortOp(requestId) =>
      if IsPending(b, requestId) {
        SettleCancelledInv(b, IndexOf(b.pending, requestId));
      }
  }

  lemma {:induction false} RunInv(b: Broker, hash: string -> string, ops: seq<Op>)
    requires BrokerInv(b) && NeverEmpty(hash)
    ensures BrokerInv(Run(b, hash, ops))
    decreases |ops|
  {
    if ops != [] {
      ApplyInv(b, hash, ops[0]);
      RunInv(Apply(b, hash, ops[0]), hash, ops[1..]);
    }
  }

  /**
   * Over every run, every call is pending or settled, exactly one of them and once; pending and
   * remembered cancelled ids are disjoint; and at most 256 cancelled ids are remembered.
   */
  lemma BrokerSafety(hash: string -> string, ops: seq<Op>)
    requires NeverEmpty(hash)
    ensures var b := Run(Init(), hash, ops);
      && (forall n: nat :: CountPending(b.pending, n) + CountSettled(b.settled, n) == if n < b.calls then 1 else 0)
      && (forall e | e in b.pending :: e.requestId !in b.cancelled)
      && |b.cancelled| <= 256
  {
    RunInv(Init(), hash, ops);
  }

  /** A late result is absorbed once when its id is remembered as cancelled, and refused when it is not. */
  lemma LateResultAbsorbedOnce(b: Broker, requestId: string, tooLarge: bool, final: bool, isError: bool)
    requires BrokerInv(b) && !IsPending(b, requestId)
    ensures var (after, thrown) := AcceptResult(b, requestId, tooLarge, final, isError);
      && (thrown.None? <==> requestId in b.cancelled)
      && (thrown.Some? ==> thrown.value == UnknownResult && after == b)
      && after == b.(cancelled := after.cancelled)
      && (forall id :: id in after.cancelled <==> id in b.cancelled && id != requestId)
      && AcceptResult(after, requestId, tooLarge, final, isError) == (after, Some(UnknownResult))
  {
    DeleteFacts(b.cancelled, requestId);
  }

  /** Cancelling everything asks the runner to cancel every pending request, in order, and nothing else. */
  lemma {:induction false} CancelAllEmits(b: Broker, reason: string)
    ensures CancelAll(b, reason).emitted
      == b.emitted + seq(|b.pending|, i requires 0 <= i < |b.pending| => ToolCancel(b.pending[i].requestId, reason))
    decreases |b.pending|
  {
    if b.pending != [] {
      var next := SettleCancelled(b, 0).(emitted := b.emitted + [ToolCancel(b.pending[0].requestId, reason)]);
      CancelAllEmits(next, reason);
    }
  }

  // ---------------------------------------------------------------- how often a request is cancelled

  function CountRequests(emitted: seq<Record>, id: string): nat {
    if emitted == [] then 0
    else
      var earlier, last := CountRequests(emitted[..|emitted| - 1], id), emitted[|emitted| - 1];
      if last.ToolRequest? && last.requestId == id then earlier + 1 else earlier
  }

  function CountCancels(emitted: seq<Record>, id: string): nat {
    if emitted == [] then 0
    else
      var earlier, last := CountCancels(emitted[..|emitted| - 1], id), emitted[|emitted| - 1];
      if last.ToolCancel? && last.requestId == id then earlier + 1 else earlier
  }

  lemma CountsAppend(emitted: seq<Record>, r: Record, id: string)
    ensures CountRequests(emitted + [r], id)
      == CountRequests(emitted, id) + (if r.ToolRequest? && r.requestId == id then 1 else 0)
    ensures CountCancels(emitted + [r], id)
      == CountCancels(emitted, id) + (if r.ToolCancel? && r.requestId == id then 1 else 0)
  {
    assert (emitted + [r])[..|emitted|] == emitted;
  }

  ghost predicate DistinctPending(pending: seq<PendingCall>) {
    forall i, j | 0 <= i < j < |pending| :: pending[i].requestId != pending[j].requestId
  }

  function InFlight(pending: seq<PendingCall>, id: string): nat {
    if IndexOf(pending, id) < |pending| then 1 else 0
  }

  /** The cancellations of an id, with its call in flight if it has one, are no more than its requests. */
  ghost predicate CancelledOnce(b: Broker) {
    && DistinctPending(b.pending)
    && forall id :: CountCancels(b.emitted, id) + InFlight(b.pending, id) <= CountRequests(b.emitted, id)
  }

  lemma SettledIsGone(pending: seq<PendingCall>, i: nat, id: string)
    requires DistinctPending(pending) && i < |pending|
    ensures DistinctPending(pending[..i] + pending[i + 1..])
    ensures InFlight(pending[..i] + pending[i + 1..], id)
      == if id == pending[i].requestId then 0 else InFlight(pending, id)
  {
    var left := pending[..i] + pending[i + 1..];
    assert forall k | 0 <= k < |left| :: left[k] == if k < i then pending[k] else pending[k + 1];
    if id != pending[i].requestId && InFlight(pending, id) == 1 {
      var j := IndexOf(pending, id);
      assert left[if j < i then j else j - 1] == pending[j];
    }
  }

  lemma SettleCancelsOnce(b: Broker, i: nat, ok: bool)
    requires CancelledOnce(b) && i < |b.pending|
    ensures CancelledOnce(Settle(b, i, ok)) && InFlight(Settle(b, i, ok).pending, b.pending[i].requestId) == 0
    ensures CountCancels(b.emitted, b.pending[i].requestId) < CountRequests(b.emitted, b.pending[i].requestId)
  {
    forall id ensures InFlight(Settle(b, i, ok).pending, id) <= InFlight(b.pending, id) {
      SettledIsGone(b.pending, i, id);
    }
    SettledIsGone(b.pending, i, b.pending[i].requestId);
  }

  /** A call taken out of the pending map, and its cancellation emitted. */
  lemma CancelOneOnce(b: Broker, i: nat, reason: string)
    requires CancelledOnce(b) && i < |b.pending|
    ensures CancelledOnce(SettleCancelled(b, i).(emitted := b.emitted + [ToolCancel(b.pending[i].requestId, reason)]))
  {
    SettleCancelsOnce(b, i, false);
    var next := SettleCancelled(b, i).(emitted := b.emitted + [ToolCancel(b.pending[i].requestId, reason)]);
    forall id ensures CountCancels(next.emitted, id) + InFlight(next.pending, id) <= CountRequests(next.emitted, id) {
      CountsAppend(b.emitted, ToolCancel(b.pending[i].requestId, reason), id);
      assert CountCancels(Settle(b, i, false).emitted, id) + InFlight(next.pending, id) <= CountRequests(b.emitted, id);
    }
  }

  lemma {:induction false} CancelAllOnce(b: Broker, reason: string)
    requires CancelledOnce(b)
    ensures CancelledOnce(CancelAll(b, reason))
    decreases |b.pending|
  {
    if b.pending != [] {
      CancelOneOnce(b, 0, reason);
      CancelAllOnce(SettleCancelled(b, 0).(emitted := b.emitted + [ToolCancel(b.pending[0].requestId, reason)]),
        reason);
    }
  }

  lemma ProxyOnce(b: Broker, request: Record)
    requires CancelledOnce(b) && request.ToolRequest?
    ensures CancelledOnce(Proxy(b, request))
  {
    if !IsPending(b, request.requestId) {
      var next := Proxy(b, request);
      forall id ensures CountCancels(next.emitted, id) + InFlight(next.pending, id) <= CountRequests(next.emitted, id) {
        CountsAppend(b.emitted, request, id);
        assert InFlight(next.pending, id) <= InFlight(b.pending, id) + (if id == request.requestId then 1 else 0);
      }
    }
  }

  lemma ApplyOnce(b: Broker, hash: string -> string, op: Op)
    requires CancelledOnce(b)
    ensures CancelledOnce(Apply(b, hash, op))
  {
    match op
    case ExecuteOp(operation, id, params, transcript, aborted) =>
      if !aborted {
        var (requestId, issued) := RequestIdFor(b, hash, id, params, transcript);
        ProxyOnce(issued, ToolRequest(requestId, BoundedId(hash, id), operation, params));
      }
    case ResultOp(requestId, _, _, isError) =>
      if IsPending(b, requestId) {
        SettleCancelsOnce(b, IndexOf(b.pending, requestId), !isError);
        SettleCancelsOnce(b, IndexOf(b.pending, requestId), false);
      }
    case CancelOp(requestId) =>
      if IsPending(b, requestId) {
        SettleCancelsOnce(b, IndexOf(b.pending, requestId), false);
      }
    case CancelAllOp(reason) => CancelAllOnce(b, reason);
    case AbortOp(requestId) => AbortOnce(b, requestId);
  }

  lemma AbortOnce(b: Broker, requestId: string)
    requires CancelledOnce(b)
    ensures CancelledOnce(Abort(b, requestId))
  {
    if IsPending(b, requestId) {
      CancelOneOnce(b, IndexOf(b.pending, requestId), "agent tool call aborted");
    }
  }

  lemma {:induction false} RunOnce(b: Broker, hash: string -> string, ops: seq<Op>)
    requires CancelledOnce(b)
    ensures CancelledOnce(Run(b, hash, ops))
    decreases |ops|
  {
    if ops != [] {
      ApplyOnce(b, hash, ops[0]);
      RunOnce(Apply(b, hash, ops[0]), hash, ops[1..]);
    }
  }

  /**
   * Over every run, each request that was emitted is asked to be cancelled at most once, and none that is in
   * flight has been.
   */
  lemma NoRequestCancelledTwice(hash: string -> string, ops: seq<Op>, id: string)
    ensures var b := Run(Init(), hash, ops);
      CountCancels(b.emitted, id) + InFlight(b.pending, id) <= CountRequests(b.emitted, id)
  {
    RunOnce(Init(), hash, ops);
  }

  // ---------------------------------------------------------------- which calls succeed

  lemma {:induction false} CancelAllSettles(b: Broker, reason: string)
    ensures CancelAll(b, reason).settled
      == b.settled + seq(|b.pending|, i requires 0 <= i < |b.pending| => Settlement(b.pending[i].call, false))
    decreases |b.pending|
  {
    if b.pending != [] {
      var next := SettleCancelled(b, 0).(emitted := b.emitted + [ToolCancel(b.pending[0].requestId, reason)]);
      CancelAllSettles(next, reason);
    }
  }

  /** The calls that one operation settles. */
  function NewlySettled(b: Broker, hash: string -> string, op: Op): seq<Settlement> {
    var after := Apply(b, hash, op).settled;
    if |b.settled| <= |after| then after[|b.settled|..] else []
  }

  lemma NothingNew(settled: seq<Settlement>, x: Settlement)
    ensures settled[|settled|..] == [] && (settled + [x])[|settled|..] == [x]
  {}

  lemma OthersFail(b: Broker, hash: string -> string, op: Op, x: Settlement)
    requires !op.ResultOp? && x in NewlySettled(b, hash, op)
    ensures !x.ok
  {
    match op
    case CancelAllOp(reason) => CancelAllSettles(b, reason);
    case CancelOp(requestId) =>
      if IsPending(b, requestId) {
        NothingNew(b.settled, Settlement(b.pending[IndexOf(b.pending, requestId)].call, false));
      }
    case AbortOp(requestId) =>
      if IsPending(b, requestId) {
        NothingNew(b.settled, Settlement(b.pending[IndexOf(b.pending, requestId)].call, false));
      }
    case ExecuteOp(_, _, _, _, _) => NothingNew(b.settled, Settlement(b.calls, false));
  }

  lemma ResultSettles(b: Broker, requestId: string, tooLarge: bool, final: bool, isError: bool)
    ensures AcceptResult(b, requestId, tooLarge, final, isError).0.settled == b.settled +
      if IsPending(b, requestId) && (tooLarge || final || isError)
      then [Settlement(b.pending[IndexOf(b.pending, requestId)].call, final && !tooLarge && !isError)] else []
  {}

  lemma PendingIsAtIndex(pending: seq<PendingCall>, cancelled: seq<string>, e: PendingCall)
    requires IdsValid(pending, cancelled)
    ensures e in pending <==> IndexOf(pending, e.requestId) < |pending| && pending[IndexOf(pending, e.requestId)] == e
  {}

  /**
   * A call succeeds exactly by a final result within the limit and without an error that names its request id
   * while it is pending.
   */
  lemma SucceedsIff(b: Broker, hash: string -> string, op: Op, call: nat)
    requires BrokerInv(b)
    ensures Settlement(call, true) in NewlySettled(b, hash, op)
      <==> op.ResultOp? && op.final && !op.tooLarge && !op.isError && PendingCall(op.requestId, call) in b.pending
  {
    if op.ResultOp? {
      PendingIsAtIndex(b.pending, b.cancelled, PendingCall(op.requestId, call));
      ResultSettles(b, op.requestId, op.tooLarge, op.final, op.isError);
    } else if Settlement(call, true) in NewlySettled(b, hash, op) {
      OthersFail(b, hash, op, Settlement(call, true));
    }
  }

  // ---------------------------------------------------------------- the request ids that executions get

  /**
   * A run of executions of one id, with any operations in between: `between[i]` are those before the execution of
   * `executions[i]`, which sees the first `seen[i]` messages of a transcript that grows.
   */
  datatype Executions = Executions(id: string, all: seq<Message>, seen: seq<nat>, executions: seq<Json>,
          between: seq<seq<Op>>)

  predicate IsExecutions(x: Executions) {
    |x.seen| == |x.executions| == |x.between| && forall i | 0 <= i < |x.seen| :: x.seen[i] <= |x.all|
  }

  function Rest(x: Executions): (r: Executions)
    requires IsExecutions(x) && x.executions != []
    ensures IsExecutions(r)
  {
    x.(seen := x.seen[1..], executions := x.executions[1..], between := x.between[1..])
  }

  function Transcript(x: Executions): Option<seq<Message>>
    requires IsExecutions(x) && x.executions != []
  {
    Some(x.all[..x.seen[0]])
  }

  function AfterExecution(b: Broker, hash: string -> string, x: Executions): Broker
    requires IsExecutions(x) && x.executions != []
  {
    Execute(Run(b, hash, x.between[0]), hash, "", x.id, x.executions[0], Transcript(x), false)
  }

  /** The request ids that the executions get. */
  function IssuedIds(b: Broker, hash: string -> string, x: Executions): seq<string>
    requires IsExecutions(x)
    decreases |x.executions|
  {
    if x.executions == [] then []
    else
      [RequestIdFor(Run(b, hash, x.between[0]), hash, x.id, x.executions[0], Transcript(x)).0]
        + IssuedIds(AfterExecution(b, hash, x), hash, Rest(x))
  }

  /** The request ids issued in between. */
  function IssuedBetween(b: Broker, hash: string -> string, x: Executions): (other: seq<set<string>>)
    requires IsExecutions(x)
    ensures |other| == |x.executions|
    decreases |x.executions|
  {
    if x.executions == [] then []
    else [Run(b, hash, x.between[0]).issued - b.issued] + IssuedBetween(AfterExecution(b, hash, x), hash, Rest(x))
  }

  lemma {:induction false} CancelAllIssues(b: Broker, reason: string)
    ensures CancelAll(b, reason).issued == b.issued
    decreases |b.pending|
  {
    if b.pending != [] {
      CancelAllIssues(SettleCancelled(b, 0).(emitted := b.emitted + [ToolCancel(b.pending[0].requestId, reason)]),
        reason);
    }
  }

  lemma {:induction false} IssuedGrows(b: Broker, hash: string -> string, ops: seq<Op>)
    ensures b.issued <= Run(b, hash, ops).issued
    decreases |ops|
  {
    if ops != [] {
      if ops[0].CancelAllOp? {
        CancelAllIssues(b, ops[0].reason);
      }
      IssuedGrows(Apply(b, hash, ops[0]), hash, ops[1..]);
    }
  }

  /** While the choice finds a block, an execution issues that block's request id. */
  lemma ExecutionIssues(b: Broker, hash: string -> string, id: string, transcript: seq<Message>, params: Json)
    ensures var chosen := Choose(NotIssued(LatestBlocks(TranscriptCalls(hash, transcript), id), b.issued), params);
      chosen.Some? ==>
        && RequestIdFor(b, hash, id, params, Some(transcript)).0 == chosen.value.requestId
        && Execute(b, hash, "", id, params, Some(transcript), false).issued == b.issued + {chosen.value.requestId}
  {}

  // ---------------------------------------------------------------- a transcript that grows

  /**
   * The messages from `start` on have no block with the id: they are tool results, say, or replies with other
   * calls.
   */
  ghost predicate NoMoreCalls(hash: string -> string, all: seq<Message>, start: nat, id: string) {
    && start <= |all|
    && forall i | |TranscriptCalls(hash, all[..start])| <= i < |TranscriptCalls(hash, all)| ::
         TranscriptCalls(hash, all)[i].toolCallId != id
  }

  lemma {:induction false} OfIdAppendNone(calls: seq<TranscriptCall>, more: seq<TranscriptCall>, id: string)
    requires forall c | c in more :: c.toolCallId != id
    ensures OfId(calls + more, id) == OfId(calls, id)
  {
    if more == [] {
      assert calls + more == calls;
    } else {
      var last := more[|more| - 1];
      assert last in more;
      assert (calls + more)[..|calls + more| - 1] == calls + more[..|more| - 1];
      OfIdAppendNone(calls, more[..|more| - 1], id);
    }
  }

  lemma PrefixOfCalls(hash: string -> string, all: seq<Message>, n: nat)
    requires n <= |all|
    ensures TranscriptCalls(hash, all[..n]) <= TranscriptCalls(hash, all)
  {
    PrefixStable(hash, all[..n], all[n..]);
    assert all[..n] + all[n..] == all;
  }

  /** However much of it an execution sees, the latest blocks of the id are the same. */
  lemma BlocksStay(hash: string -> string, all: seq<Message>, start: nat, n: nat, id: string)
    requires start <= n <= |all| && NoMoreCalls(hash, all, start, id)
    ensures LatestBlocks(TranscriptCalls(hash, all[..n]), id) == LatestBlocks(TranscriptCalls(hash, all), id)
  {
    var calls, seen := TranscriptCalls(hash, all), TranscriptCalls(hash, all[..n]);
    PrefixOfCalls(hash, all, n);
    PrefixOfCalls(hash, all[..n], start);
    assert all[..n][..start] == all[..start];
    RestHasNone(calls, |seen|, |TranscriptCalls(hash, all[..start])|, id);
    OfIdAppendNone(seen, calls[|seen|..], id);
    assert seen + calls[|seen|..] == calls;
  }

  lemma RestHasNone(calls: seq<TranscriptCall>, n: nat, start: nat, id: string)
    requires start <= n <= |calls| && forall i | start <= i < |calls| :: calls[i].toolCallId != id
    ensures forall c | c in calls[n..] :: c.toolCallId != id
  {}

  // ---------------------------------------------------------------- operations in between

  /** The executions in between are of other ids, and each finds a block of the transcript. */
  predicate OthersFindBlocks(b: Broker, hash: string -> string, x: Executions, ops: seq<Op>)
    decreases |ops|
  {
    ops == [] || (
      && (ops[0].ExecuteOp? && !ops[0].aborted ==>
        && ops[0].id != x.id && ops[0].transcript.Some? && ops[0].transcript.value <= x.all
        && Choose(Candidates(b, hash, ops[0].id, ops[0].transcript), ops[0].params).Some?)
      && OthersFindBlocks(Apply(b, hash, ops[0]), hash, x, ops[1..]))
  }

  predicate AllFindBlocks(b: Broker, hash: string -> string, x: Executions)
    requires IsExecutions(x)
    decreases |x.executions|
  {
    x.executions == []
      || (OthersFindBlocks(b, hash, x, x.between[0]) && AllFindBlocks(AfterExecution(b, hash, x), hash, Rest(x)))
  }

  lemma ChosenIsOther(b: Broker, hash: string -> string, x: Executions, op: Op, block: TranscriptCall)
    requires DistinctRequests(TranscriptCalls(hash, x.all)) && block in TranscriptCalls(hash, x.all)
      && block.toolCallId == x.id
    requires op.ExecuteOp? && op.id != x.id && op.transcript.Some? && op.transcript.value <= x.all
    requires Choose(Candidates(b, hash, op.id, op.transcript), op.params).Some?
    ensures Choose(Candidates(b, hash, op.id, op.transcript), op.params).value.requestId != block.requestId
  {
    assert x.all[..|op.transcript.value|] == op.transcript.value;
    var calls, seen := TranscriptCalls(hash, x.all), TranscriptCalls(hash, op.transcript.value);
    var chosen := Choose(Candidates(b, hash, op.id, op.transcript), op.params).value;
    PrefixOfCalls(hash, x.all, |op.transcript.value|);
    NotIssuedSubset(LatestBlocks(seen, op.id), b.issued);
    LatestBlocksSubset(seen, op.id);
    LatestBlocksHaveId(seen, op.id);
    assert chosen in seen && chosen.toolCallId == op.id;
    var i :| 0 <= i < |seen| && seen[i] == chosen;
    var j :| 0 <= j < |calls| && calls[j] == block;
    assert calls[i] == chosen;
    assert i != j;
  }

  lemma LatestBlocksHaveId(calls: seq<TranscriptCall>, id: string)
    ensures forall c | c in LatestBlocks(calls, id) :: c.toolCallId == id
  {
    var own := OfId(calls, id);
    OfIdHasId(calls, id);
    if own != [] {
      OfMessageSubset(own, own[|own| - 1].message);
    }
  }

  lemma {:induction false} OfIdHasId(calls: seq<TranscriptCall>, id: string)
    ensures forall c | c in OfId(calls, id) :: c.toolCallId == id
  {
    if calls != [] {
      OfIdHasId(calls[..|calls| - 1], id);
    }
  }

  lemma OpIssuesOther(b: Broker, hash: string -> string, x: Executions, op: Op, block: TranscriptCall)
    requires DistinctRequests(TranscriptCalls(hash, x.all)) && block in TranscriptCalls(hash, x.all)
      && block.toolCallId == x.id
    requires OthersFindBlocks(b, hash, x, [op]) && block.requestId !in b.issued
    ensures block.requestId !in Apply(b, hash, op).issued
  {
    match op
    case ExecuteOp(_, id, params, transcript, aborted) =>
      if !aborted {
        ChosenIsOther(b, hash, x, op, block);
      }
    case CancelAllOp(reason) => CancelAllIssues(b, reason);
    case _ =>
  }

  lemma {:induction false} OpsIssueOther(b: Broker, hash: string -> string, x: Executions, ops: seq<Op>,
          block: TranscriptCall)
    requires DistinctRequests(TranscriptCalls(hash, x.all)) && block in TranscriptCalls(hash, x.all)
      && block.toolCallId == x.id
    requires OthersFindBlocks(b, hash, x, ops)
    ensures block.requestId !in Run(b, hash, ops).issued - b.issued
    decreases |ops|
  {
    if block.requestId !in b.issued && ops != [] {
      OpIssuesOther(b, hash, x, ops[0], block);
      OpsIssueOther(Apply(b, hash, ops[0]), hash, x, ops[1..], block);
    }
  }

  /** So what is issued in between is never the id of one of the blocks. */
  lemma {:induction false} OthersIssueOther(b: Broker, hash: string -> string, x: Executions,
          blocks: seq<TranscriptCall>)
    requires DistinctRequests(TranscriptCalls(hash, x.all)) && IsExecutions(x) && AllFindBlocks(b, hash, x)
    requires forall c | c in blocks :: c in TranscriptCalls(hash, x.all) && c.toolCallId == x.id
    ensures OthersOnly(blocks, IssuedBetween(b, hash, x))
    decreases |x.executions|
  {
    if x.executions != [] {
      OthersIssueOther(AfterExecution(b, hash, x), hash, Rest(x), blocks);
      forall c | c in blocks ensures c.requestId !in Run(b, hash, x.between[0]).issued - b.issued {
        OpsIssueOther(b, hash, x, x.between[0], c);
      }
    }
  }

  // ---------------------------------------------------------------- the broker's executions

  /** Every execution sees the id's latest blocks. */
  ghost predicate SeesBlocks(hash: string -> string, x: Executions, blocks: seq<TranscriptCall>)
    requires IsExecutions(x)
  {
    forall i | 0 <= i < |x.seen| :: LatestBlocks(TranscriptCalls(hash, x.all[..x.seen[i]]), x.id) == blocks
  }

  /** The broker's executions get the blocks of the greedy choice. */
  lemma {:induction false} ExecutionsFollowChoices(b: Broker, hash: string -> string, x: Executions,
          blocks: seq<TranscriptCall>)
    requires IsExecutions(x) && SeesBlocks(hash, x, blocks)
    requires forall c | c in Choices(blocks, b.issued, x.executions, IssuedBetween(b, hash, x)) :: c.Some?
    ensures var choices := Choices(blocks, b.issued, x.executions, IssuedBetween(b, hash, x));
      var ids := IssuedIds(b, hash, x);
      |ids| == |choices| && forall i | 0 <= i < |choices| :: choices[i].Some? && ids[i] == choices[i].value.requestId
    decreases |x.executions|
  {
    if x.executions != [] {
      var now := Run(b, hash, x.between[0]);
      IssuedGrows(b, hash, x.between[0]);
      assert b.issued + (now.issued - b.issued) == now.issued;
      ExecutionIssues(now, hash, x.id, x.all[..x.seen[0]], x.executions[0]);
      var other := IssuedBetween(b, hash, x);
      var choices := Choices(blocks, b.issued, x.executions, other);
      assert choices[0] in choices;
      var next := AfterExecution(b, hash, x);
      assert choices[1..] == Choices(blocks, next.issued, x.executions[1..], other[1..]);
      assert forall c | c in choices[1..] :: c in choices;
      ExecutionsFollowChoices(next, hash, Rest(x), blocks);
    }
  }

  /**
   * In the broker itself, while its transcript grows without further blocks of the id, and with any operations
   * in between whose executions are of other ids and find their blocks: executions of the id, no more than its
   * blocks in the latest message that are not proxied yet, get the request ids of distinct blocks, and each the
   * id of a block with its own arguments exactly when those blocks have the executions' arguments, each as
   * often at least.
   */
  lemma BrokerPairsExecutions(b: Broker, hash: string -> string, x: Executions, start: nat)
    requires IsExecutions(x) && IdealOn(hash, RawCalls(x.all)) && !SpellsReuse(hash, RawCalls(x.all))
    requires NoMoreCalls(hash, x.all, start, x.id) && (forall i | 0 <= i < |x.seen| :: start <= x.seen[i])
    requires AllFindBlocks(b, hash, x)
    requires |x.executions| <= |NotIssued(LatestBlocks(TranscriptCalls(hash, x.all), x.id), b.issued)|
    ensures var blocks := LatestBlocks(TranscriptCalls(hash, x.all), x.id);
      var choices := Choices(blocks, b.issued, x.executions, IssuedBetween(b, hash, x));
      var ids := IssuedIds(b, hash, x);
      && |ids| == |choices|
      && (forall i | 0 <= i < |choices| :: choices[i].Some? && ids[i] == choices[i].value.requestId)
      && NoRepeats(ids)
      && (OwnArguments(choices, x.executions) <==>
           ExecutedArguments(x.executions) <= BlockArguments(NotIssued(blocks, b.issued)))
  {
    var blocks := LatestBlocks(TranscriptCalls(hash, x.all), x.id);
    CallsDistinct(hash, x.all);
    LatestBlocksDistinct(hash, x.all, x.id);
    OthersIssueOther(b, hash, x, blocks);
    GreedyIsExact(blocks, b.issued, x.executions, IssuedBetween(b, hash, x));
    forall i | 0 <= i < |x.seen| ensures LatestBlocks(TranscriptCalls(hash, x.all[..x.seen[i]]), x.id) == blocks {
      BlocksStay(hash, x.all, start, x.seen[i], x.id);
    }
    ExecutionsFollowChoices(b, hash, x, blocks);
  }
}
